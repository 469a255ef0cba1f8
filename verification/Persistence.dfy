/**
  How orders and their items are stored: one row per order, one row per item, and a save that reconciles the
  item rows with the items in memory inside one transaction.
*/
module Persistence {
  import opened Prelude
  import opened OrderStatus
  import opened Items
  import opened Signatures
  import opened Orders
  import opened Effects
  import opened ServiceOrders
  import opened Orchestration
  import opened Replacement

  // --- Rows ---

  datatype OrderRow = OrderRow(
    customerId: string,
    vehicleId: string,
    description: string,
    status: string,
    sagaStatus: Option<SagaStatus>,
    sagaId: Option<string>,
    target: Option<string>,
    notes: Option<string>,
    preferenceId: Option<string>,
    paymentId: Option<string>,
    paymentUrl: Option<string>,
    closedAt: Option<Time>,
    deletedAt: Option<Time>)

  datatype ItemRow = ItemRow(
    orderId: string,
    historyId: Option<string>,
    itemType: string,
    reference: string,
    name: string,
    quantity: int,
    unitPrice: int,
    deletedAt: Option<Time>)

  datatype Tables = Tables(orders: map<string, OrderRow>, items: map<string, ItemRow>)

  predicate IsUuidOrNone(s: Option<string>) { s.Some? ==> IsUuid(s.value) }

  /** A saga id that is not a UUID is stored as none. */
  function UuidOrNone(s: Option<string>): Option<string> {
    if s.Some? && IsUuid(s.value) then s else None
  }

  function TargetName(target: Option<Status>): Option<string> {
    if target.None? then None else Some(Name(target.value))
  }

  function ParseTarget(name: Option<string>): Result<Option<Status>> {
    if name.None? || name.value == "" then Ok(None)
    else match Parse(name.value)
      case Ok(s) => Ok(Some(s))
      case Err(e) => Err(e)
  }

  function ParseType(name: string): Option<ItemType> {
    if name == "PRODUCT" then Some(Product) else if name == "SERVICE" then Some(Service) else None
  }

  /** The row of an order whose ids are UUIDs. */
  function FromDomain(o: Order): Result<OrderRow> {
    if (o.id != "" && !IsUuid(o.id)) || !IsUuid(o.customerId) || !IsUuid(o.vehicleId) then Err(MalformedId)
    else Ok(OrderRow(o.customerId, o.vehicleId, o.description, Name(o.status), Some(o.sagaStatus),
                     UuidOrNone(o.sagaId), TargetName(o.target), o.notes, o.preferenceId, o.paymentId, o.paymentUrl,
                     o.closedAt, o.deletedAt))
  }

  /** The row of an item of the given order. */
  function FromDomainItem(item: Item, orderId: string): Result<ItemRow> {
    if (item.id != "" && !IsUuid(item.id)) || !IsUuid(item.orderId) || !IsUuid(item.reference)
      || !IsUuidOrNone(item.historyId)
    then Err(MalformedId)
    else Ok(ItemRow(orderId, item.historyId, TypeName(item.itemType), item.reference, item.name,
                    item.quantity, item.unitPrice, item.deletedAt))
  }

  function ToDomainItem(id: string, row: ItemRow): Result<Item> {
    match ParseType(row.itemType)
    case None => Err(InvalidItemType)
    case Some(t) => Ok(Item(id, row.orderId, row.historyId, t, row.reference, row.name, row.quantity, row.unitPrice,
      row.deletedAt))
  }

  /** The order a row stands for, still without its items. */
  function ToDomain(id: string, row: OrderRow): Result<Order> {
    match Parse(row.status)
    case Err(e) => Err(e)
    case Ok(status) =>
      match ParseTarget(row.target)
      case Err(e) => Err(e)
      case Ok(target) =>
        if row.customerId == "" then Err(InvalidCustomerId)
        else if row.vehicleId == "" then Err(InvalidVehicleId)
        else Ok(Order(id, row.customerId, row.vehicleId, row.description, status, SagaStatusOf(row.sagaStatus),
                      row.sagaId, target, row.notes, row.preferenceId, row.paymentId, row.paymentUrl, [], row.closedAt,
                      row.deletedAt))
  }

  // --- Saving ---

  /** A new order takes the id the storage gives it, and so do its items. */
  function Owned(o: Order, newId: string): Order {
    if o.id == "" then o.(id := newId, items := OfOrder(o.items, newId)) else o
  }

  function OfOrder(items: seq<Item>, orderId: string): (r: seq<Item>)
    ensures |r| == |items| && forall i | 0 <= i < |items| :: r[i] == items[i].(orderId := orderId)
  {
    seq(|items|, i requires 0 <= i < |items| => items[i].(orderId := orderId))
  }

  function KnownIds(items: seq<Item>): set<string> {
    set i | 0 <= i < |items| && items[i].id != "" :: items[i].id
  }

  /** The live rows of the order that are not kept are soft-deleted. */
  function SoftDeleted(rows: map<string, ItemRow>, orderId: string, keep: set<string>, now: Time)
    : (r: map<string, ItemRow>)
    ensures r.Keys == rows.Keys
  {
    map id | id in rows ::
      if rows[id].orderId == orderId && id !in keep && rows[id].deletedAt.None? then rows[id].(deletedAt := Some(now))
      else rows[id]
  }

  /** Each item overwrites the row under its id, or makes a new one. */
  function Upserted(rows: map<string, ItemRow>, items: seq<Item>, orderId: string): Result<map<string, ItemRow>>
    decreases |items|
  {
    if items == [] then Ok(rows)
    else
      match FromDomainItem(items[0], orderId)
      case Err(e) => Err(e)
      case Ok(row) => Upserted(rows[items[0].id := row], items[1..], orderId)
  }

  /** The tables after a save, or the error that rolls it back. `newId` and `ids` are the fresh ids for the order and
      for the items that have none. */
  function Saved(t: Tables, o: Order, newId: string, ids: seq<string>, now: Time): Result<Tables> {
    match FromDomain(o)
    case Err(e) => Err(e)
    case Ok(row) =>
      var own := Owned(o, newId);
      match Upserted(SoftDeleted(t.items, own.id, KnownIds(own.items), now), Identified(own.items, ids), own.id)
      case Err(e) => Err(e)
      case Ok(rows) => Ok(Tables(t.orders[own.id := row], rows))
  }

  // --- Loading ---

  predicate IsLive(row: ItemRow, orderId: string) {
    row.orderId == orderId && row.deletedAt.None?
  }

  /** The order is what the tables hold under the id: the fields of its row, and in some order its live items. */
  ghost predicate Holds(t: Tables, id: string, o: Order) {
    && id in t.orders && t.orders[id].deletedAt.None?
    && ToDomain(id, t.orders[id]) == Ok(o.(items := []))
    && IdsApart(o.items)
    && (forall i | 0 <= i < |o.items| :: IsRowOf(t, id, o.items[i]))
    && (forall r | r in t.items && IsLive(t.items[r], id) :: exists i | 0 <= i < |o.items| :: o.items[i].id == r)
  }

  predicate IsRowOf(t: Tables, orderId: string, item: Item) {
    item.id in t.items && IsLive(t.items[item.id], orderId) && ToDomainItem(item.id, t.items[item.id]) == Ok(item)
  }

  ghost predicate IdsApart(items: seq<Item>) {
    forall i, j | 0 <= i < j < |items| :: items[i].id != items[j].id
  }

  /** The columns that orders are looked up by say what the order says: its customer, its status by name, its saga
      status. */
  lemma ColumnsTell(t: Tables, id: string, o: Order)
    requires Holds(t, id, o)
    ensures t.orders[id].customerId == o.customerId && t.orders[id].status == Name(o.status)
    ensures t.orders[id].sagaStatus == Some(o.sagaStatus) || (t.orders[id].sagaStatus.None? && o.sagaStatus == SagaIdle)
  {
    hide Parse, Name;
    ParsedNames(t.orders[id].status);
  }

  // --- What a save leaves in the item table ---

  /** The items bring rows of this order that are live, or new ones. */
  ghost predicate Derived(t: Tables, orderId: string, items: seq<Item>) {
    && IdsApart(items)
    && forall i | 0 <= i < |items| :: items[i].id in t.items ==> IsLive(t.items[items[i].id], orderId)
  }

  lemma {:induction false} UpsertedRows(rows: map<string, ItemRow>, items: seq<Item>, orderId: string)
    requires IdsApart(items) && Upserted(rows, items, orderId).Ok?
    ensures var after := Upserted(rows, items, orderId).value;
      && (forall i | 0 <= i < |items| ::
        items[i].id in after && FromDomainItem(items[i], orderId) == Ok(after[items[i].id]))
      && (forall id | id in rows && (forall i | 0 <= i < |items| :: items[i].id != id) ::
        id in after && after[id] == rows[id])
      && (forall id | id in after :: id in rows || exists i | 0 <= i < |items| :: items[i].id == id)
      && rows.Keys <= after.Keys
    decreases |items|
  {
    hide FromDomainItem;
    if items != [] {
      var tail := items[1..];
      assert forall i | 0 <= i < |tail| :: tail[i] == items[i + 1];
      var rows' := rows[items[0].id := FromDomainItem(items[0], orderId).value];
      UpsertedRows(rows', tail, orderId);
      var after := Upserted(rows, items, orderId).value;
      forall i | 0 <= i < |items|
        ensures items[i].id in after && FromDomainItem(items[i], orderId) == Ok(after[items[i].id])
      {
        if i > 0 {
          assert tail[i - 1] == items[i];
        } else {
          assert forall k | 0 <= k < |tail| :: tail[k].id != items[0].id;
        }
      }
      forall id | id in after
        ensures id in rows || exists i | 0 <= i < |items| :: items[i].id == id
      {
        if id !in rows && id != items[0].id {
          var k :| 0 <= k < |tail| && tail[k].id == id;
          assert items[k + 1].id == id;
        }
      }
    }
  }

  /** Writing the items goes wrong only over an id that is not a UUID. */
  lemma {:induction false} UpsertSucceeds(rows: map<string, ItemRow>, items: seq<Item>, orderId: string)
    ensures Upserted(rows, items, orderId).Ok? <==> forall i | 0 <= i < |items| :: FromDomainItem(items[i], orderId).Ok?
    ensures Upserted(rows, items, orderId).Err? ==> Upserted(rows, items, orderId).error == MalformedId
    decreases |items|
  {
    if items != [] {
      assert forall i | 0 <= i < |items[1..]| :: items[1..][i] == items[i + 1];
      if FromDomainItem(items[0], orderId).Ok? {
        UpsertSucceeds(rows[items[0].id := FromDomainItem(items[0], orderId).value], items[1..], orderId);
      }
    }
  }

  /** A save of an order whose items are its own removes no row, leaves all other orders and their items alone, and
      leaves every row that is already soft-deleted exactly as it is, its history record included. */
  lemma SaveKeeps(t: Tables, o: Order, newId: string, ids: seq<string>, now: Time)
    requires Saved(t, o, newId, ids, now).Ok?
    requires Derived(t, Owned(o, newId).id, Identified(Owned(o, newId).items, ids))
    ensures var after, own := Saved(t, o, newId, ids, now).value, Owned(o, newId);
      && t.orders.Keys <= after.orders.Keys && t.items.Keys <= after.items.Keys
      && (forall id | id in t.orders && id != own.id :: after.orders[id] == t.orders[id])
      && (forall id | id in t.items && t.items[id].orderId != own.id :: after.items[id] == t.items[id])
      && (forall id | id in t.items && t.items[id].deletedAt.Some? :: after.items[id] == t.items[id])
  {
    hide FromDomain, FromDomainItem, Identified;
    var own := Owned(o, newId);
    UpsertedRows(SoftDeleted(t.items, own.id, KnownIds(own.items), now), Identified(own.items, ids), own.id);
  }

  /** One save with the ids it hands out. */
  datatype SaveCall = SaveCall(order: Order, newId: string, ids: seq<string>, now: Time)

  /** A run of saves, each of an order whose items are its own; those rolled back leave no trace. */
  ghost predicate Saves(t: Tables, calls: seq<SaveCall>, t': Tables)
    decreases |calls|
  {
    if calls == [] then t' == t
    else
      var c := calls[0];
      var saved := Saved(t, c.order, c.newId, c.ids, c.now);
      && Derived(t, Owned(c.order, c.newId).id, Identified(Owned(c.order, c.newId).items, c.ids))
      && Saves(if saved.Ok? then saved.value else t, calls[1..], t')
  }

  /** Whatever is saved later, no row ever disappears, and a soft-deleted row stays as it was tagged. */
  lemma {:induction false} RetiredRowsStay(t: Tables, calls: seq<SaveCall>, t': Tables)
    requires Saves(t, calls, t')
    ensures t.items.Keys <= t'.items.Keys && t.orders.Keys <= t'.orders.Keys
    ensures forall id | id in t.items && t.items[id].deletedAt.Some? :: t'.items[id] == t.items[id]
    decreases |calls|
  {
    hide Saved, Derived;
    if calls != [] {
      var c := calls[0];
      var saved := Saved(t, c.order, c.newId, c.ids, c.now);
      if saved.Ok? {
        SaveKeeps(t, c.order, c.newId, c.ids, c.now);
      }
      RetiredRowsStay(if saved.Ok? then saved.value else t, calls[1..], t');
    }
  }

  // --- The round trip ---

  lemma {:induction false} ActiveHasTheLive(items: seq<Item>)
    requires IdsApart(items)
    ensures IdsApart(Active(items))
    ensures forall x | x in Active(items) :: x in items && !x.Deleted()
    ensures forall i | 0 <= i < |items| && !items[i].Deleted() :: items[i] in Active(items)
  {
    if items != [] {
      var tail, rest := items[1..], Active(items[1..]);
      assert forall i | 0 <= i < |tail| :: tail[i] == items[i + 1];
      ActiveHasTheLive(tail);
      assert forall x | x in tail :: x in items && x.id != items[0].id;
      if !items[0].Deleted() {
        assert Active(items) == [items[0]] + rest;
        assert forall j | 0 <= j < |rest| :: rest[j] in tail;
        assert forall x | x in rest :: x in Active(items);
        assert Active(items)[0] == items[0];
      }
    }
  }

  lemma {:induction false} IdentifiedKeepsKnownIds(items: seq<Item>, ids: seq<string>)
    ensures |Identified(items, ids)| == |items|
    ensures forall i | 0 <= i < |items| && items[i].id != "" :: Identified(items, ids)[i] == items[i]
    ensures forall i | 0 <= i < |items| :: Identified(items, ids)[i] == items[i].(id := Identified(items, ids)[i].id)
  {
    if items != [] {
      IdentifiedKeepsKnownIds(items[1..], if items[0].id == "" && ids != [] then ids[1..] else ids);
    }
  }

  lemma OrderRowRoundTrip(o: Order, id: string)
    requires FromDomain(o).Ok? && IsUuidOrNone(o.sagaId)
    ensures ToDomain(id, FromDomain(o).value) == Ok(o.(id := id, items := []))
  {
    NamesRoundTrip(o.status, "");
    if o.target.Some? {
      NamesRoundTrip(o.target.value, "");
      assert |Name(o.target.value)| > 0;
    }
  }

  lemma ItemRowRoundTrip(item: Item, orderId: string)
    requires FromDomainItem(item, orderId).Ok? && item.orderId == orderId
    ensures ToDomainItem(item.id, FromDomainItem(item, orderId).value) == Ok(item)
    ensures IsLive(FromDomainItem(item, orderId).value, orderId) <==> !item.Deleted()
  {
    assert TypeName(Product)[0] != TypeName(Service)[0];
  }

  /** After a save the tables hold exactly the order as it is in memory, without the items deleted there: every
      other row of the order has been soft-deleted. */
  lemma SaveThenLoad(t: Tables, o: Order, newId: string, ids: seq<string>, now: Time)
    requires Saved(t, o, newId, ids, now).Ok?
    requires o.deletedAt.None? && IsUuidOrNone(o.sagaId)
    requires var own := Owned(o, newId);
      && Derived(t, own.id, Identified(own.items, ids))
      && forall i | 0 <= i < |own.items| :: own.items[i].orderId == own.id
    ensures Holds(Saved(t, o, newId, ids, now).value, Owned(o, newId).id, Stored(Owned(o, newId), ids))
  {
    hide FromDomain, ToDomain, FromDomainItem, ToDomainItem, Identified, Active, Upserted;
    var own := Owned(o, newId);
    var list := Identified(own.items, ids);
    OrderRowRoundTrip(o, own.id);
    ItemsThenLoad(t, own, ids, now);
    RowIsAlive(o);
  }

  lemma RowIsAlive(o: Order)
    requires FromDomain(o).Ok? && o.deletedAt.None?
    ensures FromDomain(o).value.deletedAt.None?
  {
  }

  /** The items of the saved order and the live rows of the order are the same ones. */
  lemma ItemsThenLoad(t: Tables, own: Order, ids: seq<string>, now: Time)
    requires Derived(t, own.id, Identified(own.items, ids))
    requires forall i | 0 <= i < |own.items| :: own.items[i].orderId == own.id
    requires Upserted(SoftDeleted(t.items, own.id, KnownIds(own.items), now), Identified(own.items, ids), own.id).Ok?
    ensures var rows := Upserted(SoftDeleted(t.items, own.id, KnownIds(own.items), now), Identified(own.items, ids),
      own.id).value;
      var live := Active(Identified(own.items, ids));
      && IdsApart(live)
      && (forall i | 0 <= i < |live| :: IsRowOf(Tables(t.orders, rows), own.id, live[i]))
      && (forall r | r in rows && IsLive(rows[r], own.id) :: exists i | 0 <= i < |live| :: live[i].id == r)
  {
    hide FromDomainItem, ToDomainItem, Identified, Active, Upserted, IsLive;
    var list := Identified(own.items, ids);
    var before := SoftDeleted(t.items, own.id, KnownIds(own.items), now);
    var rows := Upserted(before, list, own.id).value;
    var live := Active(list);
    UpsertedRows(before, list, own.id);
    ActiveHasTheLive(list);
    IdentifiedKeepsKnownIds(own.items, ids);
    forall i | 0 <= i < |live| ensures IsRowOf(Tables(t.orders, rows), own.id, live[i]) {
      assert live[i] in list;
      var k :| 0 <= k < |list| && list[k] == live[i];
      ItemRowRoundTrip(list[k], own.id);
    }
    forall r | r in rows && IsLive(rows[r], own.id)
      ensures exists i | 0 <= i < |live| :: live[i].id == r
    {
      if forall k | 0 <= k < |list| :: list[k].id != r {
        DroppedRowsAreDeleted(t.items, own.id, KnownIds(own.items), now, r);
        assert false;
      }
      var k :| 0 <= k < |list| && list[k].id == r;
      ItemRowRoundTrip(list[k], own.id);
      assert list[k] in live;
    }
  }

  lemma DroppedRowsAreDeleted(rows: map<string, ItemRow>, orderId: string, keep: set<string>, now: Time, id: string)
    requires id in rows && id !in keep
    ensures !IsLive(SoftDeleted(rows, orderId, keep, now)[id], orderId)
  {
  }

  /** What the tables hold under an id is one order, up to the sequence of its items. */
  lemma HeldOrderIsUnique(t: Tables, id: string, a: Order, b: Order)
    requires Holds(t, id, a) && Holds(t, id, b)
    ensures a.(items := []) == b.(items := []) && multiset(a.items) == multiset(b.items)
  {
    hide ToDomain, ToDomainItem;
    SameItems(t, id, a, b);
    SameItems(t, id, b, a);
    forall x ensures multiset(a.items)[x] == multiset(b.items)[x] {
      DistinctOnce(a.items, x);
      DistinctOnce(b.items, x);
      assert x in a.items <==> x in multiset(a.items);
      assert x in b.items <==> x in multiset(b.items);
    }
  }

  lemma SameItems(t: Tables, id: string, a: Order, b: Order)
    requires Holds(t, id, a) && Holds(t, id, b)
    ensures forall x | x in a.items :: x in b.items
  {
  }

  /** Round trip: whatever a load gives back after a save has the fields of the saved order and, as a multiset,
      exactly its items that are not deleted. */
  lemma RoundTrip(t: Tables, o: Order, newId: string, ids: seq<string>, now: Time, loaded: Order)
    requires Saved(t, o, newId, ids, now).Ok?
    requires o.deletedAt.None? && IsUuidOrNone(o.sagaId)
    requires var own := Owned(o, newId);
      && Derived(t, own.id, Identified(own.items, ids))
      && forall i | 0 <= i < |own.items| :: own.items[i].orderId == own.id
    requires Holds(Saved(t, o, newId, ids, now).value, Owned(o, newId).id, loaded)
    ensures loaded.(items := []) == Owned(o, newId).(items := [])
    ensures multiset(loaded.items) == multiset(Active(Identified(Owned(o, newId).items, ids)))
  {
    hide Holds, Saved, Derived, Owned;
    SaveThenLoad(t, o, newId, ids, now);
    HeldOrderIsUnique(Saved(t, o, newId, ids, now).value, Owned(o, newId).id, loaded, Stored(Owned(o, newId), ids));
  }

  /** Fresh ids go to the items that have none. */
  ghost predicate FreshIds(t: Tables, ids: seq<string>) {
    && (forall i, j | 0 <= i < j < |ids| :: ids[i] != ids[j])
    && (forall i | 0 <= i < |ids| :: ids[i] != "" && ids[i] !in t.items)
  }

  /** The items are rows of the order as loaded, each at most once, and new ones. */
  ghost predicate GrownFrom(loaded: Order, items: seq<Item>) {
    && (forall i, j | 0 <= i < j < |items| && items[i].id != "" :: items[i].id != items[j].id)
    && (forall i | 0 <= i < |items| && items[i].id != "" :: exists k | 0 <= k < |loaded.items| ::
      loaded.items[k].id == items[i].id)
  }

  /** Every order that was loaded and then changed in memory brings only items of its own. */
  lemma LoadedOrdersOwnTheirItems(t: Tables, loaded: Order, items: seq<Item>, ids: seq<string>)
    requires Holds(t, loaded.id, loaded) && GrownFrom(loaded, items)
    requires FreshIds(t, ids) && |ids| >= |items|
    ensures Derived(t, loaded.id, Identified(items, ids))
  {
    hide ToDomain, ToDomainItem, Identified;
    forall i | 0 <= i < |items| && items[i].id != ""
      ensures items[i].id in t.items && IsLive(t.items[items[i].id], loaded.id)
    {
      var k :| 0 <= k < |loaded.items| && loaded.items[k].id == items[i].id;
      assert IsRowOf(t, loaded.id, loaded.items[k]);
    }
    NewIdsStayApart(t, items, ids);
    IdentifiedKeepsKnownIds(items, ids);
  }

  lemma {:induction false} IdsComeFrom(items: seq<Item>, ids: seq<string>)
    requires |ids| >= |items|
    ensures |Identified(items, ids)| == |items|
    ensures forall i | 0 <= i < |items| && items[i].id == "" :: Identified(items, ids)[i].id in ids
    ensures forall i | 0 <= i < |items| && items[i].id != "" :: Identified(items, ids)[i].id == items[i].id
  {
    if items != [] {
      var more := if items[0].id == "" then ids[1..] else ids;
      IdsComeFrom(items[1..], more);
      assert forall id | id in more :: id in ids;
      assert forall i | 0 <= i < |items[1..]| :: items[1..][i] == items[i + 1];
    }
  }

  lemma {:induction false} NewIdsStayApart(t: Tables, items: seq<Item>, ids: seq<string>)
    requires FreshIds(t, ids) && |ids| >= |items|
    requires forall i | 0 <= i < |items| && items[i].id != "" :: items[i].id in t.items
    requires forall i, j | 0 <= i < j < |items| && items[i].id != "" :: items[i].id != items[j].id
    ensures IdsApart(Identified(items, ids))
    ensures |Identified(items, ids)| == |items|
    ensures forall i | 0 <= i < |items| && Identified(items, ids)[i].id in t.items :: items[i].id != ""
  {
    IdsComeFrom(items, ids);
    assert forall id | id in ids :: id !in t.items;
    if items != [] {
      var tail := items[1..];
      var more := if items[0].id == "" then ids[1..] else ids;
      var first := if items[0].id == "" then items[0].(id := ids[0]) else items[0];
      var rest := Identified(tail, more);
      assert forall i | 0 <= i < |tail| :: tail[i] == items[i + 1];
      assert forall i | 0 <= i < |ids[1..]| :: ids[1..][i] == ids[i + 1];
      NewIdsStayApart(t, tail, more);
      IdsComeFrom(tail, more);
      assert Identified(items, ids) == [first] + rest;
      forall i | 0 <= i < |rest| ensures rest[i].id != first.id {
        assert tail[i] == items[i + 1];
        assert rest[i].id == tail[i].id || rest[i].id in more;
      }
    }
  }

  /** After the save of an edit every item it replaced is in the table, soft-deleted and tagged with the history
      record of the edit. */
  lemma ReplacedRowsAreTagged(t: Tables, loaded: Order, o: Order, added: seq<Item>, history: string, ids: seq<string>,
                              now: Time)
    requires Holds(t, loaded.id, loaded) && loaded.id != "" && o.id == loaded.id
    requires forall i | 0 <= i < |loaded.items| :: loaded.items[i].id != ""
    requires o.items == Replaced(loaded.items, added, now, history)
    requires AllLive(added) && forall i | 0 <= i < |added| :: added[i].id == ""
    requires FreshIds(t, ids) && |ids| >= |o.items| && Saved(t, o, "", ids, now).Ok?
    ensures Derived(t, o.id, Identified(o.items, ids))
    ensures var after := Saved(t, o, "", ids, now).value;
      forall i | 0 <= i < |loaded.items| ::
        var item := loaded.items[i];
        && item.id in t.items && item.id in after.items
        && after.items[item.id].deletedAt == Some(now)
        && after.items[item.id].historyId == OrElse(item.historyId, Some(history))
  {
    hide Holds, GrownFrom, FreshIds, Derived, Identified, Replaced, Active, Upserted, FromDomain, FromDomainItem;
    hide SoftDeleted;
    ReplacementGrows(t, loaded, o.items, added, history, now);
    LoadedOrdersOwnTheirItems(t, loaded, o.items, ids);
    IdentifiedKeepsKnownIds(o.items, ids);
    SavedRowsOf(t, o, ids, now);
  }

  /** Nor does that change with anything saved later. */
  lemma ReplacedRowsStayTagged(t: Tables, loaded: Order, o: Order, added: seq<Item>, history: string, ids: seq<string>,
                               now: Time, later: seq<SaveCall>, t': Tables, i: nat)
    requires Holds(t, loaded.id, loaded) && loaded.id != "" && o.id == loaded.id
    requires forall i | 0 <= i < |loaded.items| :: loaded.items[i].id != ""
    requires o.items == Replaced(loaded.items, added, now, history)
    requires AllLive(added) && forall i | 0 <= i < |added| :: added[i].id == ""
    requires FreshIds(t, ids) && |ids| >= |o.items| && Saved(t, o, "", ids, now).Ok?
    requires Saves(Saved(t, o, "", ids, now).value, later, t') && i < |loaded.items|
    ensures var item := loaded.items[i];
      && item.id in t'.items
      && t'.items[item.id].deletedAt == Some(now)
      && t'.items[item.id].historyId == OrElse(item.historyId, Some(history))
  {
    hide Holds, FreshIds, Saved, Replaced, Saves;
    ReplacedRowsAreTagged(t, loaded, o, added, history, ids, now);
    RetiredRowsStay(Saved(t, o, "", ids, now).value, later, t');
  }

  /** The row saved for each item. */
  lemma SavedRowsOf(t: Tables, o: Order, ids: seq<string>, now: Time)
    requires o.id != "" && Saved(t, o, "", ids, now).Ok? && Derived(t, o.id, Identified(o.items, ids))
    ensures var after, list := Saved(t, o, "", ids, now).value, Identified(o.items, ids);
      forall i | 0 <= i < |list| ::
        && list[i].id in after.items
        && after.items[list[i].id].deletedAt == list[i].deletedAt
          && after.items[list[i].id].historyId == list[i].historyId
  {
    hide Identified, Upserted, FromDomain, SoftDeleted;
    UpsertedRows(SoftDeleted(t.items, o.id, KnownIds(o.items), now), Identified(o.items, ids), o.id);
  }

  lemma ReplacementGrows(t: Tables, loaded: Order, items: seq<Item>, added: seq<Item>, history: string, now: Time)
    requires Holds(t, loaded.id, loaded) && forall i | 0 <= i < |loaded.items| :: loaded.items[i].id != ""
    requires AllLive(added) && forall i | 0 <= i < |added| :: added[i].id == ""
    requires items == Replaced(loaded.items, added, now, history)
    ensures GrownFrom(loaded, items) && |items| >= |loaded.items|
    ensures forall i | 0 <= i < |loaded.items| ::
      && loaded.items[i].id in t.items
      && items[i] == loaded.items[i].(deletedAt := Some(now),
        historyId := OrElse(loaded.items[i].historyId, Some(history)))
  {
    hide Replaced, Active, ToDomain, ToDomainItem, Identified;
    forall i | 0 <= i < |loaded.items| ensures !loaded.items[i].Deleted() && loaded.items[i].id in t.items {
      assert IsRowOf(t, loaded.id, loaded.items[i]);
      LiveRowsGiveLiveItems(loaded.items[i].id, t.items[loaded.items[i].id]);
    }
    ReplacementMeaning(loaded.items, added, now, history, []);
    assert forall i | |loaded.items| <= i < |items| :: items[i] == items[|loaded.items|..][i - |loaded.items|];
  }

  lemma LiveRowsGiveLiveItems(id: string, row: ItemRow)
    requires ToDomainItem(id, row).Ok?
    ensures ToDomainItem(id, row).value.deletedAt == row.deletedAt
  {
  }

  // --- The repository ---

  class Repository {
    var tables: Tables

    /** The ids of all item rows of an order, soft-deleted ones included, each once. */
    method FindItems(tx: Tables, orderId: string) returns (found: seq<string>)
      ensures forall id :: id in found <==> id in tx.items && tx.items[id].orderId == orderId
    {
      found := [];
      var left := tx.items.Keys;
      while left != {}
        invariant left <= tx.items.Keys
        invariant forall id :: id in found <==> id in tx.items && id !in left && tx.items[id].orderId == orderId
        decreases left
      {
        var id :| id in left;
        left := left - {id};
        if tx.items[id].orderId == orderId {
          found := found + [id];
        }
      }
    }

    /** Soft-deletes the rows of the order that are not to be kept. */
    method DeleteMissing(tx: Tables, orderId: string, keep: set<string>, now: Time) returns (tx': Tables)
      ensures tx' == tx.(items := SoftDeleted(tx.items, orderId, keep, now))
    {
      var existing := FindItems(tx, orderId);
      tx' := tx;
      for i := 0 to |existing|
        invariant tx'.orders == tx.orders && tx'.items.Keys == tx.items.Keys
        invariant forall id | id in tx.items ::
          tx'.items[id] == if id in existing[..i] then SoftDeleted(tx.items, orderId, keep, now)[id] else tx.items[id]
      {
        var id := existing[i];
        var row := tx.items[id];
        if id !in keep && row.deletedAt.None? {
          tx' := tx'.(items := tx'.items[id := row.(deletedAt := Some(now))]);
        }
        assert forall x :: x in existing[..i + 1] <==> x in existing[..i] || x == id;
      }
      assert existing[..|existing|] == existing;
    }

    /** Gives new items their ids and writes a row for each item. */
    method UpsertItems(tx: Tables, order: ServiceOrder, orderId: string, ids: seq<string>)
      returns (tx': Tables, err: Option<Error>)
      requires order.Valid() && |ids| >= |order.items| && forall i | 0 <= i < |ids| :: IsUuid(ids[i])
      modifies order.items
      ensures match Upserted(tx.items, Identified(old(Views(order.items)), ids), orderId)
              case Err(e) => err == Some(e)
              case Ok(rows) =>
                && err.None? && tx' == tx.(items := rows)
                && Views(order.items) == Identified(old(Views(order.items)), ids)
    {
      hide Upserted, FromDomainItem, Identified, IsUuid, KnownIds;
      ghost var views := Views(order.items);
      ghost var list := Identified(views, ids);
      IdentifiedKeepsKnownIds(views, ids);
      tx' := tx;
      var next := 0;
      assert views[0..] == views && ids[0..] == ids && list[0..] == list;
      for i := 0 to |order.items|
        invariant next <= i
        invariant list[i..] == Identified(views[i..], ids[next..])
        invariant forall k | 0 <= k < i :: order.items[k].View() == list[k]
        invariant forall k | i <= k < |order.items| :: order.items[k].View() == views[k]
        invariant tx'.orders == tx.orders
        invariant Upserted(tx.items, list, orderId) == Upserted(tx'.items, list[i..], orderId)
      {
        var item := order.items[i];
        IdentifiedStep(views[i..], ids[next..]);
        UpsertedStep(tx'.items, list[i..], orderId);
        assert list[i..][0] == list[i] && list[i..][1..] == list[i + 1..] && views[i..][1..] == views[i + 1..];
        var row := FromDomainItem(item.View(), orderId);
        if item.id == "" {
          assert ids[next..][0] == ids[next] && ids[next..][1..] == ids[next + 1..];
          NewIdIsFine(views[i], ids[next], orderId);
        }
        if row.Err? {
          return tx', Some(row.error);
        }
        if item.id == "" {
          var ignored := item.SetId(ids[next]);
          next := next + 1;
        }
        tx' := tx'.(items := tx'.items[item.id := row.value]);
      }
      UpsertedStep(tx'.items, list[|order.items|..], orderId);
      assert Views(order.items) == list;
      err := None;
    }

    /** Saves an order with its items in one transaction: it commits as a whole, or leaves the tables alone. `ok` says
        whether the database accepts it. */
    method SaveWithItems(order: ServiceOrder, newId: string, ids: seq<string>, now: Time, ok: bool)
      returns (err: Option<Error>)
      requires order.Valid() && IsUuid(newId)
      requires |ids| >= |order.items| && forall i | 0 <= i < |ids| :: IsUuid(ids[i])
      modifies this, order`id, order.items
      ensures err.Some? ==> tables == old(tables)
      ensures match Saved(old(tables), old(order.View()), newId, ids, now)
              case Err(e) => err == Some(e)
              case Ok(after) =>
                if !ok then err == Some(WriteFailed)
                else
                  && err.None? && tables == after
                  && var own := Owned(old(order.View()), newId);
                     order.View() == own.(items := Identified(own.items, ids))
    {
      hide FromDomain, FromDomainItem, Upserted, Identified, SoftDeleted;
      ghost var before := order.View();
      var row := FromDomain(order.View());
      if row.Err? {
        return Some(row.error);
      }
      TakeId(order, newId);
      ghost var own := order.View();
      var tx := tables.(orders := tables.orders[order.id := row.value]);
      var keep := CurrentIds(order);
      tx := DeleteMissing(tx, order.id, keep, now);
      tx, err := UpsertItems(tx, order, order.id, ids);
      if err.Some? {
        return;
      }
      if !ok {
        return Some(WriteFailed);
      }
      assert order.View() == own.(items := Views(order.items));
      tables := tx;
    }

    /** A new order gets its id, and so do its items. */
    method TakeId(order: ServiceOrder, newId: string)
      requires order.Valid() && newId != ""
      modifies order`id, order.items
      ensures order.View() == Owned(old(order.View()), newId)
    {
      if order.id == "" {
        ghost var views := Views(order.items);
        var ignored := order.SetId(newId);
        for i := 0 to |order.items|
          invariant order.id == newId
          invariant forall k | 0 <= k < i :: order.items[k].View() == views[k].(orderId := newId)
          invariant forall k | i <= k < |order.items| :: order.items[k].View() == views[k]
        {
          ignored := order.items[i].SetServiceOrderId(newId);
        }
        assert Views(order.items) == OfOrder(views, newId);
      }
    }

    method CurrentIds(order: ServiceOrder) returns (ids: set<string>)
      ensures ids == KnownIds(order.View().items)
    {
      ghost var views := Views(order.items);
      ids := {};
      for i := 0 to |order.items|
        invariant forall id | id in ids :: exists k | 0 <= k < i :: views[k].id == id != ""
        invariant forall k | 0 <= k < i && views[k].id != "" :: views[k].id in ids
      {
        if order.items[i].id != "" {
          ids := ids + {order.items[i].id};
        }
      }
    }

    /** Loads an order with its live items. */
    method FindByIdWithItems(id: string) returns (order: ServiceOrder?, err: Option<Error>)
      ensures err.None? <==> order != null
      ensures order != null ==> fresh(order) && order.Valid() && Holds(tables, id, order.View())
      ensures err == Some(MalformedId) <==> !IsUuid(id)
      ensures err == Some(ServiceOrderNotFound)
        <==> IsUuid(id) && (id !in tables.orders || tables.orders[id].deletedAt.Some?)
      // whatever can be given back is
      ensures IsUuid(id) && (exists o :: Holds(tables, id, o)) ==> err.None?
    {
      hide Parse, Name;
      order := null;
      if !IsUuid(id) {
        return null, Some(MalformedId);
      }
      if id !in tables.orders || tables.orders[id].deletedAt.Some? {
        return null, Some(ServiceOrderNotFound);
      }
      var row := tables.orders[id];
      ParsedNames(row.status);
      UnreadStatus(row.status);
      UnreadStatus(OrElse(row.target, Some("")).value);
      var fields := ToDomain(id, row);
      if fields.Err? {
        err := Some(fields.error);
        return;
      }
      var items;
      items, err := LoadItems(id);
      if err.Some? {
        return;
      }
      order, err := ServiceOrder.Reconstruct(fields.value.(items := items), row.status, row.sagaStatus);
    }

    /** The live items of an order. */
    method LoadItems(id: string) returns (items: seq<Item>, err: Option<Error>)
      ensures err.None? ==>
        && IdsApart(items) && (forall i | 0 <= i < |items| :: IsRowOf(tables, id, items[i]))
        && (forall r | r in tables.items && IsLive(tables.items[r], id) :: exists i | 0 <= i < |items| ::
          items[i].id == r)
      ensures err.Some? ==>
        && err == Some(InvalidItemType)
        && exists r | r in tables.items && IsLive(tables.items[r], id) :: ToDomainItem(r, tables.items[r]).Err?
    {
      items := [];
      var left := tables.items.Keys;
      while left != {}
        invariant left <= tables.items.Keys && IdsApart(items)
        invariant forall i | 0 <= i < |items| :: IsRowOf(tables, id, items[i]) && items[i].id !in left
        invariant forall r | r in tables.items && r !in left && IsLive(tables.items[r], id) ::
          exists i | 0 <= i < |items| :: items[i].id == r
        decreases left
      {
        var r :| r in left;
        left := left - {r};
        if IsLive(tables.items[r], id) {
          var item := ToDomainItem(r, tables.items[r]);
          if item.Err? {
            return items, Some(item.error);
          }
          ghost var before := items;
          items := items + [item.value];
          assert items[|before|].id == r && forall i | 0 <= i < |before| :: items[i] == before[i];
        }
      }
      err := None;
    }
  }

  lemma IdentifiedStep(items: seq<Item>, ids: seq<string>)
    requires items != []
    ensures Identified(items, ids) ==
      if items[0].id == "" && ids != [] then [items[0].(id := ids[0])] + Identified(items[1..], ids[1..])
      else [items[0]] + Identified(items[1..], ids)
  {
  }

  lemma UpsertedStep(rows: map<string, ItemRow>, items: seq<Item>, orderId: string)
    ensures Upserted(rows, items, orderId) ==
      if items == [] then Ok(rows)
      else match FromDomainItem(items[0], orderId)
        case Err(e) => Err(e)
        case Ok(row) => Upserted(rows[items[0].id := row], items[1..], orderId)
  {
  }

  /** The row of an item does not depend on when it gets its id. */
  lemma NewIdIsFine(item: Item, id: string, orderId: string)
    requires item.id == "" && IsUuid(id)
    ensures FromDomainItem(item.(id := id), orderId) == FromDomainItem(item, orderId)
  {
  }
}
