/** Creating an order: what is stored is what every run of the saga starts from. */
module Creation {
  import opened Prelude
  import opened OrderStatus
  import opened Items
  import opened Orders
  import opened Effects
  import opened ServiceOrders
  import opened Orchestration
  import opened Replacement
  import opened UseCases
  import opened Persistence
  import opened SagaSystem

  /** A request for a new order; `lookup` is the error of the customer or vehicle lookup, or of the ownership test. */
  datatype CreateInput = CreateInput(
    customerId: string,
    vehicleId: string,
    description: string,
    items: seq<ItemInput>,
    lookup: Option<Error>)

  /** The order as built in memory, still without ids, or the first error. */
  function Built(input: CreateInput): Result<Order> {
    if input.lookup.Some? then Err(input.lookup.value)
    else
      match Items.BuildItems("", input.items)
      case Err(e) => Err(e)
      case Ok(items) =>
        match NewOrder("", input.customerId, input.vehicleId, input.description)
        case Err(e) => Err(e)
        case Ok(o) =>
          match AddAll([], items)
          case Err(e) => Err(e)
          case Ok(merged) => Ok(o.(items := merged))
  }

  /** The order under the ids that the storage gives it. */
  function CreatedOrder(o: Order, newId: string, ids: seq<string>): Order {
    Stored(Owned(o, newId), ids)
  }

  /** An order is built exactly if customer and vehicle pass their checks and every item can be built; the checks of the
      lookups come first, then those of the items, then the two ids. */
  lemma BuiltExactly(input: CreateInput)
    ensures Built(input).Ok? <==>
      input.lookup.None? && input.customerId != "" && input.vehicleId != "" && AllOrderable(input.items)
    ensures Built(input).Err? ==>
      var e := Built(input).error;
      if input.lookup.Some? then e == input.lookup.value
      else if !AllOrderable(input.items) then exists i :: FailsAt(input.items, i, e)
      else if input.customerId == "" then e == InvalidCustomerId
      else e == InvalidVehicleId
  {
    hide AddAll, Items.BuildItems;
    BuildsExactly("", input.items);
    if Items.BuildItems("", input.items).Ok? {
      BuiltItemsAreSellable("", input.items);
      AddAllMeaning([], Items.BuildItems("", input.items).value, (Product, ""));
    }
  }

  /** A created order is one that a run can start from. Per product or service it has the quantity that was asked for,
      in all, under the catalogue's name and at the price of the first that was asked for. */
  lemma CreatedMeaning(input: CreateInput, newId: string, ids: seq<string>, k: Key)
    requires Built(input).Ok?
    ensures var o := CreatedOrder(Built(input).value, newId, ids);
      && Starting(o) && o.id == newId
      && o.customerId == input.customerId && o.vehicleId == input.vehicleId && o.description == input.description
      && QuantityOf(o.items, k) == QuantityAsked(input.items, k)
      && KeptAsAsked(FirstOf(o.items, k), FirstAsked(input.items, k))
      && forall x | x in o.items :: x.orderId == newId
  {
    hide Items.BuildItems, AddAll, QuantityOf, FirstOf, QuantityAsked, FirstAsked, Identified;
    var merged := Built(input).value.items;
    MergedAsAsked(input, k);
    StoredAlike(merged, newId, ids, k);
  }

  /** The items before they are stored. */
  lemma MergedAsAsked(input: CreateInput, k: Key)
    requires Built(input).Ok?
    ensures var merged := Built(input).value.items;
      && Sound(merged) && (forall x | x in merged :: !x.Deleted())
      && QuantityOf(merged, k) == QuantityAsked(input.items, k)
      && KeptAsAsked(FirstOf(merged, k), FirstAsked(input.items, k))
  {
    hide Items.BuildItems, AddAll;
    var built := Items.BuildItems("", input.items).value;
    BuiltItemsAreSellable("", input.items);
    BuiltQuantity("", input.items, k);
    AddAllMeaning([], built, k);
    AddAllOfLive([], built);
  }

  /** Storing gives new items their identities and nothing else. */
  lemma StoredAlike(merged: seq<Item>, newId: string, ids: seq<string>, k: Key)
    requires Sound(merged) && (forall x | x in merged :: !x.Deleted())
    ensures var items := Active(Identified(OfOrder(merged, newId), ids));
      && Sound(items) && (forall x | x in items :: x.orderId == newId)
      && QuantityOf(items, k) == QuantityOf(merged, k)
      && FirstOf(items, k).Some? == FirstOf(merged, k).Some?
      && (FirstOf(items, k).Some? ==> Alike(FirstOf(items, k).value, FirstOf(merged, k).value))
  {
    hide QuantityOf, FirstOf, Identified, Active;
    var own := OfOrder(merged, newId);
    var list := Identified(own, ids);
    IdentifiedChangesIdsOnly(own, ids);
    assert forall i | 0 <= i < |merged| :: merged[i] in merged && Alike(merged[i], list[i]);
    SameContents(merged, list, k);
    assert forall i | 0 <= i < |list| :: !list[i].Deleted();
    ActiveOfUniform(list);
  }

  /** The two items differ in their identities at most. */
  predicate Alike(x: Item, y: Item) {
    x == y.(id := x.id, orderId := x.orderId)
  }

  lemma {:induction false} SameContents(a: seq<Item>, b: seq<Item>, k: Key)
    requires |a| == |b| && forall i | 0 <= i < |a| :: Alike(a[i], b[i])
    ensures QuantityOf(a, k) == QuantityOf(b, k)
    ensures FirstOf(a, k).Some? <==> FirstOf(b, k).Some?
    ensures FirstOf(a, k).Some? ==> Alike(FirstOf(a, k).value, FirstOf(b, k).value)
  {
    if a != [] {
      assert forall i | 0 <= i < |a[1..]| :: a[1..][i] == a[i + 1] && b[1..][i] == b[i + 1];
      assert Alike(a[0], b[0]);
      SameContents(a[1..], b[1..], k);
    }
  }

  /** Nothing is stored yet under the new order's id. */
  ghost predicate Unused(t: Tables, newId: string) {
    newId !in t.orders && forall r | r in t.items :: t.items[r].orderId != newId
  }

  /** Builds the order with its items and saves it. An error leaves the tables alone; otherwise they hold the
      created order, and all that they held before. */
  method Create(repository: Repository, input: CreateInput, newId: string, ids: seq<string>, now: Time, ok: bool)
    returns (order: ServiceOrder?, err: Option<Error>)
    requires IsUuid(newId) && Unused(repository.tables, newId)
    requires FreshIds(repository.tables, ids) && |ids| >= |input.items| && forall i | 0 <= i < |ids| :: IsUuid(ids[i])
    modifies repository
    ensures err.Some? ==> repository.tables == old(repository.tables)
    ensures Built(input).Err? ==> err == Some(Built(input).error)
    ensures Built(input).Ok? ==>
      err == if !UsesUuids(input) then Some(MalformedId) else if ok then None else Some(WriteFailed)
    ensures err.None? ==>
      && Built(input).Ok?
      && Holds(repository.tables, newId, CreatedOrder(Built(input).value, newId, ids))
      && (forall id | id in old(repository.tables.orders) ::
        id in repository.tables.orders && repository.tables.orders[id] == old(repository.tables.orders[id]))
      && (forall id | id in old(repository.tables.items) ::
        id in repository.tables.items && repository.tables.items[id] == old(repository.tables.items[id]))
  {
    hide Built, Views, Holds, Saved, Derived, CreatedOrder, FreshIds;
    order, err := Build(input);
    if err.Some? {
      return;
    }
    ghost var o, before := order.View(), repository.tables;
    CreationIsDerived(before, input, newId, ids);
    CreationIsStorable(before, input, newId, ids, now);
    err := repository.SaveWithItems(order, newId, ids, now, ok);
    if err.None? {
      StoredAsCreated(before, input, newId, ids, now);
    }
  }

  /** Customer, vehicle and all references are UUIDs. */
  predicate UsesUuids(input: CreateInput) {
    IsUuid(input.customerId) && IsUuid(input.vehicleId) && forall i | 0 <= i < |input.items| ::
      IsUuid(input.items[i].reference)
  }

  function References(items: seq<Item>): set<string> {
    set i | 0 <= i < |items| :: items[i].reference
  }

  lemma {:induction false} AddOneReferences(items: seq<Item>, item: Item)
    requires AddOne(items, item).Ok?
    ensures References(AddOne(items, item).value) == References(items) + {item.reference}
  {
    if items == [] {
      assert [item][0] == item;
    } else {
      ReferencesOfRest(items);
      ReferencesOfRest(AddOne(items, item).value);
      if items[0].Deleted() || items[0].Key() != item.Key() {
        AddOneReferences(items[1..], item);
        assert AddOne(items, item).value[1..] == AddOne(items[1..], item).value;
      } else {
        assert AddOne(items, item).value[1..] == items[1..] && items[0].reference == item.reference;
      }
    }
  }

  lemma ReferencesOfRest(items: seq<Item>)
    requires items != []
    ensures References(items) == {items[0].reference} + References(items[1..])
  {
    assert forall i | 0 < i < |items| :: items[1..][i - 1] == items[i];
  }

  lemma {:induction false} AddAllReferences(items: seq<Item>, adds: seq<Item>)
    requires AddAll(items, adds).Ok?
    ensures References(AddAll(items, adds).value) == References(items) + References(adds)
    decreases |adds|
  {
    if adds != [] {
      AddOneReferences(items, adds[0]);
      AddAllReferences(AddOne(items, adds[0]).value, adds[1..]);
      ReferencesOfRest(adds);
    }
  }

  /** The built order can be stored exactly when its ids are UUIDs. */
  lemma CreationIsStorable(t: Tables, input: CreateInput, newId: string, ids: seq<string>, now: Time)
    requires Built(input).Ok? && IsUuid(newId) && |ids| >= |input.items| && forall i | 0 <= i < |ids| :: IsUuid(ids[i])
    ensures Saved(t, Built(input).value, newId, ids, now).Ok? <==> UsesUuids(input)
    ensures Saved(t, Built(input).value, newId, ids, now).Err? ==>
      Saved(t, Built(input).value, newId, ids, now).error == MalformedId
  {
    hide AddAll, Items.BuildItems, Identified, Upserted, IsUuid, SoftDeleted, KnownIds, Saved;
    hide FromDomainItem;
    var o := Built(input).value;
    var own := Owned(o, newId);
    var list := Identified(own.items, ids);
    var rows := SoftDeleted(t.items, own.id, KnownIds(own.items), now);
    UpsertSucceeds(rows, list, own.id);
    ListIsStorable(input, newId, ids);
    SavedOk(t, o, newId, ids, now);
    assert own.id == newId && o.customerId == input.customerId && o.vehicleId == input.vehicleId;
  }

  lemma SavedOk(t: Tables, o: Order, newId: string, ids: seq<string>, now: Time)
    requires o.id == ""
    ensures var own := Owned(o, newId);
      var rows := Upserted(SoftDeleted(t.items, own.id, KnownIds(own.items), now), Identified(own.items, ids), own.id);
      && (Saved(t, o, newId, ids, now).Ok? <==> IsUuid(o.customerId) && IsUuid(o.vehicleId) && rows.Ok?)
      && (rows.Err? && rows.error == MalformedId && Saved(t, o, newId, ids, now).Err? ==>
            Saved(t, o, newId, ids, now).error == MalformedId)
      && (rows.Ok? && Saved(t, o, newId, ids, now).Err? ==> Saved(t, o, newId, ids, now).error == MalformedId)
  {
    hide Upserted, SoftDeleted, KnownIds, Identified, IsUuid;
  }

  lemma ListIsStorable(input: CreateInput, newId: string, ids: seq<string>)
    requires Built(input).Ok? && IsUuid(newId) && |ids| >= |input.items| && forall i | 0 <= i < |ids| :: IsUuid(ids[i])
    ensures var list := Identified(Owned(Built(input).value, newId).items, ids);
      (forall i | 0 <= i < |list| :: FromDomainItem(list[i], newId).Ok?)
      <==> (forall i | 0 <= i < |input.items| :: IsUuid(input.items[i].reference))
  {
    hide AddAll, Items.BuildItems, Identified, IsUuid, FromDomainItem;
    var built := Items.BuildItems("", input.items).value;
    var merged := Built(input).value.items;
    BuiltItemsAreSellable("", input.items);
    BuiltAsAsked("", input.items);
    AddAllOfLive([], built);
    AddAllStayNew([], built);
    AddAllReferences([], built);
    assert References(merged) == References(built);
    NewItemsAreStorable(merged, newId, ids);
    SameReferences(merged, built);
  }

  lemma SameReferences(a: seq<Item>, b: seq<Item>)
    requires References(a) == References(b)
    ensures (forall i | 0 <= i < |a| :: IsUuid(a[i].reference)) <==> (forall i | 0 <= i < |b| :: IsUuid(b[i].reference))
  {
    hide IsUuid;
    forall i | 0 <= i < |a| ensures exists k | 0 <= k < |b| :: b[k].reference == a[i].reference {
      assert a[i].reference in References(b);
    }
    forall i | 0 <= i < |b| ensures exists k | 0 <= k < |a| :: a[k].reference == b[i].reference {
      assert b[i].reference in References(a);
    }
  }

  /** New items can be stored exactly when their references are UUIDs. */
  lemma NewItemsAreStorable(items: seq<Item>, newId: string, ids: seq<string>)
    requires (forall x | x in items :: IsNew(x)) && IsUuid(newId)
    requires |ids| >= |items| && forall i | 0 <= i < |ids| :: IsUuid(ids[i])
    ensures var list := Identified(OfOrder(items, newId), ids);
      (forall i | 0 <= i < |list| :: FromDomainItem(list[i], newId).Ok?)
      <==> (forall i | 0 <= i < |items| :: IsUuid(items[i].reference))
  {
    hide Identified, IsUuid;
    var own := OfOrder(items, newId);
    IdsComeFrom(own, ids);
    IdentifiedKeepsKnownIds(own, ids);
    forall i | 0 <= i < |items|
      ensures FromDomainItem(Identified(own, ids)[i], newId).Ok? <==> IsUuid(items[i].reference)
    {
      assert IsNew(items[i]) && Identified(own, ids)[i].id in ids;
    }
  }

  /** The order with its items, in memory. */
  method Build(input: CreateInput) returns (order: ServiceOrder?, err: Option<Error>)
    ensures match Built(input)
            case Err(e) => err == Some(e)
            case Ok(o) => err.None? && order != null && order.View() == o
    ensures order != null ==> fresh(order) && fresh(order.items) && order.Valid()
  {
    hide Items.BuildItems, AddAll, Views;
    order := null;
    if input.lookup.Some? {
      err := input.lookup;
      return;
    }
    var built;
    built, err := Service.BuildItems("", input.items);
    if err.Some? {
      return;
    }
    var fields := NewOrder("", input.customerId, input.vehicleId, input.description);
    if fields.Err? {
      return null, Some(fields.error);
    }
    order := new ServiceOrder(fields.value);
    ghost var first := order.items;
    err := Service.AddItems(order, built);
    forall i | 0 <= i < |order.items| ensures fresh(order.items[i]) {
      assert order.items[i] in order.items;
      assert order.items[i] in first || order.items[i] in built;
    }
  }

  /** What the save of the built order leaves in the tables. */
  lemma StoredAsCreated(t: Tables, input: CreateInput, newId: string, ids: seq<string>, now: Time)
    requires Built(input).Ok? && Saved(t, Built(input).value, newId, ids, now).Ok?
    requires IsUuid(newId) && Unused(t, newId) && FreshIds(t, ids) && |ids| >= |input.items|
    ensures var after := Saved(t, Built(input).value, newId, ids, now).value;
      && Holds(after, newId, CreatedOrder(Built(input).value, newId, ids))
      && (forall id | id in t.orders :: id in after.orders && after.orders[id] == t.orders[id])
      && (forall id | id in t.items :: id in after.items && after.items[id] == t.items[id])
  {
    hide AddAll, Items.BuildItems, Holds, Saved, Derived, Identified;
    var o := Built(input).value;
    CreationIsDerived(t, input, newId, ids);
    SaveThenLoad(t, o, newId, ids, now);
    SaveKeeps(t, o, newId, ids, now);
  }

  lemma CreationIsDerived(t: Tables, input: CreateInput, newId: string, ids: seq<string>)
    requires Built(input).Ok? && FreshIds(t, ids) && |ids| >= |input.items|
    ensures |Built(input).value.items| <= |input.items| && Built(input).value.id == ""
      && Built(input).value.deletedAt.None?
    ensures Derived(t, newId, Identified(Owned(Built(input).value, newId).items, ids))
  {
    BuiltItemsAreSellable("", input.items);
    var built := Items.BuildItems("", input.items).value;
    AddAllOfLive([], built);
    AddAllStayNew([], built);
    var own := OfOrder(Built(input).value.items, newId);
    assert forall i | 0 <= i < |own| :: own[i].id == "" by {
      assert forall i | 0 <= i < |own| :: Built(input).value.items[i] in Built(input).value.items;
    }
    NewIdsStayApart(t, own, ids);
  }

  lemma {:induction false} AddOneStaysNew(items: seq<Item>, item: Item)
    requires AddOne(items, item).Ok? && IsNew(item) && forall x | x in items :: IsNew(x)
    ensures forall x | x in AddOne(items, item).value :: IsNew(x)
  {
    if items != [] && (items[0].Deleted() || items[0].Key() != item.Key()) {
      assert forall x | x in items[1..] :: x in items;
      AddOneStaysNew(items[1..], item);
    } else if items != [] {
      assert items[0] in items && forall x | x in items[1..] :: x in items;
    }
  }

  lemma {:induction false} AddAllStayNew(items: seq<Item>, adds: seq<Item>)
    requires AddAll(items, adds).Ok? && (forall x | x in items :: IsNew(x)) && forall x | x in adds :: IsNew(x)
    ensures forall x | x in AddAll(items, adds).value :: IsNew(x)
    decreases |adds|
  {
    if adds != [] {
      AddOneStaysNew(items, adds[0]);
      AddAllStayNew(AddOne(items, adds[0]).value, adds[1..]);
    }
  }
}
