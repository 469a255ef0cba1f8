/** The service order and its items as the mutable objects that the handlers work on in memory. */
module ServiceOrders {
  import opened Prelude
  import opened OrderStatus
  import opened Items
  import opened Signatures
  import opened Orders

  class ServiceOrderItem {
    var id: string
    var orderId: string
    var historyId: Option<string>
    var itemType: ItemType
    var reference: string
    var name: string
    var quantity: int
    var unitPrice: int
    var deletedAt: Option<Time>

    function View(): Item
      reads this
    {
      Item(id, orderId, historyId, itemType, reference, name, quantity, unitPrice, deletedAt)
    }

    constructor (item: Item)
      ensures View() == item
    {
      id, orderId, historyId := item.id, item.orderId, item.historyId;
      itemType, reference, name := item.itemType, item.reference, item.name;
      quantity, unitPrice, deletedAt := item.quantity, item.unitPrice, item.deletedAt;
    }

    predicate IsDeleted()
      reads this
    {
      deletedAt.Some?
    }

    method UpdateQuantity(q: int) returns (err: Option<Error>)
      modifies this`quantity
      ensures err == if q <= 0 then Some(InvalidQuantity) else None
      ensures View() == if q <= 0 then old(View()) else old(View()).(quantity := q)
    {
      if q <= 0 {
        return Some(InvalidQuantity);
      }
      quantity := q;
      err := None;
    }

    method MarkAsDeleted(now: Time)
      modifies this`deletedAt
      ensures View() == old(View()).(deletedAt := Some(now))
    {
      deletedAt := Some(now);
    }

    method SetId(id: string) returns (err: Option<Error>)
      modifies this`id
      ensures err == if id == "" then Some(InvalidItemId) else None
      ensures View() == if id == "" then old(View()) else old(View()).(id := id)
    {
      if id == "" {
        return Some(InvalidItemId);
      }
      this.id := id;
      err := None;
    }

    method SetServiceOrderId(orderId: string) returns (err: Option<Error>)
      modifies this`orderId
      ensures err == if orderId == "" then Some(InvalidServiceOrderId) else None
      ensures View() == if orderId == "" then old(View()) else old(View()).(orderId := orderId)
    {
      if orderId == "" {
        return Some(InvalidServiceOrderId);
      }
      this.orderId := orderId;
      err := None;
    }

    method SetHistoryId(history: string) returns (err: Option<Error>)
      modifies this`historyId
      ensures err == if history == "" then Some(InvalidHistoryId) else None
      ensures View() == if history == "" then old(View()) else old(View()).(historyId := Some(history))
    {
      if history == "" {
        return Some(InvalidHistoryId);
      }
      historyId := Some(history);
      err := None;
    }
  }

  function Views(items: seq<ServiceOrderItem>): (vs: seq<Item>)
    reads items
    ensures |vs| == |items|
    ensures forall i | 0 <= i < |items| :: vs[i] == items[i].View()
  {
    seq(|items|, i requires 0 <= i < |items| reads items => items[i].View())
  }

  lemma {:induction false} ViewsConcat(a: seq<ServiceOrderItem>, b: seq<ServiceOrderItem>)
    ensures Views(a + b) == Views(a) + Views(b)
  {
  }

  /** The items of an order are distinct objects. */
  ghost predicate Distinct(items: seq<ServiceOrderItem>) {
    forall i, j | 0 <= i < j < |items| :: items[i] != items[j]
  }

  /** Where an added item goes. */
  lemma {:induction false} AddOneAt(items: seq<Item>, item: Item, i: nat)
    requires i <= |items| && forall j | 0 <= j < i :: items[j].Deleted() || items[j].Key() != item.Key()
    ensures i == |items| ==> AddOne(items, item) == Ok(items + [item])
    ensures i < |items| && !items[i].Deleted() && items[i].Key() == item.Key() ==>
      var q := items[i].quantity + item.quantity;
      AddOne(items, item) == if q <= 0 then Err(InvalidQuantity) else Ok(items[i := items[i].(quantity := q)])
  {
    if i > 0 {
      assert forall j | 0 <= j < i - 1 :: items[1..][j] == items[j + 1];
      AddOneAt(items[1..], item, i - 1);
      if i < |items| && !items[i].Deleted() && items[i].Key() == item.Key() {
        assert items[1..][i - 1] == items[i];
        var q := items[i].quantity + item.quantity;
        assert [items[0]] + items[1..][i - 1 := items[i].(quantity := q)] == items[i := items[i].(quantity := q)];
      } else if i == |items| {
        assert [items[0]] + (items[1..] + [item]) == items + [item];
      }
    } else if items != [] {
      var q := items[0].quantity + item.quantity;
      assert [items[0].(quantity := q)] + items[1..] == items[0 := items[0].(quantity := q)];
    } else {
      assert items + [item] == [item];
    }
  }

  lemma AddItemAt(o: Order, item: Item, i: nat)
    requires !o.IsClosed() && o.CanModifyItems()
    requires i <= |o.items| && forall j | 0 <= j < i :: o.items[j].Deleted() || o.items[j].Key() != item.Key()
    ensures i == |o.items| ==> o.AddItem(item) == Ok(o.(items := o.items + [item]))
    ensures i < |o.items| && !o.items[i].Deleted() && o.items[i].Key() == item.Key() ==>
      var q := o.items[i].quantity + item.quantity;
      o.AddItem(item) == if q <= 0 then Err(InvalidQuantity)
        else Ok(o.(items := o.items[i := o.items[i].(quantity := q)]))
  {
    AddOneAt(o.items, item, i);
  }

  lemma ViewsAfterChange(items: seq<ServiceOrderItem>, before: seq<Item>, i: nat, item: Item)
    requires i < |items| && |before| == |items|
    requires items[i].View() == item && forall j | 0 <= j < |items| && j != i :: items[j].View() == before[j]
    ensures Views(items) == before[i := item]
  {
  }

  method RebuildItems(items: seq<Item>) returns (objects: seq<ServiceOrderItem>)
    ensures fresh(objects) && Distinct(objects) && Views(objects) == items
  {
    objects := [];
    for i := 0 to |items|
      invariant |objects| == i && fresh(objects) && Distinct(objects)
      invariant forall j | 0 <= j < i :: objects[j].View() == items[j]
    {
      var item := new ServiceOrderItem(items[i]);
      objects := objects + [item];
    }
  }

  class ServiceOrder {
    var id: string
    var customerId: string
    var vehicleId: string
    var description: string
    var status: Status
    var sagaStatus: SagaStatus
    var sagaId: Option<string>
    var target: Option<Status>
    var notes: Option<string>
    var preferenceId: Option<string>
    var paymentId: Option<string>
    var paymentUrl: Option<string>
    var items: seq<ServiceOrderItem>
    var closedAt: Option<Time>
    var deletedAt: Option<Time>

    function View(): Order
      reads this, items
    {
      Order(id, customerId, vehicleId, description, status, sagaStatus, sagaId, target, notes,
            preferenceId, paymentId, paymentUrl, Views(items), closedAt, deletedAt)
    }

    ghost predicate Valid()
      reads this
    {
      Distinct(items)
    }

    predicate IsClosed()
      reads this
    {
      status == Paid || status == Delivered || status == Canceled || status == AuthorizationDenied
    }

    predicate CanModifyItems()
      reads this
    {
      status == Received || status == Diagnosing
    }

    /** The outcome of a mutator: the computed order, or the error with the order as it was. */
    ghost predicate Became(r: Result<Order>, before: Order, err: Option<Error>)
      reads this, items
    {
      match r
      case Ok(o) => err == None && View() == o
      case Err(e) => err == Some(e) && View() == before
    }

    /** Rebuilds an order from its record, with new item objects. */
    constructor (o: Order)
      ensures View() == o && Valid()
      ensures fresh(items)
    {
      id, customerId, vehicleId, description := o.id, o.customerId, o.vehicleId, o.description;
      status, sagaStatus, sagaId, target, notes := o.status, o.sagaStatus, o.sagaId, o.target, o.notes;
      preferenceId, paymentId, paymentUrl := o.preferenceId, o.paymentId, o.paymentUrl;
      closedAt, deletedAt := o.closedAt, o.deletedAt;
      items := [];
      new;
      items := RebuildItems(o.items);
    }

    /** Rebuilds an order from its record, if that has the identities an order needs and names a status. The record has
        the two statuses as texts, the one of the saga possibly empty; `o` has everything else. */
    static method Reconstruct(o: Order, status: string, saga: Option<SagaStatus>)
      returns (order: ServiceOrder?, err: Option<Error>)
      ensures err == if o.id == "" then Some(InvalidServiceOrderId)
        else if o.customerId == "" then Some(InvalidCustomerId)
        else if o.vehicleId == "" then Some(InvalidVehicleId)
        else if forall s :: status != Name(s) then Some(InvalidStatus)
        else None
      ensures order != null <==> err.None?
      ensures order != null ==>
        && fresh(order) && fresh(order.items) && order.Valid()
        && status == Name(order.status)
        && order.sagaStatus == (if saga.None? then SagaIdle else saga.value)
        && order.View() == o.(status := order.status, sagaStatus := order.sagaStatus)
    {
      order := null;
      if o.id == "" {
        err := Some(InvalidServiceOrderId);
        return;
      }
      if o.customerId == "" {
        err := Some(InvalidCustomerId);
        return;
      }
      if o.vehicleId == "" {
        err := Some(InvalidVehicleId);
        return;
      }
      var parsed := Parse(status);
      ParsedNames(status);
      if parsed.Err? {
        err := Some(InvalidStatus);
        return;
      }
      order := new ServiceOrder(o.(status := parsed.value, sagaStatus := SagaStatusOf(saga)));
      err := None;
    }

    method SetId(id: string) returns (err: Option<Error>)
      modifies this`id
      ensures err == if id == "" then Some(InvalidServiceOrderId) else None
      ensures View() == if id == "" then old(View()) else old(View()).(id := id)
    {
      hide Views;
      if id == "" {
        return Some(InvalidServiceOrderId);
      }
      this.id := id;
      assert Views(items) == old(Views(items));
      err := None;
    }

    method UpdateStatus(to: Status, now: Time) returns (err: Option<Error>)
      modifies this`status, this`closedAt
      ensures Became(old(View()).UpdateStatus(to, now), old(View()), err)
    {
      hide Views;
      if !CanTransitionTo(status, to) {
        return Some(InvalidStatusTransition);
      }
      status := to;
      if (to == Completed || to == Paid || to == Delivered || to == Canceled || to == AuthorizationDenied)
        && closedAt.None? {
        closedAt := Some(now);
      }
      assert Views(items) == old(Views(items));
      err := None;
    }

    method StartSaga(saga: string, to: Status, notes: Option<string>) returns (err: Option<Error>)
      modifies this`sagaStatus, this`sagaId, this`target, this`notes
      ensures Became(old(View()).StartSaga(saga, to, notes), old(View()), err)
    {
      hide Views;
      if saga == "" {
        return Some(InvalidSagaId);
      }
      this.sagaStatus := SagaAwaitingInventory;
      this.sagaId := Some(saga);
      this.target := Some(to);
      this.notes := notes;
      assert Views(items) == old(Views(items));
      err := None;
    }

    method CompleteSaga()
      modifies this`sagaStatus, this`sagaId, this`target, this`notes
      ensures View() == old(View()).CompleteSaga()
    {
      hide Views;
      sagaStatus := SagaIdle;
      sagaId := None;
      target := None;
      notes := None;
      assert Views(items) == old(Views(items));
    }

    method FailSaga()
      modifies this`sagaStatus, this`sagaId, this`target, this`notes
      ensures View() == old(View()).FailSaga()
    {
      hide Views;
      sagaStatus := SagaFailed;
      sagaId := None;
      target := None;
      notes := None;
      assert Views(items) == old(Views(items));
    }

    method AwaitPayment(preference: string, url: string, now: Time) returns (err: Option<Error>)
      modifies this`status, this`closedAt, this`preferenceId, this`paymentUrl, this`sagaStatus, this`sagaId,
        this`target, this`notes
      ensures Became(old(View()).AwaitPayment(preference, url, now), old(View()), err)
    {
      hide Views;
      if preference == "" {
        return Some(InvalidPaymentPreference);
      }
      if url == "" {
        return Some(InvalidPaymentUrl);
      }
      err := UpdateStatus(AwaitingPayment, now);
      if err.Some? {
        return;
      }
      RecordPayment(preference, url);
    }

    method RecordPayment(preference: string, url: string)
      modifies this`preferenceId, this`paymentUrl, this`sagaStatus, this`sagaId, this`target, this`notes
      ensures View() == old(View()).(preferenceId := Some(preference),
        paymentUrl := Some(url)).WithoutSaga(SagaAwaitingPayment)
    {
      hide Views;
      preferenceId := Some(preference);
      paymentUrl := Some(url);
      sagaStatus := SagaAwaitingPayment;
      sagaId := None;
      target := None;
      notes := None;
      assert Views(items) == old(Views(items));
    }

    method ConfirmPayment(payment: string, now: Time) returns (err: Option<Error>)
      modifies this`status, this`closedAt, this`paymentId, this`sagaStatus, this`sagaId, this`target, this`notes
      ensures Became(old(View()).ConfirmPayment(payment, now), old(View()), err)
    {
      hide Views;
      if payment == "" {
        return Some(InvalidPaymentId);
      }
      err := UpdateStatus(Paid, now);
      if err.Some? {
        return;
      }
      paymentId := Some(payment);
      CompleteSaga();
    }

    method RejectPayment(now: Time) returns (err: Option<Error>)
      modifies this`status, this`closedAt, this`sagaStatus, this`sagaId, this`target, this`notes
      ensures Became(old(View()).RejectPayment(now), old(View()), err)
    {
      hide Views;
      err := UpdateStatus(PaymentRejected, now);
      if err.Some? {
        return;
      }
      CompleteSaga();
    }

    method CancelAfterRefund(now: Time) returns (err: Option<Error>)
      modifies this`status, this`closedAt
      ensures Became(old(View()).CancelAfterRefund(now), old(View()), err)
    {
      hide Views;
      if status != Paid {
        return Some(InvalidStatusTransition);
      }
      err := UpdateStatus(Canceled, now);
    }

    /** Adds an item: the first live item with the same type and reference, which may be the given object itself, takes
        its quantity; otherwise the object becomes the last item. Only then, and only if it was one of the order's
        objects already, are these no longer distinct. */
    method AddItem(item: ServiceOrderItem) returns (err: Option<Error>)
      requires Valid()
      modifies this`items, items
      ensures Became(old(View()).AddItem(old(item.View())), old(View()), err)
      ensures items == old(items) || items == old(items) + [item]
      ensures Valid() <==> items == old(items) || item !in old(items)
      ensures item !in old(items) ==> item.View() == old(item.View())
    {
      hide AddOne, Views;
      if IsClosed() {
        return Some(CannotModifyClosedOrder);
      }
      if !CanModifyItems() {
        return Some(CannotModifyItemsAfterPending);
      }
      var i := FindMatch(item);
      if i < |items| {
        err := MergeInto(i, item);
      } else {
        Append(item);
        err := None;
      }
    }

    method MergeInto(i: nat, item: ServiceOrderItem) returns (err: Option<Error>)
      requires Valid() && CanModifyItems() && i < |items|
      requires forall j | 0 <= j < i :: items[j].View().Deleted() || items[j].View().Key() != item.View().Key()
      requires !items[i].View().Deleted() && items[i].View().Key() == item.View().Key()
      modifies items[i]
      ensures Became(old(View()).AddItem(old(item.View())), old(View()), err)
    {
      hide AddOne;
      ghost var before := Views(items);
      AddItemAt(View(), item.View(), i);
      err := items[i].UpdateQuantity(items[i].quantity + item.quantity);
      ViewsAfterChange(items, before, i, items[i].View());
      assert before[i := before[i]] == before;
    }

    method Append(item: ServiceOrderItem)
      requires Valid() && CanModifyItems()
      requires forall j | 0 <= j < |items| ::
        items[j].View().Deleted() || items[j].View().Key() != item.View().Key()
      modifies this`items
      ensures items == old(items) + [item] && (Valid() <==> item !in old(items))
      ensures Became(old(View()).AddItem(item.View()), old(View()), None)
    {
      hide AddOne;
      AddItemAt(View(), item.View(), |items|);
      ViewsConcat(items, [item]);
      assert Views([item]) == [item.View()];
      if item in items {
        var k :| 0 <= k < |items| && items[k] == item;
        assert (items + [item])[k] == (items + [item])[|items|];
      }
      items := items + [item];
    }

    /** The first live item with the type and reference of the given one, or the number of items. */
    method FindMatch(item: ServiceOrderItem) returns (i: nat)
      ensures i <= |items|
      ensures forall j | 0 <= j < i :: items[j].View().Deleted() || items[j].View().Key() != item.View().Key()
      ensures i < |items| ==> !items[i].View().Deleted() && items[i].View().Key() == item.View().Key()
    {
      i := 0;
      while i < |items|
        invariant i <= |items|
        invariant forall j | 0 <= j < i :: items[j].View().Deleted() || items[j].View().Key() != item.View().Key()
      {
        if !items[i].IsDeleted() && items[i].reference == item.reference && items[i].itemType == item.itemType {
          return;
        }
        i := i + 1;
      }
    }

    /** Soft-deletes the first live item with the identity. */
    method RemoveItem(itemId: string, now: Time) returns (err: Option<Error>)
      requires Valid()
      modifies items
      ensures Valid() && Became(old(View()).RemoveItem(itemId, now), old(View()), err)
    {
      if itemId == "" {
        return Some(InvalidItemId);
      }
      if IsClosed() {
        return Some(CannotModifyClosedOrder);
      }
      if !CanModifyItems() {
        return Some(CannotModifyItemsAfterPending);
      }
      ghost var before := Views(items);
      ghost var f := (item: Item) => item.(deletedAt := Some(now));
      for i := 0 to |items|
        invariant forall j | 0 <= j < i :: before[j].id != itemId || before[j].Deleted()
      {
        if items[i].id == itemId && !items[i].IsDeleted() {
          ChangeFirstAt(before, itemId, f, i);
          items[i].MarkAsDeleted(now);
          assert Views(items) == before[i := f(before[i])];
          return None;
        }
      }
      ChangeFirstAt(before, itemId, f, |before|);
      err := Some(ItemNotFound);
    }

    method UpdateItemQuantity(itemId: string, quantity: int) returns (err: Option<Error>)
      requires Valid()
      modifies items
      ensures Valid() && Became(old(View()).UpdateItemQuantity(itemId, quantity), old(View()), err)
    {
      if itemId == "" {
        return Some(InvalidItemId);
      }
      if IsClosed() {
        return Some(CannotModifyClosedOrder);
      }
      if !CanModifyItems() {
        return Some(CannotModifyItemsAfterPending);
      }
      ghost var before := Views(items);
      ghost var f := (item: Item) => item.(quantity := quantity);
      for i := 0 to |items|
        invariant forall j | 0 <= j < i :: before[j].id != itemId || before[j].Deleted()
      {
        if items[i].id == itemId && !items[i].IsDeleted() {
          ChangeFirstAt(before, itemId, f, i);
          err := items[i].UpdateQuantity(quantity);
          if quantity > 0 {
            assert Views(items) == before[i := f(before[i])];
          } else {
            assert Views(items) == before;
          }
          return;
        }
      }
      ChangeFirstAt(before, itemId, f, |before|);
      err := Some(ItemNotFound);
    }

    /** The lines of a stock request. */
    method InventoryItems() returns (lines: seq<Line>)
      ensures lines == View().Lines()
    {
      lines := [];
      for i := 0 to |items|
        invariant lines == ProductLines(Views(items[..i]))
      {
        assert items[..i + 1] == items[..i] + [items[i]];
        ViewsConcat(items[..i], [items[i]]);
        LinesOfLast(Views(items[..i]), items[i].View());
        assert Views([items[i]]) == [items[i].View()];
        if !items[i].IsDeleted() && items[i].itemType == Product {
          lines := lines + [Line(items[i].reference, items[i].quantity)];
        }
      }
      assert items[..|items|] == items;
    }

    method TotalAmount() returns (total: int)
      ensures total == Items.TotalAmount(View().items)
    {
      total := 0;
      for i := 0 to |items|
        invariant total == Items.TotalAmount(Views(items[..i]))
      {
        assert items[..i + 1] == items[..i] + [items[i]];
        ViewsConcat(items[..i], [items[i]]);
        assert Views([items[i]]) == [items[i].View()];
        TotalOfLast(Views(items[..i]), items[i].View());
        if !items[i].IsDeleted() {
          total := total + items[i].quantity * items[i].unitPrice;
        }
      }
      assert items[..|items|] == items;
    }

    /** A snapshot made of new objects only, so that nothing done to the order afterwards reaches it. */
    method CaptureState() returns (copy: ServiceOrder)
      ensures fresh(copy) && fresh(copy.items)
      ensures copy.Valid() && copy.View() == View()
    {
      copy := new ServiceOrder(View());
    }
  }

  lemma {:induction false} LinesOfLast(items: seq<Item>, item: Item)
    ensures ProductLines(items + [item]) == ProductLines(items) +
      (if !item.Deleted() && item.itemType == Product then [Line(item.reference, item.quantity)] else [])
  {
    if items == [] {
      assert [item][1..] == [];
    } else {
      assert (items + [item])[1..] == items[1..] + [item];
      LinesOfLast(items[1..], item);
    }
  }

  lemma {:induction false} TotalOfLast(items: seq<Item>, item: Item)
    ensures Items.TotalAmount(items + [item]) ==
      Items.TotalAmount(items) + (if item.Deleted() then 0 else item.Subtotal())
  {
    if items == [] {
      assert [item][1..] == [];
    } else {
      assert (items + [item])[1..] == items[1..] + [item];
      TotalOfLast(items[1..], item);
    }
  }

  lemma {:induction false} ActiveOfLast(items: seq<Item>, item: Item)
    ensures Active(items + [item]) == Active(items) + (if item.Deleted() then [] else [item])
  {
    if items == [] {
      assert [item][1..] == [];
    } else {
      assert (items + [item])[1..] == items[1..] + [item];
      ActiveOfLast(items[1..], item);
    }
  }

  method FilterActiveItems(items: seq<ServiceOrderItem>) returns (active: seq<ServiceOrderItem>)
    ensures Views(active) == Active(Views(items))
  {
    active := [];
    for i := 0 to |items|
      invariant Views(active) == Active(Views(items[..i]))
    {
      assert items[..i + 1] == items[..i] + [items[i]];
      ViewsConcat(items[..i], [items[i]]);
      assert Views([items[i]]) == [items[i].View()];
      ActiveOfLast(Views(items[..i]), items[i].View());
      if !items[i].IsDeleted() {
        ViewsConcat(active, [items[i]]);
        active := active + [items[i]];
      }
    }
    assert items[..|items|] == items;
  }

  /** The comparison of two item lists by signature. */
  method HasItemsChanged(oldItems: seq<ServiceOrderItem>, newItems: seq<ServiceOrderItem>) returns (changed: bool)
    ensures changed == ItemsChanged(Views(oldItems), Views(newItems))
  {
    hide Signature, Active;
    var oldActive := FilterActiveItems(oldItems);
    var newActive := FilterActiveItems(newItems);
    if |oldActive| != |newActive| {
      return true;
    }
    var signatures := SignaturesOf(oldActive);
    var known := AllKnown(newActive, signatures);
    changed := !known;
  }

  method SignaturesOf(items: seq<ServiceOrderItem>) returns (signatures: set<string>)
    ensures signatures == SignatureSet(Views(items))
  {
    ghost var xs := Views(items);
    signatures := {};
    for i := 0 to |items|
      invariant signatures == set j | 0 <= j < i :: Signature(xs[j])
    {
      signatures := signatures + {Signature(items[i].View())};
    }
  }

  method AllKnown(items: seq<ServiceOrderItem>, signatures: set<string>) returns (known: bool)
    ensures known <==> forall x | x in Views(items) :: Signature(x) in signatures
  {
    ghost var xs := Views(items);
    for i := 0 to |items|
      invariant forall j | 0 <= j < i :: Signature(xs[j]) in signatures
    {
      if Signature(items[i].View()) !in signatures {
        assert xs[i] in xs;
        return false;
      }
    }
    known := true;
  }
}
