/** The service order as a value: what its record holds and what each mutator makes of it. */
module Orders {
  import opened Prelude
  import opened OrderStatus
  import opened Items

  datatype SagaStatus = SagaIdle | SagaAwaitingInventory | SagaAwaitingPayment | SagaFailed

  /** A record without a saga status is of an idle order. */
  function SagaStatusOf(recorded: Option<SagaStatus>): SagaStatus {
    if recorded.None? then SagaIdle else recorded.value
  }

  datatype Order = Order(
    id: string,
    customerId: string,
    vehicleId: string,
    description: string,
    status: Status,
    sagaStatus: SagaStatus,
    sagaId: Option<string>,
    target: Option<Status>,
    notes: Option<string>,
    preferenceId: Option<string>,
    paymentId: Option<string>,
    paymentUrl: Option<string>,
    items: seq<Item>,
    closedAt: Option<Time>,
    deletedAt: Option<Time>)
  {
    predicate InFlight() { sagaStatus == SagaAwaitingInventory }

    /** The saga that may still take effect on this order, if any. */
    function Current(): Option<string> {
      if InFlight() then sagaId else None
    }

    predicate CanProcessSaga(saga: string) {
      InFlight() && sagaId == Some(saga)
    }

    predicate IsClosed() {
      status == Paid || status == Delivered || status == Canceled || status == AuthorizationDenied
    }

    predicate CanModifyItems() {
      status == Received || status == Diagnosing
    }

    function Lines(): seq<Line> { ProductLines(items) }

    /** How much of a product the order has, in live items. */
    function Quantity(product: string): int { QuantityOf(items, (Product, product)) }

    function UpdateStatus(to: Status, now: Time): Result<Order> {
      if !CanTransitionTo(status, to) then
        Err(InvalidStatusTransition)
      else
        Ok(this.(status := to, closedAt := if ClosesOn(to) && closedAt.None? then Some(now) else closedAt))
    }

    function StartSaga(saga: string, to: Status, notes: Option<string>): Result<Order> {
      if saga == "" then Err(InvalidSagaId)
      else Ok(this.(sagaStatus := SagaAwaitingInventory, sagaId := Some(saga), target := Some(to), notes := notes))
    }

    /** Leaves the saga fields empty under the given saga status. */
    function WithoutSaga(saga: SagaStatus): Order {
      this.(sagaStatus := saga, sagaId := None, target := None, notes := None)
    }

    function CompleteSaga(): Order { WithoutSaga(SagaIdle) }

    function FailSaga(): Order { WithoutSaga(SagaFailed) }

    function AwaitPayment(preference: string, url: string, now: Time): Result<Order> {
      if preference == "" then Err(InvalidPaymentPreference)
      else if url == "" then Err(InvalidPaymentUrl)
      else
        match UpdateStatus(AwaitingPayment, now)
        case Err(e) => Err(e)
        case Ok(o) => Ok(o.(preferenceId := Some(preference), paymentUrl := Some(url)).WithoutSaga(SagaAwaitingPayment))
    }

    function ConfirmPayment(payment: string, now: Time): Result<Order> {
      if payment == "" then Err(InvalidPaymentId)
      else
        match UpdateStatus(Paid, now)
        case Err(e) => Err(e)
        case Ok(o) => Ok(o.(paymentId := Some(payment)).WithoutSaga(SagaIdle))
    }

    function RejectPayment(now: Time): Result<Order> {
      match UpdateStatus(PaymentRejected, now)
      case Err(e) => Err(e)
      case Ok(o) => Ok(o.WithoutSaga(SagaIdle))
    }

    function CancelAfterRefund(now: Time): Result<Order> {
      if status != Paid then Err(InvalidStatusTransition) else UpdateStatus(Canceled, now)
    }

    function AddItem(item: Item): Result<Order> {
      if IsClosed() then Err(CannotModifyClosedOrder)
      else if !CanModifyItems() then Err(CannotModifyItemsAfterPending)
      else
        match AddOne(items, item)
        case Err(e) => Err(e)
        case Ok(items') => Ok(this.(items := items'))
    }

    function RemoveItem(itemId: string, now: Time): Result<Order> {
      if itemId == "" then Err(InvalidItemId)
      else if IsClosed() then Err(CannotModifyClosedOrder)
      else if !CanModifyItems() then Err(CannotModifyItemsAfterPending)
      else
        match ChangeFirst(items, itemId, (item: Item) => item.(deletedAt := Some(now)))
        case Err(e) => Err(e)
        case Ok(items') => Ok(this.(items := items'))
    }

    function UpdateItemQuantity(itemId: string, quantity: int): Result<Order> {
      if itemId == "" then Err(InvalidItemId)
      else if IsClosed() then Err(CannotModifyClosedOrder)
      else if !CanModifyItems() then Err(CannotModifyItemsAfterPending)
      else
        match ChangeFirst(items, itemId, (item: Item) => item.(quantity := quantity))
        case Err(e) => Err(e)
        case Ok(items') => if quantity <= 0 then Err(InvalidQuantity) else Ok(this.(items := items'))
    }
  }

  /** Why the items of an order may not be touched. */
  function ItemsFrozen(s: Status): Option<Error> {
    if s in {Received, Diagnosing} then None
    else if s in {Paid, Delivered, Canceled, AuthorizationDenied} then Some(CannotModifyClosedOrder)
    else Some(CannotModifyItemsAfterPending)
  }

  /** Adding a usable item: it is merged into the first live item of its type and reference or comes last, and per
      product or service the quantity grows by what it adds. */
  lemma AddItemMeaning(o: Order, item: Item, k: Key)
    requires Positive(o.items) && !item.Deleted() && item.quantity > 0
    ensures o.AddItem(item).Err? ==> ItemsFrozen(o.status) == Some(o.AddItem(item).error)
    ensures o.AddItem(item).Ok? ==>
      var items := o.AddItem(item).value.items;
      && ItemsFrozen(o.status).None? && o.AddItem(item).value == o.(items := items)
      && QuantityOf(items, k) == QuantityOf(o.items, k) + Share(item, k)
      && SameButQuantity(FirstOf(items, k),
                         OrElse(FirstOf(o.items, k), if k == item.Key() then Some(item) else None))
  {
    AddOneMeaning(o.items, item, k);
  }

  /** Removing an item: of the first live one with the identity the deletion time is set, and nothing else changes, so
      its product or service has less by its quantity, and the total by its worth. */
  lemma RemoveItemMeaning(o: Order, itemId: string, now: Time, k: Key) returns (i: nat)
    ensures o.RemoveItem(itemId, now).Ok? ==>
      var items := o.RemoveItem(itemId, now).value.items;
      && itemId != "" && ItemsFrozen(o.status).None? && LiveAt(o.items, itemId, i)
      && items == o.items[i := o.items[i].(deletedAt := Some(now))]
      && o.RemoveItem(itemId, now).value == o.(items := items)
      && QuantityOf(items, k) == QuantityOf(o.items, k) - Share(o.items[i], k)
      && TotalAmount(items) == TotalAmount(o.items) - Worth(o.items[i])
    ensures o.RemoveItem(itemId, now).Err? ==>
      var e := o.RemoveItem(itemId, now).error;
      if itemId == "" then e == InvalidItemId
      else if ItemsFrozen(o.status).Some? then e == ItemsFrozen(o.status).value
      else e == ItemNotFound && forall j :: !LiveAt(o.items, itemId, j)
  {
    i := FindLive(o.items, itemId);
    var f := (item: Item) => item.(deletedAt := Some(now));
    ChangeFirstAt(o.items, itemId, f, i);
    if i < |o.items| {
      ChangedAt(o.items, i, f(o.items[i]), k);
    }
  }

  /** Changing a quantity: the first live item with the identity gets the new one, which is positive, and nothing else
      changes, so its product or service has more by the difference, and the total by the difference's worth. */
  lemma UpdateItemQuantityMeaning(o: Order, itemId: string, quantity: int, k: Key) returns (i: nat)
    ensures o.UpdateItemQuantity(itemId, quantity).Ok? ==>
      var items := o.UpdateItemQuantity(itemId, quantity).value.items;
      && itemId != "" && quantity > 0 && ItemsFrozen(o.status).None? && LiveAt(o.items, itemId, i)
      && items == o.items[i := o.items[i].(quantity := quantity)]
      && o.UpdateItemQuantity(itemId, quantity).value == o.(items := items)
      && QuantityOf(items, k) ==
           QuantityOf(o.items, k) + (if o.items[i].Key() == k then quantity - o.items[i].quantity else 0)
      && TotalAmount(items) == TotalAmount(o.items) - Worth(o.items[i]) + quantity * o.items[i].unitPrice
    ensures o.UpdateItemQuantity(itemId, quantity).Err? ==>
      var e := o.UpdateItemQuantity(itemId, quantity).error;
      if itemId == "" then e == InvalidItemId
      else if ItemsFrozen(o.status).Some? then e == ItemsFrozen(o.status).value
      else if e == InvalidQuantity then quantity <= 0
      else e == ItemNotFound && forall j :: !LiveAt(o.items, itemId, j)
  {
    i := FindLive(o.items, itemId);
    var f := (item: Item) => item.(quantity := quantity);
    ChangeFirstAt(o.items, itemId, f, i);
    if i < |o.items| {
      ChangedAt(o.items, i, f(o.items[i]), k);
    }
  }

  /** The statuses whose arrival closes an order. */
  predicate ClosesOn(s: Status) {
    s == Completed || s == Paid || s == Delivered || s == Canceled || s == AuthorizationDenied
  }

  /** The statuses at or past completion, or ended early. */
  predicate PastInProgress(s: Status) {
    s !in {Received, Diagnosing, PendingAuthorization, Authorized, InProgress}
  }

  function NewOrder(id: string, customerId: string, vehicleId: string, description: string): Result<Order> {
    if customerId == "" then Err(InvalidCustomerId)
    else if vehicleId == "" then Err(InvalidVehicleId)
    else Ok(Order(id, customerId, vehicleId, description, Received, SagaIdle, None, None, None,
                  None, None, None, [], None, None))
  }
}
