/**
  What one call of a use case, or the handling of one message, does to one order.

  Every handler reads the order, changes the copy in memory and then writes: first the history
  entry, then the order, and a saga start publishes last. A write that fails ends the handler and
  leaves the earlier writes in place. An `Effect` says what is left behind.
*/
module Effects {
  import opened Prelude
  import opened OrderStatus
  import opened Items
  import opened Orders
  import opened Signatures

  /** Which of the writes of one call go through. */
  datatype Faults = Faults(historyOk: bool, saveOk: bool, publishOk: bool)

  /** A history record. `change` is the recorded pair of old and new status; edits record none. */
  datatype Entry = Entry(
    orderId: string,
    status: Status,
    change: Option<(Status, Status)>,
    operation: Option<Operation>,
    sagaId: Option<string>,
    reason: Option<string>,
    notes: Option<string>,
    itemsChanged: bool)

  /** A request to the stock service. */
  datatype Request = Request(sagaId: string, orderId: string, operation: Operation, lines: seq<Line>)

  /** An answer of the stock service, which echoes saga, order and operation. */
  datatype Answer =
    | Succeeded(sagaId: string, orderId: string, operation: Operation)
    | Failed(sagaId: string, orderId: string, operation: Operation, reason: string)

  /** What a call leaves behind: the stored order, the history entries written, the saga that was
      stored as started (with the request that stands for it), the requests that reached the queue,
      the payments refunded at the provider, and the error reported. */
  datatype Effect = Effect(
    order: Order,
    entries: seq<Entry>,
    begun: Option<Request>,
    published: seq<Request>,
    refunds: seq<string>,
    error: Option<Error>)

  function Refused(o: Order, e: Error): Effect {
    Effect(o, [], None, [], [], Some(e))
  }

  function Ignored(o: Order): Effect {
    Effect(o, [], None, [], [], None)
  }

  /** History first, then the order. */
  function Commit(before: Order, after: Order, entry: Entry, f: Faults): Effect {
    if !f.historyOk then Refused(before, WriteFailed)
    else if !f.saveOk then Effect(before, [entry], None, [], [], Some(WriteFailed))
    else Effect(after, [entry], None, [], [], None)
  }

  function StatusEntry(id: string, from: Status, to: Status, notes: Option<string>): Entry {
    Entry(id, to, Some((from, to)), None, None, None, NonEmpty(notes), false)
  }

  function SagaEntry(id: string, from: Status, to: Status, op: Operation, saga: string, reason: Option<string>,
                     notes: Option<string>): Entry {
    Entry(id, to, Some((from, to)), Some(op), NonEmpty(Some(saga)), NonEmpty(reason), NonEmpty(notes), false)
  }

  /** Moves the copy to its target status, when it is not there yet, and empties the saga fields. */
  function Finish(o: Order, to: Status, now: Time): Result<Order> {
    if o.status == to then Ok(o.CompleteSaga())
    else
      match o.UpdateStatus(to, now)
      case Err(e) => Err(e)
      case Ok(o') => Ok(o'.CompleteSaga())
  }

  // The saga orchestrator.

  function TransitionLocal(o: Order, to: Status, op: Operation, notes: Option<string>, now: Time, f: Faults): Effect {
    match Finish(o, to, now)
    case Err(e) => Refused(o, e)
    case Ok(o') => Commit(o, o', SagaEntry(o.id, o.status, to, op, "", None, notes), f)
  }

  function StartSaga(o: Order, op: Operation, to: Status, notes: Option<string>, saga: string, now: Time,
                     f: Faults): Effect {
    if o.deletedAt.Some? then
      Refused(o, ServiceOrderDeleted)
    else if o.InFlight() then
      Refused(o, SagaAlreadyInProgress)
    else if o.Lines() == [] then
      TransitionLocal(o, to, op, notes, now, f)
    else
      Launch(o, op, to, notes, saga, f)
  }

  /** The order is stored with the saga in flight, and then the request is published. */
  function Launch(o: Order, op: Operation, to: Status, notes: Option<string>, saga: string, f: Faults): Effect {
    match o.StartSaga(saga, to, notes)
    case Err(e) => Refused(o, e)
    case Ok(o') =>
      var request := Request(saga, o.id, op, o.Lines());
      if !f.saveOk then Refused(o, WriteFailed)
      else if !f.publishOk then Effect(o', [], Some(request), [], [], Some(WriteFailed))
      else Effect(o', [], Some(request), [request], [], None)
  }

  function CancelOrder(o: Order, notes: Option<string>, saga: string, now: Time, f: Faults): Effect {
    if o.deletedAt.Some? then
      Refused(o, ServiceOrderDeleted)
    else if o.InFlight() then
      Refused(o, SagaAlreadyInProgress)
    else
      match o.status
      case Received | Diagnosing => TransitionLocal(o, Canceled, OpNone, notes, now, f)
      case PendingAuthorization | Authorized | InProgress =>
        StartSaga(o, CancelReserved, Canceled, notes, saga, now, f)
      case Completed | AwaitingPayment | PaymentRejected | Paid =>
        StartSaga(o, CancelConfirmed, Canceled, notes, saga, now, f)
      case _ => Refused(o, InvalidStatusTransition)
  }

  function TargetForSuccess(o: Order, op: Operation): Result<Status> {
    if o.target.Some? then Ok(o.target.value)
    else
      match op
      case Reserve => Ok(PendingAuthorization)
      case ReservedDecrease => Ok(Completed)
      case CancelReserved | CancelConfirmed => Ok(Canceled)
      case OpNone => Err(UnsupportedOperation)
  }

  function HandleSucceeded(o: Order, saga: string, op: Operation, now: Time, f: Faults): Effect {
    if !o.CanProcessSaga(saga) then Ignored(o)
    else
      match TargetForSuccess(o, op)
      case Err(e) => Refused(o, e)
      case Ok(to) =>
        match Finish(o, to, now)
        case Err(e) => Refused(o, e)
        case Ok(o') => Commit(o, o', SagaEntry(o.id, o.status, to, op, saga, None, o.notes), f)
  }

  function HandleFailed(o: Order, saga: string, op: Operation, reason: string, f: Faults): Effect {
    if !o.CanProcessSaga(saga) then Ignored(o)
    else Commit(o, o.FailSaga(), SagaEntry(o.id, o.status, o.status, op, saga, Some(reason), None), f)
  }

  /** The queue consumer: an answer is looked at and then handed to the matching handler. */
  function Consume(o: Order, answer: Answer, now: Time, f: Faults): Effect {
    match answer
    case Succeeded(saga, _, op) => HandleSucceeded(o, saga, op, now, f)
    case Failed(saga, _, op, reason) =>
      if reason == "" then Refused(o, MalformedMessage) else HandleFailed(o, saga, op, reason, f)
  }

  function InferOperation(o: Order): Result<Operation> {
    match o.target
    case None => Err(UnsupportedOperation)
    case Some(PendingAuthorization) => Ok(Reserve)
    case Some(Completed) => Ok(ReservedDecrease)
    case Some(AuthorizationDenied) => Ok(CancelReserved)
    case Some(Canceled) => Ok(if o.status == Completed || o.status == Paid then CancelConfirmed else CancelReserved)
    case Some(_) => Err(UnsupportedOperation)
  }

  /** Recovery of one order that waits for the stock service: the request is published again. */
  function Recover(o: Order, f: Faults): Effect {
    if !o.InFlight() || o.sagaId.None? then Ignored(o)
    else
      match InferOperation(o)
      case Err(e) => Refused(o, e)
      case Ok(op) =>
        if !f.publishOk then Refused(o, WriteFailed)
        else Effect(o, [], None, [Request(o.sagaId.value, o.id, op, o.Lines())], [], None)
  }

  // The use cases.

  /** An order created at the payment provider. */
  datatype PaymentOrder = PaymentOrder(id: string, url: string)

  function StartPayment(o: Order, provider: Option<PaymentOrder>, now: Time, f: Faults): Effect {
    match provider
    case None => Refused(o, ProviderFailed)
    case Some(p) =>
      match o.AwaitPayment(p.id, p.url, now)
      case Err(e) => Refused(o, e)
      case Ok(o') => Commit(o, o', StatusEntry(o.id, o.status, o'.status, None), f)
  }

  function Advance(o: Order, saga: string, provider: Option<PaymentOrder>, now: Time, f: Faults): Effect {
    if o.deletedAt.Some? then Refused(o, ServiceOrderDeleted)
    else
      match NextStatus(o.status)
      case Err(e) => Refused(o, e)
      case Ok(next) =>
        var op := DetermineInventoryOperation(o.status, next);
        if op != OpNone then
          StartSaga(o, op, next, None, saga, now, f)
        else if o.status == Completed && next == AwaitingPayment then
          StartPayment(o, provider, now, f)
        else
          match o.UpdateStatus(next, now)
          case Err(e) => Refused(o, e)
          case Ok(o') => Commit(o, o', StatusEntry(o.id, o.status, next, None), f)
  }

  /** Who asks, and whether as a customer: customers may answer only for their own orders. */
  datatype Caller = Staff | Customer(id: string)

  function Respond(o: Order, caller: Caller, approved: bool, observation: Option<string>, saga: string, now: Time,
                   f: Faults): Effect {
    if caller.Customer? && caller.id != o.customerId then Refused(o, ForbiddenAccess)
    else if o.deletedAt.Some? then Refused(o, ServiceOrderDeleted)
    else if o.status != PendingAuthorization then Refused(o, InvalidStatusTransition)
    else
      var to := if approved then Authorized else AuthorizationDenied;
      var op := DetermineInventoryOperation(o.status, to);
      if op != OpNone then
        StartSaga(o, op, to, observation, saga, now, f)
      else
        match o.UpdateStatus(to, now)
        case Err(e) => Refused(o, e)
        case Ok(o') => Commit(o, o', StatusEntry(o.id, o.status, to, observation), f)
  }

  /** Deletion cancels the order. A paid order is refunded first, and a failed refund stops it;
      a failed cancellation of an unpaid provider order does not. */
  function Delete(o: Order, notes: Option<string>, saga: string, refundOk: bool, now: Time, f: Faults): Effect {
    if o.deletedAt.Some? then
      Refused(o, ServiceOrderNotFound)
    else if o.status == Paid && o.paymentId.Some? && o.paymentId.value != "" then
      if !refundOk then Refused(o, ProviderFailed)
      else CancelOrder(o, notes, saga, now, f).(refunds := [o.paymentId.value])
    else
      CancelOrder(o, notes, saga, now, f)
  }

  /** The provider order that deletion asks the provider to cancel, if any. */
  function CancelledAtProvider(o: Order): seq<string> {
    if o.deletedAt.None? && o.status in {AwaitingPayment, PaymentRejected} && o.preferenceId.Some?
      && o.preferenceId.value != ""
    then [o.preferenceId.value] else []
  }

  predicate OpenForCustomerDeletion(s: Status) {
    s in {Received, Diagnosing, PendingAuthorization, Authorized, InProgress}
  }

  /** What the deletion of its customer does to one order: open orders without a saga in flight are deleted. */
  function CustomerDeleted(o: Order, notes: Option<string>, saga: string, refundOk: bool, now: Time,
                           f: Faults): Effect {
    if o.InFlight() || !OpenForCustomerDeletion(o.status) then Ignored(o)
    else Delete(o, notes, saga, refundOk, now, f)
  }

  /** The payment statuses the provider reports. */
  datatype PaymentStatus = Approved | Rejected | Cancelled | Refunded | Undecided

  function Webhook(o: Order, payment: string, reported: PaymentStatus, now: Time, f: Faults): Effect {
    match reported
    case Approved =>
      if o.status != AwaitingPayment then Ignored(o)
      else
        (match o.ConfirmPayment(payment, now)
         case Err(e) => Refused(o, e)
         case Ok(o') => Commit(o, o', StatusEntry(o.id, o.status, o'.status, None), f))
    case Rejected | Cancelled =>
      if o.status != AwaitingPayment then Ignored(o)
      else
        (match o.RejectPayment(now)
         case Err(e) => Refused(o, e)
         case Ok(o') => Commit(o, o', StatusEntry(o.id, o.status, o'.status, None), f))
    case Refunded =>
      if o.status != Paid then Ignored(o)
      else
        (match o.CancelAfterRefund(now)
         case Err(e) => Refused(o, e)
         case Ok(o') => Commit(o, o', StatusEntry(o.id, o.status, o'.status, None), f))
    case Undecided => Ignored(o)
  }

  function RetryPayment(o: Order, provider: Option<PaymentOrder>, now: Time, f: Faults): Effect {
    if o.status != PaymentRejected then Refused(o, InvalidStatusTransition)
    else StartPayment(o, provider, now, f)
  }

  /** An edit: new customer, vehicle, description and item list, each optional; `lookup` is the error of
      the first customer or vehicle lookup (or ownership test) that does not pass. */
  datatype Edit = Edit(
    customerId: Option<string>,
    vehicleId: Option<string>,
    description: Option<string>,
    items: Option<seq<ItemInput>>,
    lookup: Option<Error>)

  /** The identities given to items on their first save, taken in order from `ids`. */
  function Identified(items: seq<Item>, ids: seq<string>): seq<Item> {
    if items == [] then []
    else if items[0].id == "" && ids != [] then [items[0].(id := ids[0])] + Identified(items[1..], ids[1..])
    else [items[0]] + Identified(items[1..], ids)
  }

  lemma {:induction false} IdentifiedKeepsLines(items: seq<Item>, ids: seq<string>)
    ensures ProductLines(Identified(items, ids)) == ProductLines(items)
  {
    if items != [] {
      if items[0].id == "" && ids != [] {
        IdentifiedKeepsLines(items[1..], ids[1..]);
      } else {
        IdentifiedKeepsLines(items[1..], ids);
      }
    }
  }

  lemma {:induction false} IdentifiedChangesIdsOnly(items: seq<Item>, ids: seq<string>)
    ensures |Identified(items, ids)| == |items|
    ensures forall i | 0 <= i < |items| :: Identified(items, ids)[i] == items[i].(id := Identified(items, ids)[i].id)
  {
    if items != [] {
      if items[0].id == "" && ids != [] {
        IdentifiedChangesIdsOnly(items[1..], ids[1..]);
      } else {
        IdentifiedChangesIdsOnly(items[1..], ids);
      }
    }
  }

  lemma IdentifiedStaysSound(items: seq<Item>, ids: seq<string>)
    requires Sound(items)
    ensures Sound(Identified(items, ids))
  {
    IdentifiedChangesIdsOnly(items, ids);
  }

  /** The order fields an edit rewrites. */
  function EditFields(o: Order, edit: Edit): Result<Order> {
    if edit.lookup.Some? then Err(edit.lookup.value)
    else if edit.customerId == Some("") then Err(InvalidCustomerId)
    else if edit.vehicleId == Some("") then Err(InvalidVehicleId)
    else Ok(o.(customerId := if edit.customerId.Some? then edit.customerId.value else o.customerId,
               vehicleId := if edit.vehicleId.Some? then edit.vehicleId.value else o.vehicleId,
               description := if edit.description.Some? then edit.description.value else o.description))
  }

  /** The live items after an edit: a new list replaces the old one as a whole. */
  function EditItems(o: Order, edit: Edit): Result<seq<Item>> {
    match edit.items
    case None => Ok(o.items)
    case Some(inputs) =>
      if !o.CanModifyItems() then Err(CannotModifyItemsAfterPending)
      else
        match BuildItems(o.id, inputs)
        case Err(e) => Err(e)
        case Ok(built) => AddAll([], built)
  }

  function EditEntry(o: Order, edit: Edit, items: seq<Item>): Entry {
    Entry(o.id, o.status, None, None, None, None, None, edit.items.Some? && ItemsChanged(o.items, items))
  }

  /** The order an edit leads to, or the first error. `ids` are the identities the storage gives to new items. */
  function Edited(o: Order, edit: Edit, ids: seq<string>): Result<Order> {
    match EditFields(o, edit)
    case Err(e) => Err(e)
    case Ok(fields) =>
      match EditItems(o, edit)
      case Err(e) => Err(e)
      case Ok(items) => Ok(fields.(items := Identified(items, ids)))
  }

  function UpdateOrder(o: Order, edit: Edit, ids: seq<string>, f: Faults): Effect {
    if o.deletedAt.Some? then Refused(o, ServiceOrderDeleted)
    else
      match Edited(o, edit, ids)
      case Err(e) => Refused(o, e)
      case Ok(o') => Commit(o, o', EditEntry(o, edit, EditItems(o, edit).value), f)
  }

  lemma EditsStaySound(o: Order, edit: Edit, ids: seq<string>)
    requires Sound(o.items) && Edited(o, edit, ids).Ok?
    ensures Sound(EditItems(o, edit).value) && Sound(Edited(o, edit, ids).value.items)
  {
    if edit.items.Some? {
      BuiltItemsAreSellable(o.id, edit.items.value);
      AddAllMeaning([], BuildItems(o.id, edit.items.value).value, (Product, ""));
    }
    IdentifiedStaysSound(EditItems(o, edit).value, ids);
  }
}
