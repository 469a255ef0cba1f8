/** What every call makes of an order, told by tables: where it takes the order, what it does to the saga fields, the
    payment fields and the particulars, what it writes to the history, what it asks the stock service for, and why it is
    refused. The tables know the stored order, the call and which writes go through, and nothing of how the handlers are
    built. */
module Tables {
  import opened Prelude
  import opened OrderStatus
  import opened Items
  import opened Orders
  import opened Effects
  import opened SagaSystem
  import opened SagaInvariants
  import opened SagaTheorems
  import opened SagaGuards

  // --- Where a call takes the order ---

  /** Customers answer for their own orders only. */
  predicate MayAnswer(o: Order, caller: Caller) {
    caller == Staff || caller == Customer(o.customerId)
  }

  /** A refund that deletion needs, and that the provider refuses. */
  predicate RefundRefused(o: Order, event: Event) {
    event.DeleteCalled? && o.status == Paid && o.paymentId.Some? && !event.refundOk
  }

  /** The status a call aims at by a step in which the stock service may have to take part. */
  function StockStep(o: Order, event: Event): Option<Status> {
    if o.InFlight() then None
    else
      match event
      case AdvanceCalled(_, _) =>
        if o.status == Diagnosing then Some(PendingAuthorization)
        else if o.status == InProgress then Some(Completed)
        else None
      case AuthorizationAnswered(caller, approved, _, _) =>
        if MayAnswer(o, caller) && o.status == PendingAuthorization && !approved then Some(AuthorizationDenied)
          else None
      case DeleteCalled(_, _, _, _) =>
        if IsFinal(o.status) || RefundRefused(o, event) then None else Some(Canceled)
      case CustomerRemoved(_, _, _) =>
        if o.status in {Received, Diagnosing, PendingAuthorization, Authorized, InProgress} then Some(Canceled)
          else None
      case _ => None
  }

  /** There is something for the stock service to do. */
  predicate TakesStock(o: Order, to: Status) {
    o.Lines() != [] && !(to == Canceled && o.status in {Received, Diagnosing})
  }

  /** The status a call leads to by way of a payment, dropping any saga. */
  function PaymentStep(o: Order, event: Event): Option<Status> {
    match event
    case AdvanceCalled(_, provider) =>
      if o.status == Completed && Usable(provider) then Some(AwaitingPayment) else None
    case RetryCalled(provider) =>
      if o.status == PaymentRejected && Usable(provider) then Some(AwaitingPayment) else None
    case WebhookReceived(payment, reported) =>
      if o.status != AwaitingPayment then None
      else if reported == Approved && payment != "" then Some(Paid)
      else if reported in {Rejected, PaymentStatus.Cancelled} then Some(PaymentRejected)
      else None
    case _ => None
  }

  /** The status a call leads to with no regard to a saga. */
  function PlainStep(o: Order, event: Event): Option<Status> {
    match event
    case AdvanceCalled(_, _) =>
      (match o.status
       case Received => Some(Diagnosing)
       case PendingAuthorization => Some(Authorized)
       case Authorized => Some(InProgress)
       case AwaitingPayment => Some(Paid)
       case Paid => Some(OrderStatus.Delivered)
       case _ => None)
    case AuthorizationAnswered(caller, approved, _, _) =>
      if MayAnswer(o, caller) && o.status == PendingAuthorization && approved then Some(Authorized) else None
    case WebhookReceived(_, reported) =>
      if o.status == Paid && reported == Refunded then Some(Canceled) else None
    case _ => None
  }

  /** The saga in flight succeeds, and its target can still be reached. */
  predicate Settles(o: Order, event: Event) {
    && event.AnswerDelivered? && event.answer.Succeeded? && o.CanProcessSaga(event.answer.sagaId)
    && o.target.Some? && !Stuck(o.status, o.target.value)
  }

  /** The saga in flight fails, for a reason. */
  predicate Declines(o: Order, event: Event) {
    event.AnswerDelivered? && event.answer.Failed? && event.answer.reason != "" && o.CanProcessSaga(event.answer.sagaId)
  }

  /** Where the call takes the order at once, if the writes go through. */
  function Arrival(o: Order, event: Event): Option<Status> {
    if Settles(o, event) then o.target
    else if StockStep(o, event).Some? then
      if TakesStock(o, StockStep(o, event).value) then None else StockStep(o, event)
    else OrElse(PaymentStep(o, event), PlainStep(o, event))
  }

  /** The call stores a saga as started. */
  predicate StartsSaga(o: Order, step: Step) {
    && StockStep(o, step.event).Some? && TakesStock(o, StockStep(o, step.event).value)
    && step.faults.saveOk && Offered(step.event).Some? && Offered(step.event).value != ""
  }

  predicate StatusTabled(o: Order, step: Step, e: Effect) {
    e.order.status ==
      if Arrival(o, step.event).Some? && Stores(step.faults) then Arrival(o, step.event).value else o.status
  }

  // --- What it does to the fields of the order ---

  datatype SagaRecord = SagaRecord(
    status: SagaStatus,
    id: Option<string>,
    target: Option<Status>,
    notes: Option<string>)

  function SagaRecordOf(o: Order): SagaRecord {
    SagaRecord(o.sagaStatus, o.sagaId, o.target, o.notes)
  }

  /** What the caller remarks. */
  function Remark(event: Event): Option<string> {
    match event
    case AuthorizationAnswered(_, _, observation, _) => observation
    case DeleteCalled(notes, _, _, _) => notes
    case CustomerRemoved(notes, _, _) => notes
    case _ => None
  }

  /** The saga status under which the call stores the order, if it writes the saga fields. */
  function SagaWritten(o: Order, step: Step): Option<SagaStatus> {
    if StartsSaga(o, step) then Some(SagaAwaitingInventory)
    else if !Stores(step.faults) then None
    else if Declines(o, step.event) then Some(SagaFailed)
    else if PaymentStep(o, step.event) == Some(AwaitingPayment) then Some(SagaAwaitingPayment)
    else if Arrival(o, step.event).Some? && PlainStep(o, step.event).None? then Some(SagaIdle)
    else None
  }

  predicate SagaTabled(o: Order, step: Step, e: Effect) {
    SagaRecordOf(e.order) ==
      match SagaWritten(o, step)
      case None => SagaRecordOf(o)
      case Some(SagaAwaitingInventory) =>
        SagaRecord(SagaAwaitingInventory, Offered(step.event), StockStep(o, step.event), Remark(step.event))
      case Some(status) => SagaRecord(status, None, None, None)
  }

  /** The provider order that the call stores as the one waited for. */
  function ProviderStored(o: Order, step: Step): Option<PaymentOrder> {
    if PaymentStep(o, step.event) != Some(AwaitingPayment) || !Stores(step.faults) then None
    else if step.event.AdvanceCalled? || step.event.RetryCalled? then step.event.provider
    else None
  }

  predicate PaymentTabled(o: Order, step: Step, e: Effect) {
    && (match ProviderStored(o, step)
        case None => e.order.preferenceId == o.preferenceId && e.order.paymentUrl == o.paymentUrl
        case Some(p) => e.order.preferenceId == Some(p.id) && e.order.paymentUrl == Some(p.url))
    && e.order.paymentId ==
         if PaymentStep(o, step.event) == Some(Paid) && step.event.WebhookReceived? && Stores(step.faults)
         then Some(step.event.payment) else o.paymentId
  }

  /** The fields that an edit names. */
  datatype Field = CustomerField | VehicleField | DescriptionField

  function ValueOf(o: Order, field: Field): string {
    match field
    case CustomerField => o.customerId
    case VehicleField => o.vehicleId
    case DescriptionField => o.description
  }

  /** The value that the call stores in the field. */
  function ValueStored(o: Order, step: Step, field: Field): Option<string> {
    if step.event.OrderEdited? && EditPasses(o, step.event.edit) && Stores(step.faults) then
      match field
      case CustomerField => step.event.edit.customerId
      case VehicleField => step.event.edit.vehicleId
      case DescriptionField => step.event.edit.description
    else None
  }

  ghost predicate ValuesTabled(o: Order, step: Step, e: Effect) {
    forall field :: ValueOf(e.order, field) == OrElse(ValueStored(o, step, field), Some(ValueOf(o, field))).value
  }

  /** The first arrival that closes the order is the time of its closing. */
  predicate ClosingTabled(o: Order, step: Step, e: Effect) {
    e.order.closedAt ==
      if o.closedAt.None? && Arrival(o, step.event).Some? && Stores(step.faults)
         && Arrival(o, step.event).value in {Completed, Paid, OrderStatus.Delivered, Canceled, AuthorizationDenied}
      then Some(step.now) else o.closedAt
  }

  ghost predicate FieldsTabled(o: Order, step: Step, e: Effect) {
    && SagaTabled(o, step, e) && PaymentTabled(o, step, e) && ValuesTabled(o, step, e) && ClosingTabled(o, step, e)
    && e.order.id == o.id && e.order.deletedAt == o.deletedAt
    && (e.order.items == o.items || (step.event.OrderEdited? && EditPasses(o, step.event.edit) && Stores(step.faults)))
  }

  // --- What it asks the stock service for ---

  /** The request of the saga that the call stores as started. */
  function SagaStarted(o: Order, step: Step): Option<Request> {
    if StartsSaga(o, step) then
      var op := StartedOperation(o.status, StockStep(o, step.event).value);
      Some(Request(Offered(step.event).value, o.id, op, o.Lines()))
    else None
  }

  predicate RequestsTabled(o: Order, step: Step, e: Effect) {
    && e.begun == SagaStarted(o, step)
    && (!step.event.ServiceRestarted? ==>
          e.published == if e.begun.Some? && step.faults.publishOk then [e.begun.value] else [])
  }

  // --- What it writes to the history ---

  /** The stock operation that goes with the arrival. */
  function OperationTold(o: Order, event: Event): Option<Operation> {
    if Settles(o, event) then Some(event.answer.operation)
    else if StockStep(o, event) == Some(Canceled) && o.status in {Received, Diagnosing} then Some(OpNone)
    else if StockStep(o, event).Some? then Some(StartedOperation(o.status, StockStep(o, event).value))
    else None
  }

  /** What the history has to tell of a call: where it took the order, how a saga failed, or that there was an edit, of
      which it also tells whether the items have changed. */
  function Told(o: Order, event: Event, itemsChanged: bool): Option<Entry> {
    if Arrival(o, event).Some? then
      var to := Arrival(o, event).value;
      var saga := if Settles(o, event) then Some(event.answer.sagaId) else None;
      var notes := if Settles(o, event) then o.notes else Remark(event);
      Some(Entry(o.id, to, Some((o.status, to)), OperationTold(o, event), saga, None, NonEmpty(notes), false))
    else if Declines(o, event) then
      Some(Entry(o.id, o.status, Some((o.status, o.status)), Some(event.answer.operation), Some(event.answer.sagaId),
                 Some(event.answer.reason), None, false))
    else if event.OrderEdited? && EditPasses(o, event.edit) then
      Some(Entry(o.id, o.status, None, None, None, None, None, itemsChanged))
    else None
  }

  predicate HistoryTabled(o: Order, step: Step, e: Effect) {
    e.entries ==
      match Told(o, step.event, e.entries != [] && e.entries[0].itemsChanged)
      case Some(entry) => if step.faults.historyOk then [entry] else []
      case None => []
  }

  // --- Why it is refused ---

  function ProviderRefusal(provider: Option<PaymentOrder>): Option<Error> {
    if provider.None? then Some(ProviderFailed)
    else if provider.value.id == "" then Some(InvalidPaymentPreference)
    else if provider.value.url == "" then Some(InvalidPaymentUrl)
    else None
  }

  /** What the caller is told without anything being written. */
  function Refusal(o: Order, event: Event): Option<Error> {
    match event
    case AdvanceCalled(_, provider) =>
      if IsFinal(o.status) || o.status == PaymentRejected then Some(NoNextStatus)
      else if o.status in {Diagnosing, InProgress} && o.InFlight() then Some(SagaAlreadyInProgress)
      else if o.status == Completed then ProviderRefusal(provider)
      else None
    case AuthorizationAnswered(caller, approved, _, _) =>
      if !MayAnswer(o, caller) then Some(ForbiddenAccess)
      else if o.status != PendingAuthorization then Some(InvalidStatusTransition)
      else if !approved && o.InFlight() then Some(SagaAlreadyInProgress)
      else None
    case DeleteCalled(_, _, _, _) =>
      if RefundRefused(o, event) then Some(ProviderFailed)
      else if o.InFlight() then Some(SagaAlreadyInProgress)
      else if IsFinal(o.status) then Some(InvalidStatusTransition)
      else None
    case WebhookReceived(payment, reported) =>
      if o.status == AwaitingPayment && reported == Approved && payment == "" then Some(InvalidPaymentId) else None
    case RetryCalled(provider) =>
      if o.status != PaymentRejected then Some(InvalidStatusTransition) else ProviderRefusal(provider)
    case AnswerDelivered(Failed(_, _, _, reason), _) => if reason == "" then Some(MalformedMessage) else None
    case AnswerDelivered(Succeeded(saga, _, _), _) =>
      if o.CanProcessSaga(saga) && o.target.Some? && Stuck(o.status, o.target.value) then Some(InvalidStatusTransition)
      else None
    case _ => None
  }

  /** What is amiss with an edit that does not pass. */
  ghost predicate RefusesEdit(o: Order, edit: Edit, e: Error) {
    if edit.lookup.Some? then e == edit.lookup.value
    else if edit.customerId == Some("") then e == InvalidCustomerId
    else if edit.vehicleId == Some("") then e == InvalidVehicleId
    else if edit.items.Some? && o.status !in {Received, Diagnosing} then e == CannotModifyItemsAfterPending
    else edit.items.Some? && exists i :: FailsAt(edit.items.value, i, e)
  }

  /** A saga is to be started without an id. */
  predicate StartsUnnamed(o: Order, event: Event) {
    StockStep(o, event).Some? && Arrival(o, event).None? && Offered(event) == Some("")
  }

  /** The writes that the call needs go through. */
  predicate Written(o: Order, step: Step) {
    && (Told(o, step.event, false).Some? ==> Stores(step.faults))
    && (StockStep(o, step.event).Some? && Arrival(o, step.event).None? ==> step.faults.saveOk && step.faults.publishOk)
  }

  ghost predicate ErrorTabled(o: Order, step: Step, e: Effect) {
    if step.event.ServiceRestarted? then
      e.error == if o.InFlight() && !step.faults.publishOk then Some(WriteFailed) else None
    else if step.event.OrderEdited? && !EditPasses(o, step.event.edit) then
      e.error.Some? && RefusesEdit(o, step.event.edit, e.error.value)
    else
      e.error == if Refusal(o, step.event).Some? then Refusal(o, step.event)
                 else if StartsUnnamed(o, step.event) then Some(InvalidSagaId)
                 else if Written(o, step) then None else Some(WriteFailed)
  }

  ghost predicate Tabled(o: Order, step: Step, e: Effect) {
    && StatusTabled(o, step, e) && FieldsTabled(o, step, e) && RequestsTabled(o, step, e) && HistoryTabled(o, step, e)
    && ErrorTabled(o, step, e)
  }
}
