/** What the tables mean, call by call. */
module Transitions {
  import opened Prelude
  import opened OrderStatus
  import opened Items
  import opened Orders
  import opened Effects
  import opened SagaSystem
  import opened SagaInvariants
  import opened SagaTheorems
  import opened SagaGuards
  import opened Tables
  import opened Handlers

  /** The saga status changes only by the steps that write it. */
  lemma SagaStatusExactly(s: Slice, step: Step)
    requires Reachable(s) && Enabled(s, step)
    ensures Do(s, step).order.sagaStatus == OrElse(SagaWritten(s.order, step), Some(s.order.sagaStatus)).value
  {
    hide Reachable, EffectOf, SagaWritten, StatusTabled, RequestsTabled, HistoryTabled, ErrorTabled;
    StepTabled(s, step);
  }

  /** What a step leaves of an order that it does not store. */
  predicate LeavesAlone(o: Order, e: Effect) {
    e.order == o && e.entries == [] && e.published == [] && e.begun.None?
  }

  /** A refused call leaves everything alone. */
  lemma RefusedLeavesAlone(s: Slice, step: Step)
    requires Reachable(s) && Enabled(s, step) && Refusal(s.order, step.event).Some?
    ensures LeavesAlone(s.order, EffectOf(s.order, step))
    ensures EffectOf(s.order, step).error == Refusal(s.order, step.event)
  {
    hide Reachable, EffectOf, ProductLines;
    ReachableInv(s);
    StepTabled(s, step);
    RefusedAims(s.order, step.event);
    SameOrder(s.order, EffectOf(s.order, step).order);
  }

  lemma RefusedAims(o: Order, event: Event)
    requires SagaFields(o) && Refusal(o, event).Some?
    ensures Arrival(o, event).None? && StockStep(o, event).None? && !Declines(o, event) && !event.OrderEdited?
    ensures !event.ServiceRestarted?
  {
    hide ProductLines;
  }

  lemma SameOrder(o: Order, o': Order)
    requires SagaRecordOf(o') == SagaRecordOf(o) && (forall field :: ValueOf(o', field) == ValueOf(o, field))
    requires o'.id == o.id && o'.status == o.status && o'.items == o.items
    requires o'.preferenceId == o.preferenceId && o'.paymentId == o.paymentId && o'.paymentUrl == o.paymentUrl
    requires o'.closedAt == o.closedAt && o'.deletedAt == o.deletedAt
    ensures o' == o
  {
    assert ValueOf(o', CustomerField) == o.customerId && ValueOf(o', VehicleField) == o.vehicleId;
    assert ValueOf(o', DescriptionField) == o.description;
  }

  /** Each field has after a step the value that the step stores in it, or else the one it had. */
  lemma ValueExactly(s: Slice, step: Step, field: Field)
    requires Reachable(s) && Enabled(s, step)
    ensures ValueOf(Do(s, step).order, field) ==
      OrElse(ValueStored(s.order, step, field), Some(ValueOf(s.order, field))).value
  {
    hide Reachable, EffectOf, ValueStored, ValueOf, SagaTabled, PaymentTabled, ClosingTabled;
    hide StatusTabled, RequestsTabled, HistoryTabled, ErrorTabled;
    StepTabled(s, step);
  }

  /** An answer to the request for authorization. A customer who does not own the order is told so, and nothing else,
      and nobody else is. Approval authorizes an order in PENDING_AUTHORIZATION exactly if the writes go through, with
      a saga in flight or not. Denial starts CANCEL_RESERVED towards AUTHORIZATION_DENIED, or ends there at once
      without products, unless a saga is in flight. */
  lemma AuthorizationExactly(s: Slice, step: Step)
    requires Reachable(s) && Enabled(s, step) && step.event.AuthorizationAnswered? && step.event.saga != ""
    ensures var o, e, f := s.order, EffectOf(s.order, step), step.faults;
      var owns := step.event.caller == Staff || step.event.caller == Customer(o.customerId);
      && (e.error == Some(ForbiddenAccess) <==> !owns)
      && (!owns ==> LeavesAlone(o, e))
      && (owns && o.status != PendingAuthorization ==> LeavesAlone(o, e) && e.error == Some(InvalidStatusTransition))
      && (owns && o.status == PendingAuthorization && step.event.approved ==>
            && (e.order.status == Authorized <==> Stores(f))
            && e.order == o.(status := e.order.status) && e.begun.None? && e.published == [])
      && (owns && o.status == PendingAuthorization && !step.event.approved ==>
            if o.InFlight() then LeavesAlone(o, e) && e.error == Some(SagaAlreadyInProgress)
            else if o.Lines() == [] then (e.order.status == AuthorizationDenied <==> Stores(f)) && e.begun.None?
            else
              && e.order.status == o.status
              && e.begun == (if f.saveOk
                             then Some(Request(step.event.saga, o.id, CancelReserved, o.Lines())) else None)
              && e.published == (if f.saveOk && f.publishOk then [e.begun.value] else [])
              && (f.saveOk ==> SagaRecordOf(e.order) == SagaRecord(SagaAwaitingInventory, Some(step.event.saga),
                                                                  Some(AuthorizationDenied), step.event.observation)))
  {
    hide Reachable, EffectOf, ProductLines;
    ReachableInv(s);
    StepTabled(s, step);
    if Refusal(s.order, step.event).Some? {
      RefusedLeavesAlone(s, step);
    } else if step.event.approved {
      SameOrder(s.order, EffectOf(s.order, step).order.(status := s.order.status));
    }
  }

  /** A call asks for a payment to be started. */
  predicate AsksForPayment(o: Order, event: Event) {
    (event.AdvanceCalled? && o.status == Completed) || (event.RetryCalled? && o.status == PaymentRejected)
  }

  /** A payment is waited for exactly if a call asks for it, the provider has created an order that can be paid, and the
      writes go through, with a saga in flight or not; the order then has the provider's id and address, and it has no
      other ones at any other step. */
  lemma PaymentStartsExactly(s: Slice, step: Step)
    requires Reachable(s) && Enabled(s, step)
    ensures var o, o' := s.order, Do(s, step).order;
      if AsksForPayment(o, step.event) && Usable(step.event.provider) && Stores(step.faults) then
        && o'.status == AwaitingPayment && o'.sagaStatus == SagaAwaitingPayment
        && o'.preferenceId == Some(step.event.provider.value.id)
        && o'.paymentUrl == Some(step.event.provider.value.url)
      else
        && (o'.status == AwaitingPayment ==> o.status == AwaitingPayment)
        && o'.preferenceId == o.preferenceId && o'.paymentUrl == o.paymentUrl
  {
    hide Reachable, EffectOf, StockStep, PlainStep, Told, RequestsTabled, HistoryTabled, ErrorTabled, Coherent;
    ReachableInv(s);
    StepTabled(s, step);
    PaymentAsked(s.order, step.event);
  }

  lemma PaymentAsked(o: Order, event: Event)
    requires PairOk(o)
    ensures PaymentStep(o, event) == Some(AwaitingPayment) <==>
      AsksForPayment(o, event) && Usable(event.provider)
    ensures Arrival(o, event) == Some(AwaitingPayment) <==> PaymentStep(o, event) == Some(AwaitingPayment)
  {
    hide ProductLines;
  }

  /** An edit that goes through stores the values it names for customer, vehicle and description, and leaves the others;
      no other step changes any of them, and an edit that does not go through changes nothing at all. */
  lemma EditedExactly(s: Slice, step: Step)
    requires Reachable(s) && Enabled(s, step)
    ensures var o, o' := s.order, Do(s, step).order;
      if step.event.OrderEdited? && EditPasses(o, step.event.edit) && Stores(step.faults) then
        var edit := step.event.edit;
        && o'.customerId == (if edit.customerId.Some? then edit.customerId.value else o.customerId)
        && o'.vehicleId == (if edit.vehicleId.Some? then edit.vehicleId.value else o.vehicleId)
        && o'.description == (if edit.description.Some? then edit.description.value else o.description)
      else
        && o'.customerId == o.customerId && o'.vehicleId == o.vehicleId && o'.description == o.description
        && (step.event.OrderEdited? ==> o' == o)
  {
    hide Reachable, EffectOf, ProductLines, Told, EditPasses;
    StepTabled(s, step);
    var o' := Do(s, step).order;
    assert ValueOf(o', CustomerField) == o'.customerId && ValueOf(o', VehicleField) == o'.vehicleId;
    assert ValueOf(o', DescriptionField) == o'.description;
    if step.event.OrderEdited? && !(EditPasses(s.order, step.event.edit) && Stores(step.faults)) {
      SameOrder(s.order, o');
    }
  }

  /** A step writes one history entry or none, as the table tells, before the order and whether or not the order is then
      stored; so it records where the call leads, the operation and saga of an answer, why a saga failed, and the remark
      made by the caller or kept with the saga. */
  lemma HistoryExactly(s: Slice, step: Step)
    requires Reachable(s) && Enabled(s, step)
    ensures var o, e := s.order, EffectOf(s.order, step);
      && Do(s, step).log == s.log + e.entries && |e.entries| <= 1
      && (forall changed :: e.entries != [] <==> Told(o, step.event, changed).Some? && step.faults.historyOk)
      && (forall x | x in e.entries :: Told(o, step.event, x.itemsChanged) == Some(x))
  {
    hide Reachable, EffectOf, Arrival, Declines, EditPasses, OperationTold, Settles;
    StepTabled(s, step);
  }
}
