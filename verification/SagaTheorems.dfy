/** The promises of the saga, for every run of every order. */
module SagaTheorems {
  import opened Prelude
  import opened OrderStatus
  import opened Items
  import opened Signatures
  import opened Orders
  import opened Effects
  import opened Moves
  import opened SagaSystem
  import opened SagaInvariants

  // --- What can be applied, and in which order ---

  /** Of the sagas that take effect, named by the operation each was started with: none takes effect twice, and no
      compensation does without the step it undoes. They are a prefix of RESERVE, CANCEL_RESERVED or of RESERVE,
      RESERVED_DECREASE, CANCEL_CONFIRMED, and the status tells which. */
  lemma SagaLanguage(t: Slice)
    requires Reachable(t)
    ensures Ops(t) <= [Reserve, CancelReserved] || Ops(t) <= [Reserve, ReservedDecrease, CancelConfirmed]
    ensures t.order.status in {Received, Diagnosing} ==> Ops(t) == []
    ensures t.order.Lines() != [] ==>
      match t.order.status
      case Received | Diagnosing => Ops(t) == []
      case PendingAuthorization | Authorized | InProgress => Ops(t) == [Reserve]
      case AuthorizationDenied => Ops(t) == [Reserve, CancelReserved]
      case Canceled =>
        || Ops(t) in [[], [Reserve, CancelReserved], [Reserve, ReservedDecrease, CancelConfirmed]]
        || (Ops(t) == [Reserve, ReservedDecrease] && t.closingNotice.Some?)
      case _ => Ops(t) == [Reserve, ReservedDecrease]
  {
    hide Reachable;
    ReachableInv(t);
  }

  // --- Each saga at most once ---

  /** Every saga id ever stored is in flight or has ended, and it has ended at most once. */
  lemma EachSagaEndsAtMostOnce(t: Slice, id: string)
    requires Reachable(t) && id in t.used
    ensures (t.order.InFlight() && t.order.sagaId == Some(id)) <==>
      !exists i | 0 <= i < |t.resolutions| :: t.resolutions[i].request.sagaId == id
    ensures forall i, j | 0 <= i < |t.resolutions| && 0 <= j < |t.resolutions|
      && t.resolutions[i].request.sagaId == id && t.resolutions[j].request.sagaId == id :: i == j
  {
    hide Reachable;
    ReachableInv(t);
  }

  lemma {:induction false} ResolutionsOnlyGrow(s: Slice, run: seq<Step>, t: Slice)
    requires Inv(s) && Leads(s, run, t)
    ensures Inv(t) && s.resolutions <= t.resolutions && s.used <= t.used
    decreases |run|
  {
    hide Inv, EffectOf, After;
    if run != [] {
      var init, last := run[..|run| - 1], run[|run| - 1];
      var u := LastStep(s, run, t);
      ResolutionsOnlyGrow(s, init, u);
      var m := StepRecords(u, last);
      StepKeepsInv(u, last);
    }
  }

  /** Once ended, a saga stays ended the way it did, whatever follows, and an answer that still arrives for it
      leaves the stored order, the history and the queue of requests alone. */
  lemma EndedStaysEnded(s: Slice, i: nat, run: seq<Step>, t: Slice, answer: Answer, now: Time, f: Faults)
    requires Reachable(s) && i < |s.resolutions| && Leads(s, run, t)
    requires answer.sagaId == s.resolutions[i].request.sagaId
    ensures i < |t.resolutions| && t.resolutions[i] == s.resolutions[i]
    ensures t.order.Current() != Some(answer.sagaId)
    ensures var e := Consume(t.order, answer, now, f);
      e.order == t.order && e.entries == [] && e.published == []
  {
    hide Reachable;
    ReachableInv(s);
    ResolutionsOnlyGrow(s, run, t);
    assert t.resolutions[i] == s.resolutions[i];
  }

  /** The service without messages: a status, the saga in flight with its target, the ids spent. */
  datatype Simple = Simple(status: Status, saga: Option<(string, Status)>, spent: set<string>)

  function Abstract(s: Slice): Simple {
    Simple(s.order.status,
           if s.order.InFlight() && s.order.sagaId.Some? && s.order.target.Some?
           then Some((s.order.sagaId.value, s.order.target.value)) else None,
           s.used)
  }

  /** A saga begins with an id never used before. */
  ghost predicate Begins(a: Simple, b: Simple) {
    exists id, op, to ::
      && Starts(a.status, op, to)
      && a.saga.None? && id !in a.spent
      && b == Simple(a.status, Some((id, to)), a.spent + {id})
  }

  /** The saga takes effect: the status becomes its target. */
  predicate TakesEffect(a: Simple, b: Simple) {
    a.saga.Some? && b == Simple(a.saga.value.1, None, a.spent)
    && (a.status == b.status || CanTransitionTo(a.status, b.status))
  }

  predicate Fails(a: Simple, b: Simple) {
    a.saga.Some? && b == a.(saga := None)
  }

  /** The status changes along an edge; into the payment statuses a saga in flight is dropped. */
  predicate Changes(a: Simple, b: Simple) {
    && CanTransitionTo(a.status, b.status) && b.spent == a.spent
    && (b.saga == a.saga || (b.saga.None? && b.status in {AwaitingPayment, Paid, PaymentRejected}))
  }

  /** One step of the service without messages; a saga takes effect or fails by an answer that names it, and not
      otherwise. */
  ghost predicate SimpleStep(a: Simple, event: Event, b: Simple) {
    || a == b
    || Begins(a, b)
    || (TakesEffect(a, b) && event.AnswerDelivered? && event.answer.Succeeded? && a.saga.value.0 == event.answer.sagaId)
    || (Fails(a, b) && event.AnswerDelivered? && event.answer.Failed? && a.saga.value.0 == event.answer.sagaId)
    || Changes(a, b)
  }

  ghost predicate SimpleRun(a: Simple, run: seq<Step>, b: Simple)
    decreases |run|
  {
    if run == [] then a == b
    else
      var init, last := run[..|run| - 1], run[|run| - 1];
      exists c :: SimpleRun(a, init, c) && SimpleStep(c, last.event, b)
  }

  /** Refinement: seen without messages, every step begins a saga, lets the one in flight take effect or fail,
      changes the status, or does nothing. */
  lemma StepRefines(s: Slice, step: Step)
    requires Inv(s) && Enabled(s, step)
    ensures SimpleStep(Abstract(s), step.event, Abstract(Do(s, step)))
  {
    hide Advance, Respond, Delete, CustomerDeleted, Webhook, RetryPayment, UpdateOrder, Consume, Recover;
    var m := StepRecords(s, step);
    StepKeepsInv(s, step);
    MoveRefines(s, m, Do(s, step), step.now);
  }

  /** Every run, with its messages lost, repeated and reordered and with any number of restarts, is a run of the
      service without messages. */
  lemma RunRefines(s: Slice, run: seq<Step>, t: Slice)
    requires Init(s) && Leads(s, run, t)
    ensures SimpleRun(Abstract(s), run, Abstract(t))
  {
    hide Leads, SimpleRun;
    InitHolds(s);
    RunRefinesFrom(s, run, t);
  }

  lemma {:induction false} RunRefinesFrom(s: Slice, run: seq<Step>, t: Slice)
    requires Inv(s) && Leads(s, run, t)
    ensures Inv(t) && SimpleRun(Abstract(s), run, Abstract(t))
    decreases |run|
  {
    hide Inv, EffectOf, After, Abstract, SimpleStep;
    if run != [] {
      var init, last := run[..|run| - 1], run[|run| - 1];
      var u := LastStep(s, run, t);
      RunRefinesFrom(s, init, u);
      StepRefines(u, last);
      StepKeepsInv(u, last);
    }
  }

  lemma MoveRefines(s: Slice, m: Move, t: Slice, now: Time)
    requires Coherent(s.order) && PairOk(s.order) && Coherent(t.order) && Moved(s.order, m, t.order, now)
    requires t.used == if m.Begin? then s.used + {m.request.sagaId} else s.used
    requires m.Begin? ==> m.request.sagaId !in s.used
    ensures var a, b := Abstract(s), Abstract(t);
      || a == b
      || Begins(a, b)
      || (TakesEffect(a, b) && m.Settle?)
      || (Fails(a, b) && m.Fail?)
      || Changes(a, b)
  {
    hide Sound, ProductLines;
    var a, b := Abstract(s), Abstract(t);
    MovesFollowTheGraph(s.order, m, t.order, now);
    if m.Begin? {
      assert Starts(a.status, m.request.operation, m.to);
      assert b == Simple(a.status, Some((m.request.sagaId, m.to)), a.spent + {m.request.sagaId});
    } else if m.Settle? {
      hide CanTransitionTo, Starts, Shifts;
    }
  }

  // --- The states of a saga in flight ---

  /** The pairs in which the answer of the stock service can no longer be applied. */
  predicate Stuck(s: Status, target: Status) {
    || (s in {Authorized, InProgress} && target == AuthorizationDenied)
    || (s == Delivered && target == Canceled)
  }

  /** In flight, status and target form one of fourteen pairs, forward sagas keep their status, and the
      recorded request is the one of the pair. */
  lemma InFlightStates(t: Slice)
    requires Reachable(t) && t.order.InFlight()
    ensures t.order.sagaId.Some? && t.order.target.Some?
    ensures InFlightPair(t.order.status, t.order.target.value)
    ensures t.current.Some? && t.current.value.sagaId == t.order.sagaId.value
    ensures t.current.value.operation == StartedOperation(t.order.status, t.order.target.value)
  {
    hide Reachable;
    ReachableInv(t);
  }

  /** The success of the saga in flight is applied, when the writes go through, in every pair but the stuck
      ones; in those it is refused with nothing written, whatever operation it names. */
  lemma SuccessAppliesUnlessStuck(t: Slice, op: Operation, now: Time, f: Faults)
    requires Reachable(t) && t.order.InFlight() && f.historyOk && f.saveOk
    ensures t.order.sagaId.Some? && t.order.target.Some?
    ensures var e := HandleSucceeded(t.order, t.order.sagaId.value, op, now, f);
      if Stuck(t.order.status, t.order.target.value) then
        e == Refused(t.order, InvalidStatusTransition)
      else
        e.error.None? && e.order.status == t.order.target.value && !e.order.InFlight() && |e.entries| == 1
  {
    hide Reachable;
    ReachableInv(t);
    SuccessApplies(t.order, op, now, f);
  }

  lemma SuccessApplies(o: Order, op: Operation, now: Time, f: Faults)
    requires SagaFields(o) && PairOk(o) && o.InFlight() && f.historyOk && f.saveOk
    ensures var e := HandleSucceeded(o, o.sagaId.value, op, now, f);
      if Stuck(o.status, o.target.value) then
        e == Refused(o, InvalidStatusTransition)
      else
        e.error.None? && e.order.status == o.target.value && !e.order.InFlight() && |e.entries| == 1
  {
    hide SagaEntry;
  }

  /** A stuck saga stays in flight, under its id and towards its target, and it stays stuck, whatever the run does,
      until an answer arrives that names it and reports a failure; so its success is refused for ever. */
  lemma StuckUntilFailed(s: Slice, run: seq<Step>, t: Slice, saga: string)
    requires Reachable(s) && Leads(s, run, t)
    requires s.order.Current() == Some(saga) && s.order.target.Some? && Stuck(s.order.status, s.order.target.value)
    requires forall i | 0 <= i < |run| :: !ReportsFailureOf(run[i].event, saga)
    ensures t.order.Current() == Some(saga) && t.order.target == s.order.target
    ensures Stuck(t.order.status, s.order.target.value)
  {
    hide Reachable, Leads;
    ReachableInv(s);
    StuckFrom(s, run, t, saga);
  }

  lemma {:induction false} StuckFrom(s: Slice, run: seq<Step>, t: Slice, saga: string)
    requires Inv(s) && Leads(s, run, t)
    requires s.order.Current() == Some(saga) && s.order.target.Some? && Stuck(s.order.status, s.order.target.value)
    requires forall i | 0 <= i < |run| :: !ReportsFailureOf(run[i].event, saga)
    ensures Inv(t) && t.order.Current() == Some(saga) && t.order.target == s.order.target
    ensures Stuck(t.order.status, s.order.target.value)
    decreases |run|
  {
    hide Inv, EffectOf, After, Leads;
    if run == [] {
      NoStepLeadsNowhere(s, t);
    } else {
      var init, last := run[..|run| - 1], run[|run| - 1];
      var u := LastStep(s, run, t);
      StuckFrom(s, init, u, saga);
      StepKeepsInv(u, last);
      var m := StepRecords(u, last);
      StuckMove(u, m, t.order, last, saga);
    }
  }

  predicate ReportsFailureOf(event: Event, saga: string) {
    event.AnswerDelivered? && event.answer.Failed? && event.answer.sagaId == saga
  }

  lemma NoStepLeadsNowhere(s: Slice, t: Slice)
    requires Leads(s, [], t)
    ensures s == t
  {
  }

  lemma StuckMove(s: Slice, m: Move, o': Order, step: Step, saga: string)
    requires Inv(s) && Moved(s.order, m, o', step.now) && s.order.Current() == Some(saga)
    requires s.order.target.Some? && Stuck(s.order.status, s.order.target.value)
    requires m.Fail? ==>
      step.event.AnswerDelivered? && step.event.answer.Failed? && s.order.CanProcessSaga(step.event.answer.sagaId)
    requires !ReportsFailureOf(step.event, saga)
    ensures o'.Current() == Some(saga) && o'.target == s.order.target && Stuck(o'.status, s.order.target.value)
  {
    hide ProductLines, Sound;
  }

  /** Recovery publishes for every saga in flight, under its own id and without touching the order. The
      operation it names is the one the saga was started with exactly when the order is not in one of four
      statuses; in those a confirmed consumption is asked back as if it were a reservation. */
  lemma RecoveryFidelity(t: Slice, f: Faults)
    requires Reachable(t) && t.order.InFlight() && f.publishOk
    ensures t.current.Some?
    ensures var e := Recover(t.order, f);
      && e.order == t.order && e.entries == [] && e.error.None? && |e.published| == 1
      && e.published[0].sagaId == t.current.value.sagaId
      && (e.published[0].operation == t.current.value.operation <==>
            !RecoveryErrs(t.order.status))
      && e.published[0].lines == t.order.Lines()
      && (t.order.status != Diagnosing ==> e.published[0].lines == t.current.value.lines)
  {
    hide Reachable;
    ReachableInv(t);
  }

  /** Requests in the queue list no product twice and ask for at least one unit of each, and the request of a
      started saga is never empty. */
  lemma RequestsAreWellFormed(t: Slice)
    requires Reachable(t)
    ensures forall r | r in t.requests :: WellFormedLines(r.lines)
    ensures t.current.Some? ==> t.current.value.lines != []
  {
    hide Reachable;
    ReachableInv(t);
  }

  /** Three places tell which operation cancels an order: the table by status change, the orchestrator's own choice,
      and recovery's guess from the stored order. The orchestrator departs from the table exactly for a rejected
      payment and for the two statuses in which nothing is reserved yet; recovery departs from what was started
      exactly while the payment is awaited or rejected. */
  lemma CancellingOperationsCompared(o: Order, notes: Option<string>, saga: string, now: Time)
    requires o.deletedAt.None? && !o.InFlight() && o.Lines() != [] && saga != "" && !IsFinal(o.status)
    ensures var e := CancelOrder(o, notes, saga, now, Faults(true, true, true));
      var started := if e.begun.Some? then e.begun.value.operation else OpNone;
      && (started == DetermineInventoryOperation(o.status, Canceled)
        <==> o.status !in {Received, Diagnosing, PaymentRejected})
      && (e.begun.Some? <==> o.status !in {Received, Diagnosing})
      && (e.begun.Some? ==>
        (InferOperation(e.order) == Ok(started) <==> o.status !in {AwaitingPayment, PaymentRejected}))
  {
    hide ProductLines, SagaEntry;
  }

  // --- Money ---

  /** While a paid order is being canceled, its payment has been refunded at our request. Once it is canceled, that
      holds too, unless the provider's report of a refund canceled it; and if its payment has neither been refunded
      at our request nor reported as refunded, that report named another payment. */
  lemma MoneySafety(t: Slice)
    requires Reachable(t) && t.order.paymentId.Some?
    ensures var payment := t.order.paymentId.value;
      && (t.order.InFlight() ==> payment in t.refunds)
      && (t.order.status == Canceled ==> payment in t.refunds || t.closingNotice.Some?)
      && (t.order.status == Canceled && payment !in t.refunds && payment !in t.notices ==>
            t.closingNotice.Some? && t.closingNotice.value != payment)
  {
    hide Reachable;
    ReachableInv(t);
  }

  /** A report of a refund cancels a paid order whichever payment it names, when the writes go through. The order's own
      payment has then been refunded, at our request or by report, exactly if the report names it or that was so
      before. */
  lemma AnyRefundReportCancels(s: Slice, named: string, own: string, f: Faults, now: Time)
    requires s.order.status == Paid && s.order.paymentId == Some(own)
    ensures var t := Do(s, Step(WebhookReceived(named, Refunded), f, now));
      && (t.order.status == Canceled <==> f.historyOk && f.saveOk)
      && (t.order.status == Canceled ==>
            && t.closingNotice == Some(named) && t.order.paymentId == Some(own)
            && (own in t.refunds || own in t.notices <==> named == own || own in s.refunds || own in s.notices))
  {
    hide ProductLines;
    var e := Webhook(s.order, named, Refunded, now, f);
    assert e.refunds == [] && s.refunds + [] == s.refunds;
  }

  /** The refunds made at our request: one with every deletion of an order that is PAID with a payment, if the provider
      goes along. Neither a refund made before nor a saga in flight prevents another one. */
  lemma RefundsExactly(s: Slice, step: Step)
    requires Reachable(s) && Enabled(s, step)
    ensures Do(s, step).refunds == s.refunds +
      if step.event.DeleteCalled? && step.event.refundOk && s.order.status == Paid && s.order.paymentId.Some?
      then [s.order.paymentId.value] else []
  {
    hide Reachable;
    ReachableInv(s);
    EffectRefunds(s.order, step);
    assert s.refunds + [] == s.refunds;
  }

  lemma EffectRefunds(o: Order, step: Step)
    requires Coherent(o)
    ensures EffectOf(o, step).refunds ==
      if step.event.DeleteCalled? && step.event.refundOk && o.status == Paid && o.paymentId.Some?
      then [o.paymentId.value] else []
  {
    hide StartSaga, CancelOrder, StartPayment, TransitionLocal, Consume, ProductLines, Edited, RetryPayment;
    match step.event
    case AdvanceCalled(saga, provider) => AdvanceRefundsNothing(o, saga, provider, step.now, step.faults);
    case AuthorizationAnswered(caller, approved, observation, saga) =>
      StartRefundsNothing(o, CancelReserved, AuthorizationDenied, observation, saga, step.now, step.faults);
    case DeleteCalled(notes, saga, _, _) => CancelRefundsNothing(o, notes, saga, step.now, step.faults);
    case CustomerRemoved(notes, saga, _) => CancelRefundsNothing(o, notes, saga, step.now, step.faults);
    case WebhookReceived(_, _) =>
    case RetryCalled(provider) => RetryRefundsNothing(o, provider, step.now, step.faults);
    case AnswerDelivered(answer, _) => ConsumeRefundsNothing(o, answer, step.now, step.faults);
    case _ =>
  }

  lemma AdvanceRefundsNothing(o: Order, saga: string, provider: Option<PaymentOrder>, now: Time, f: Faults)
    ensures Advance(o, saga, provider, now, f).refunds == []
  {
    hide StartSaga, ProductLines;
    if NextStatus(o.status).Ok? {
      var to := NextStatus(o.status).value;
      StartRefundsNothing(o, DetermineInventoryOperation(o.status, to), to, None, saga, now, f);
    }
  }

  lemma RetryRefundsNothing(o: Order, provider: Option<PaymentOrder>, now: Time, f: Faults)
    ensures RetryPayment(o, provider, now, f).refunds == []
  {
  }

  lemma ConsumeRefundsNothing(o: Order, answer: Answer, now: Time, f: Faults)
    ensures Consume(o, answer, now, f).refunds == []
  {
  }

  /** An approval is recorded exactly when the order waits for a payment, the notice names one and the writes go
      through; in any other status it is dropped without an error, and so is the money it stands for: deletion gives
      back only a payment that an order has recorded. */
  lemma ApprovalsAreDroppedUnlessAwaited(o: Order, payment: string, notes: Option<string>, saga: string, refundOk: bool,
                                         now: Time, f: Faults)
    ensures var e := Webhook(o, payment, Approved, now, f);
      && (e.order != o <==> o.status == AwaitingPayment && payment != "" && f.historyOk && f.saveOk)
      && (e.order != o ==> e.order.status == Paid && e.order.paymentId == Some(payment))
      && (o.status != AwaitingPayment ==> e == Ignored(o))
    ensures payment in Delete(o, notes, saga, refundOk, now, f).refunds ==> o.paymentId == Some(payment)
  {
    hide CancelOrder, ProductLines;
    CancelRefundsNothing(o, notes, saga, now, f);
  }

  /** An order that becomes PAID carries a payment id exactly when the provider's webhook paid it: advancing
      by hand pays an order without a payment. */
  lemma PaidByWhom(s: Slice, step: Step)
    requires Reachable(s) && Enabled(s, step) && s.order.status != Paid && Do(s, step).order.status == Paid
    ensures s.order.status == AwaitingPayment
    ensures step.event.WebhookReceived? || step.event.AdvanceCalled?
    ensures Do(s, step).order.paymentId.Some? <==> step.event.WebhookReceived?
  {
    hide Advance, Respond, Delete, CustomerDeleted, Webhook, RetryPayment, UpdateOrder, Consume, Recover;
    hide Reachable;
    ReachableInv(s);
    var m := StepRecords(s, step);
    MovesToPaid(s.order, m, Do(s, step).order, step.now);
  }

  lemma MovesToPaid(o: Order, m: Move, o': Order, now: Time)
    requires Coherent(o) && PairOk(o) && Moved(o, m, o', now) && o.status != Paid && o'.status == Paid
    ensures o.status == AwaitingPayment && (m.Confirm? || m == Shift(Paid))
    ensures o'.paymentId.Some? <==> m.Confirm?
  {
  }

  // --- Audit ---

  /** Write-ahead audit: the stored changes form a path of the status graph, each of them was recorded in the
      history in that order, everything recorded is an edge or no change, and when no order write failed
      after its history write, following the history gives the stored status. */
  lemma WriteAheadAudit(t: Slice)
    requires Reachable(t)
    ensures Path(t.changes, t.order.status)
    ensures Subsequence(t.changes, Edges(t.log))
    ensures LegalLog(t.log)
    ensures !t.orphaned ==> Replay(t.log) == Some(t.order.status)
  {
    hide Reachable;
    ReachableInv(t);
  }

  /** Each step records the status that was stored as the old one. */
  lemma EntriesRecordTheStoredStatus(s: Slice, step: Step)
    requires Reachable(s) && Enabled(s, step)
    ensures s.log <= Do(s, step).log && |Do(s, step).log| <= |s.log| + 1
    ensures |Do(s, step).log| > |s.log| ==> SoundEntry(s.order, Do(s, step).log[|s.log|])
  {
    hide Advance, Respond, Delete, CustomerDeleted, Webhook, RetryPayment, UpdateOrder, Consume, Recover;
    hide Reachable;
    ReachableInv(s);
    var m := StepRecords(s, step);
    var e := EffectOf(s.order, step);
    if e.entries != [] {
      assert Do(s, step).log[|s.log|] == e.entries[0] && e.entries[0] in e.entries;
    }
  }

  // --- Bounds and ends ---

  /** A run with k payment retries changes the status at most 8 + 2k times, and as long as it is not canceled
      the number of changes is exactly told by the status. */
  lemma RunBound(t: Slice)
    requires Reachable(t)
    ensures |t.changes| <= 8 + 2 * t.retries
    ensures t.order.status != Canceled ==> |t.changes| == Rank(t.order.status) + 2 * t.retries
  {
    hide Reachable;
    ReachableInv(t);
  }

  /** The closing time is there exactly from completion or an early end on; it is never rewritten, and the
      final statuses are never left. */
  lemma {:induction false} ClosingIsFinal(s: Slice, run: seq<Step>, t: Slice)
    requires Reachable(s) && Leads(s, run, t)
    ensures Inv(t)
    ensures t.order.closedAt.Some? <==> PastInProgress(t.order.status)
    ensures s.order.closedAt.Some? ==> t.order.closedAt == s.order.closedAt
    ensures IsFinal(s.order.status) ==> t.order.status == s.order.status
    decreases |run|
  {
    hide Advance, Respond, Delete, CustomerDeleted, Webhook, RetryPayment, UpdateOrder, Consume, Recover;
    ReachableInv(s);
    if run != [] {
      var init, last := run[..|run| - 1], run[|run| - 1];
      var u := LastStep(s, run, t);
      ClosingIsFinal(s, init, u);
      StepKeepsInv(u, last);
      var m := StepRecords(u, last);
      MoveCloses(u.order, m, t.order, last.now);
    }
  }

  lemma MoveCloses(o: Order, m: Move, o': Order, now: Time)
    requires Coherent(o) && PairOk(o) && Moved(o, m, o', now)
    ensures o.closedAt.Some? ==> o'.closedAt == o.closedAt
    ensures IsFinal(o.status) ==> o'.status == o.status
  {
  }

  /** In every reachable state the saga fields are there exactly while a saga is in flight, so that the choice
      of a target by operation is never made, and from AWAITING_PAYMENT on the payment fields are there. */
  lemma FieldCoherence(t: Slice)
    requires Reachable(t)
    ensures t.order.InFlight() <==> t.order.sagaId.Some?
    ensures t.order.InFlight() <==> t.order.target.Some?
    ensures t.order.status in {AwaitingPayment, PaymentRejected, Paid, Delivered} ==>
      NonEmptyText(t.order.preferenceId) && NonEmptyText(t.order.paymentUrl)
    ensures t.order.paymentId.Some? ==> t.order.status in {Paid, Delivered, Canceled}
  {
    hide Reachable;
    ReachableInv(t);
  }

  // --- No saga is lost ---

  /** With queues that lose nothing, a saga in flight that was ever asked for has a request or an answer
      waiting; and a restart whose publication succeeds has asked for every saga in flight. */
  lemma NoSagaIsLost(t: Slice, now: Time)
    requires Reachable(t) && t.order.InFlight()
    ensures t.order.sagaId.Some?
    ensures t.order.sagaId.value in t.published ==> Pending(t, t.order.sagaId.value)
    ensures var after := Do(t, Step(ServiceRestarted, Faults(true, true, true), now));
      && after.order == t.order
      && exists r | r in after.requests :: r.sagaId == t.order.sagaId.value && r.orderId == t.order.id
  {
    hide Reachable;
    ReachableInv(t);
    var after := Do(t, Step(ServiceRestarted, Faults(true, true, true), now));
    var e := Recover(t.order, Faults(true, true, true));
    assert e.published[0] in after.requests;
  }

  /** An answer leaves its queue only when its saga is not, or no longer, the one in flight. */
  lemma AcknowledgedMeansDone(s: Slice, step: Step, answer: Answer)
    requires Enabled(s, step)
    requires Do(s, step).answers[answer] < s.answers[answer]
    ensures step.event.AnswerDelivered? && step.event.answer == answer
    ensures Do(s, step).order.Current() != Some(answer.sagaId)
  {
    hide Advance, Respond, Delete, CustomerDeleted, Webhook, RetryPayment, UpdateOrder, Consume, Recover;
    if step.event.AnswerDelivered? && EffectOf(s.order, step).error.None? {
      ConsumedIsNotCurrent(s.order, step.event.answer, step.now, step.faults);
    }
  }

  // --- Edits ---

  /** The edit history is exact: when all quantities and prices are Unicode scalar values, an edit of the items
      that goes through is recorded as a change exactly when the multiset of item contents is another one. */
  lemma EditHistoryIsExact(s: Slice, edit: Edit, ids: seq<string>, f: Faults)
    requires Reachable(s) && edit.items.Some? && UpdateOrder(s.order, edit, ids, f).error.None?
    requires EditItems(s.order, edit).Ok?
    requires CleanReferences(s.order.items) && InRange(s.order.items)
    requires CleanReferences(EditItems(s.order, edit).value) && InRange(EditItems(s.order, edit).value)
    ensures var e := UpdateOrder(s.order, edit, ids, f);
      && |e.entries| == 1
      && (e.entries[0].itemsChanged <==>
            multiset(Contents(Active(s.order.items))) != multiset(Contents(Active(e.order.items))))
  {
    hide Reachable;
    ReachableInv(s);
    var items := EditItems(s.order, edit).value;
    EditsStaySound(s.order, edit, ids);
    ChangeIsContent(s.order.items, items);
    IdentifiedKeepsContents(items, ids);
  }

  lemma {:induction false} IdentifiedKeepsContents(items: seq<Item>, ids: seq<string>)
    ensures Contents(Active(Identified(items, ids))) == Contents(Active(items))
  {
    if items != [] {
      var x := if items[0].id == "" && ids != [] then items[0].(id := ids[0]) else items[0];
      var rest := if items[0].id == "" && ids != [] then ids[1..] else ids;
      IdentifiedKeepsContents(items[1..], rest);
      assert Identified(items, ids) == [x] + Identified(items[1..], rest);
      ContentsOfCons(x, Identified(items[1..], rest));
      ContentsOfCons(items[0], items[1..]);
      assert [items[0]] + items[1..] == items;
    }
  }

  lemma ContentsOfCons(x: Item, items: seq<Item>)
    ensures Contents(Active([x] + items)) == (if x.Deleted() then [] else [ContentOf(x)]) + Contents(Active(items))
  {
  }
}
