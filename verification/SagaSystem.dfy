/**
  One order among everything that can happen to it.

  A `Slice` is the stored order, its history, the messages about it that are in the queues, and history
  variables that only record what happened. Orders share nothing but the queues, and every message names
  its order, so a run of the whole service is, seen from one order, a run of its slice.

  The environment is the worst one the contracts allow: queues deliver in any order and any number of
  times, the stock service may answer one request repeatedly and differently, writes fail at will, and
  the payment provider reports whatever it likes.
*/
module SagaSystem {
  import opened Prelude
  import opened OrderStatus
  import opened Items
  import opened Orders
  import opened Effects
  import opened Moves

  /** How a saga ends: its step was applied, the stock service refused it, or another change dropped it. */
  datatype Outcome = Applied | Declined | Abandoned

  datatype Resolution = Resolution(request: Request, outcome: Outcome)

  datatype Slice = Slice(
    order: Order,
    log: seq<Entry>,
    requests: multiset<Request>,
    answers: multiset<Answer>,
    // history variables
    issued: set<Answer>,               // every answer the stock service ever gave
    performed: seq<Request>,           // the requests it has performed, each saga and operation once
    used: set<string>,                 // every saga id ever stored
    current: Option<Request>,          // the request that the saga in flight stands for
    published: set<string>,            // the saga ids whose request reached the queue
    resolutions: seq<Resolution>,      // how the earlier sagas ended
    changes: seq<(Status, Status)>,    // the status changes stored
    retries: nat,                      // how many of them are payment retries
    refunds: seq<string>,              // the refunds made at our request, by payment
    withdrawn: seq<string>,            // the provider orders cancelled at our request
    notices: set<string>,              // payments the provider reported as refunded
    closingNotice: Option<string>,     // the payment of the report that canceled the order
    misasked: set<string>,             // sagas asked for again in a status in which recovery errs
    orphaned: bool)                    // a history entry was written without its order

  datatype Event =
    | AdvanceCalled(saga: string, provider: Option<PaymentOrder>)
    | AuthorizationAnswered(caller: Caller, approved: bool, observation: Option<string>, saga: string)
    | DeleteCalled(notes: Option<string>, saga: string, cancelOk: bool, refundOk: bool)
    | CustomerRemoved(notes: Option<string>, saga: string, refundOk: bool)
    | WebhookReceived(payment: string, reported: PaymentStatus)
    | RetryCalled(provider: Option<PaymentOrder>)
    | OrderEdited(edit: Edit, ids: seq<string>)
    | AnswerDelivered(answer: Answer, ackOk: bool)
    | ServiceRestarted
    | StockAnswered(request: Request, answer: Answer, again: bool)
    | AnswerRepeated(answer: Answer)

  datatype Step = Step(event: Event, faults: Faults, now: Time)

  /** The effect of a step on the stored order; the queues and the stock service leave it alone. */
  function EffectOf(o: Order, step: Step): Effect {
    match step.event
    case AdvanceCalled(saga, provider) => Advance(o, saga, provider, step.now, step.faults)
    case AuthorizationAnswered(caller, approved, observation, saga) =>
      Respond(o, caller, approved, observation, saga, step.now, step.faults)
    case DeleteCalled(notes, saga, _, refundOk) => Delete(o, notes, saga, refundOk, step.now, step.faults)
    case CustomerRemoved(notes, saga, refundOk) => CustomerDeleted(o, notes, saga, refundOk, step.now, step.faults)
    case WebhookReceived(payment, reported) => Webhook(o, payment, reported, step.now, step.faults)
    case RetryCalled(provider) => RetryPayment(o, provider, step.now, step.faults)
    case OrderEdited(edit, ids) => UpdateOrder(o, edit, ids, step.faults)
    case AnswerDelivered(answer, _) => Consume(o, answer, step.now, step.faults)
    case ServiceRestarted => Recover(o, step.faults)
    case StockAnswered(_, _, _) => Ignored(o)
    case AnswerRepeated(_) => Ignored(o)
  }

  /** The saga id a step would store if it started a saga. */
  function Offered(event: Event): Option<string> {
    match event
    case AdvanceCalled(saga, _) => Some(saga)
    case AuthorizationAnswered(_, _, _, saga) => Some(saga)
    case DeleteCalled(_, saga, _, _) => Some(saga)
    case CustomerRemoved(_, saga, _) => Some(saga)
    case _ => None
  }

  predicate Echoes(answer: Answer, request: Request) {
    answer.sagaId == request.sagaId && answer.orderId == request.orderId && answer.operation == request.operation
  }

  /** Saga ids are fresh, and only messages that are there are delivered or answered. */
  predicate Enabled(s: Slice, step: Step) {
    && (Offered(step.event).Some? ==> Offered(step.event).value !in s.used)
    && match step.event
       case AnswerDelivered(answer, _) => answer in s.answers
       case StockAnswered(request, answer, _) => request in s.requests && Echoes(answer, request)
       case AnswerRepeated(answer) => answer in s.issued
       case _ => true
  }

  /** How a saga that is no longer current after the step has ended. */
  function OutcomeOf(event: Event): Outcome {
    match event
    case AnswerDelivered(Succeeded(_, _, _), _) => Applied
    case AnswerDelivered(Failed(_, _, _, _), _) => Declined
    case _ => Abandoned
  }

  /** The statuses in which recovery takes a cancellation for another one than was started. */
  predicate RecoveryErrs(s: Status) {
    s in {AwaitingPayment, PaymentRejected, Delivered, Canceled}
  }

  /** Stores an effect and records it in the history variables. */
  function Absorb(s: Slice, e: Effect, outcome: Outcome): Slice {
    var o, o' := s.order, e.order;
    s.(order := o',
       log := s.log + e.entries,
       used := if e.begun.Some? then s.used + {e.begun.value.sagaId} else s.used,
       current := if e.begun.Some? then e.begun
                  else if o'.Current() != o.Current() then None else s.current,
       published := s.published + (set r | r in e.published :: r.sagaId),
       resolutions := if s.current.Some? && o'.Current() != o.Current()
                      then s.resolutions + [Resolution(s.current.value, outcome)] else s.resolutions,
       changes := if o'.status != o.status then s.changes + [(o.status, o'.status)] else s.changes,
       retries := if o.status == PaymentRejected && o'.status == AwaitingPayment then s.retries + 1 else s.retries,
       refunds := s.refunds + e.refunds,
       misasked := s.misasked +
         (if e.begun.None? && RecoveryErrs(o.status) then set r | r in e.published :: r.sagaId else {}),
       orphaned := s.orphaned || (e.entries != [] && e.error.Some?))
  }

  // What an event with the given effect does to the queues.

  function RequestsAfter(requests: multiset<Request>, e: Effect, event: Event): multiset<Request> {
    if event.StockAnswered? then (if event.again then requests else requests - multiset{event.request})
    else requests + multiset(e.published)
  }

  /** An answer leaves the queue only when its handler reported no error. */
  function AnswersAfter(answers: multiset<Answer>, e: Effect, event: Event): multiset<Answer> {
    match event
    case AnswerDelivered(answer, ackOk) => if e.error.None? && ackOk then answers - multiset{answer} else answers
    case StockAnswered(_, answer, _) => answers + multiset{answer}
    case AnswerRepeated(answer) => answers + multiset{answer}
    case _ => answers
  }

  function IssuedAfter(issued: set<Answer>, event: Event): set<Answer> {
    if event.StockAnswered? then issued + {event.answer} else issued
  }

  predicate HasPerformed(performed: seq<Request>, saga: string, op: Operation) {
    exists i | 0 <= i < |performed| :: performed[i].sagaId == saga && performed[i].operation == op
  }

  /** The stock service performs a request that it answers with success, unless it has performed that operation for
      that saga before: it then repeats its answer only. */
  function PerformedAfter(performed: seq<Request>, event: Event): seq<Request> {
    if event.StockAnswered? && event.answer.Succeeded?
       && !HasPerformed(performed, event.request.sagaId, event.request.operation)
    then performed + [event.request] else performed
  }

  /** The provider order that the event has the provider cancel, if any. */
  function Withdrawn(o: Order, event: Event): seq<string> {
    if event.DeleteCalled? && event.cancelOk then CancelledAtProvider(o) else []
  }

  predicate ReportsRefund(event: Event) {
    event.WebhookReceived? && event.reported == Refunded
  }

  /** The slice after an event with the given effect on the order. */
  function After(s: Slice, e: Effect, event: Event): Slice {
    Absorb(s, e, OutcomeOf(event)).(
      requests := RequestsAfter(s.requests, e, event),
      answers := AnswersAfter(s.answers, e, event),
      issued := IssuedAfter(s.issued, event),
      performed := PerformedAfter(s.performed, event),
      withdrawn := s.withdrawn + Withdrawn(s.order, event),
      notices := if ReportsRefund(event) then s.notices + {event.payment} else s.notices,
      closingNotice := if ReportsRefund(event) && e.order.status != s.order.status then Some(event.payment)
                       else s.closingNotice)
  }

  function Do(s: Slice, step: Step): Slice
    requires Enabled(s, step)
  {
    After(s, EffectOf(s.order, step), step.event)
  }

  /** An order as it is first stored. */
  ghost predicate Starting(o: Order) {
    && Sound(o.items)
    && o.status == Received && o.sagaStatus == SagaIdle
    && o.sagaId.None? && o.target.None? && o.notes.None?
    && o.preferenceId.None? && o.paymentId.None? && o.paymentUrl.None?
    && o.closedAt.None? && o.deletedAt.None?
  }

  function FirstSlice(o: Order): Slice {
    Slice(o, [], multiset{}, multiset{}, {}, [], {}, None, {}, [], [], 0, [], [], {}, None, {}, false)
  }

  ghost predicate Init(s: Slice) {
    Starting(s.order) && s == FirstSlice(s.order)
  }

  ghost predicate Takes(s: Slice, step: Step, t: Slice) {
    Enabled(s, step) && t == Do(s, step)
  }

  /** The states passed through by a run that takes the given steps, one after the other. */
  ghost predicate Passes(states: seq<Slice>, run: seq<Step>) {
    |states| == |run| + 1 && forall i | 0 <= i < |run| :: Takes(states[i], run[i], states[i + 1])
  }

  /** The run leads from s to t. */
  ghost predicate Leads(s: Slice, run: seq<Step>, t: Slice) {
    exists states :: Passes(states, run) && states[0] == s && states[|run|] == t
  }

  /** Some run from some first stored order leads here. */
  ghost predicate Reachable(t: Slice) {
    exists s: Slice, run: seq<Step> :: Init(s) && Leads(s, run, t)
  }

  lemma NoSteps(s: Slice)
    ensures Leads(s, [], s)
  {
    assert Passes([s], []);
  }

  lemma OneMoreStep(s: Slice, run: seq<Step>, t: Slice, step: Step)
    requires Leads(s, run, t) && Enabled(t, step)
    ensures Leads(s, run + [step], Do(t, step))
  {
    hide Enabled, Do;
    var states :| Passes(states, run) && states[0] == s && states[|run|] == t;
    assert Passes(states + [Do(t, step)], run + [step]);
  }

  lemma LastStep(s: Slice, run: seq<Step>, t: Slice) returns (u: Slice)
    requires Leads(s, run, t) && run != []
    ensures Leads(s, run[..|run| - 1], u) && Takes(u, run[|run| - 1], t)
  {
    hide Takes;
    var states :| Passes(states, run) && states[0] == s && states[|run|] == t;
    u := states[|run| - 1];
    assert Passes(states[..|run|], run[..|run| - 1]);
  }

  lemma ReachableStep(s: Slice, step: Step)
    requires Reachable(s) && Enabled(s, step)
    ensures Reachable(Do(s, step))
  {
    hide Leads, Enabled, Do;
    var s0: Slice, run: seq<Step> :| Init(s0) && Leads(s0, run, s);
    OneMoreStep(s0, run, s, step);
  }

  /** Every enabled step makes a move, and the event tells which moves are possible. */
  lemma StepMoves(s: Slice, step: Step) returns (m: Move)
    requires Enabled(s, step)
    requires s.order.InFlight() ==> s.order.target.Some?
    ensures Matches(s.order, m, EffectOf(s.order, step), step.now)
    ensures m.Begin? ==> m.request.sagaId !in s.used
    ensures m.Settle? ==> OutcomeOf(step.event) == Applied
    ensures m.Fail? ==> OutcomeOf(step.event) == Declined
    ensures m.Settle? || m.Fail? ==> step.event.AnswerDelivered? && s.order.CanProcessSaga(step.event.answer.sagaId)
    ensures OutcomeOf(step.event) != Abandoned ==>
      m == Stay || m == if OutcomeOf(step.event) == Applied then Settle else Fail
    ensures m == Shift(Canceled) ==> step.event.WebhookReceived? && step.event.reported == Refunded
    ensures step.event.WebhookReceived? && step.event.reported == Refunded ==> m in {Stay, Shift(Canceled)}
    ensures step.event.StockAnswered? || step.event.AnswerRepeated? || step.event.ServiceRestarted? ==> m == Stay
    ensures m.Begin? ==> Offered(step.event) == Some(m.request.sagaId)
    ensures m.Confirm? ==> step.event.WebhookReceived?
    ensures m.Revise? ==> step.event.OrderEdited?
    ensures m == Shift(Paid) || m == Shift(OrderStatus.Delivered) ==> step.event.AdvanceCalled?
  {
    hide Advance, Respond, Delete, Webhook, RetryPayment, UpdateOrder, Consume, Recover;
    var o, now, f := s.order, step.now, step.faults;
    match step.event
    case AdvanceCalled(saga, provider) => m := AdvanceMoves(o, saga, provider, now, f);
    case AuthorizationAnswered(caller, approved, observation, saga) =>
      m := RespondMoves(o, caller, approved, observation, saga, now, f);
    case DeleteCalled(notes, saga, _, refundOk) => m := DeleteMoves(o, notes, saga, refundOk, now, f);
    case CustomerRemoved(notes, saga, refundOk) =>
      if o.InFlight() || !OpenForCustomerDeletion(o.status) {
        m := Stay;
      } else {
        m := DeleteMoves(o, notes, saga, refundOk, now, f);
      }
    case WebhookReceived(payment, reported) => m := WebhookMoves(o, payment, reported, now, f);
    case RetryCalled(provider) => m := RetryMoves(o, provider, now, f);
    case OrderEdited(edit, ids) => m := UpdateMoves(o, edit, ids, now, f);
    case AnswerDelivered(answer, _) => m := ConsumeMoves(o, answer, now, f);
    case ServiceRestarted => m := Stay; RecoverMoves(o, now, f);
    case StockAnswered(_, _, _) => m := Stay;
    case AnswerRepeated(_) => m := Stay;
  }
}
