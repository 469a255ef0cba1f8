/** What every step keeps. Each invariant is one named predicate with one lemma about its preservation. */
module SagaInvariants {
  import opened Prelude
  import opened OrderStatus
  import opened Items
  import opened Orders
  import opened Effects
  import opened Moves
  import opened SagaSystem

  // --- The fields of the stored order ---

  predicate NonEmptyText(s: Option<string>) { s.Some? && s.value != "" }

  /** The saga fields are there exactly while a saga is in flight. */
  predicate SagaFields(o: Order) {
    && (o.InFlight() <==> o.sagaId.Some?)
    && (o.InFlight() <==> o.target.Some?)
    && (o.notes.Some? ==> o.InFlight())
    && (o.sagaId.Some? ==> o.sagaId.value != "")
    && o.deletedAt.None?
  }

  /** An order is closed exactly once it is past IN_PROGRESS. */
  predicate ClosingField(o: Order) {
    o.closedAt.Some? <==> PastInProgress(o.status)
  }

  /** The payment fields are there from the payment statuses on. */
  predicate PaymentFields(o: Order) {
    && (o.status in {AwaitingPayment, PaymentRejected, Paid, Delivered} ==>
          NonEmptyText(o.preferenceId) && NonEmptyText(o.paymentUrl))
    && (o.paymentId.Some? ==> o.paymentId.value != "" && o.status in {Paid, Delivered, Canceled})
  }

  predicate Coherent(o: Order) { SagaFields(o) && ClosingField(o) && PaymentFields(o) }

  /** The pairs of status and target that an order with a saga in flight can be in. */
  predicate InFlightPair(s: Status, target: Status) {
    match target
    case PendingAuthorization => s == Diagnosing
    case Completed => s == InProgress
    case AuthorizationDenied => s in {PendingAuthorization, Authorized, InProgress}
    case Canceled => s !in {Received, Diagnosing, AuthorizationDenied}
    case _ => false
  }

  predicate PairOk(o: Order) {
    o.InFlight() && o.target.Some? ==> InFlightPair(o.status, o.target.value)
  }

  /** The operation the saga in flight was started with, read off the pair. */
  function StartedOperation(s: Status, target: Status): Operation {
    match target
    case PendingAuthorization => Reserve
    case Completed => ReservedDecrease
    case AuthorizationDenied => CancelReserved
    case Canceled => if s in {PendingAuthorization, Authorized, InProgress} then CancelReserved else CancelConfirmed
    case _ => OpNone
  }

  // --- The saga in flight ---

  /** The recorded request is the one of the saga in flight: same id, the operation its start had, and, once
      items are frozen, the product lines of the order. */
  predicate Tracked(s: Slice) {
    && (s.current.Some? <==> s.order.InFlight())
    && (s.current.Some? && s.order.InFlight() && s.order.target.Some? ==>
          && s.order.sagaId == Some(s.current.value.sagaId)
          && s.current.value.operation == StartedOperation(s.order.status, s.order.target.value)
          && s.current.value.lines != []
          && (s.order.status != Diagnosing ==> s.current.value.lines == s.order.Lines()))
  }

  /** Every stored saga id is the current one or has ended, once, and stays so. */
  ghost predicate Accounted(s: Slice) {
    && (forall i | 0 <= i < |s.resolutions| :: s.resolutions[i].request.sagaId in s.used)
    && (forall id | id in s.used ::
          || (s.current.Some? && s.current.value.sagaId == id)
          || (exists i | 0 <= i < |s.resolutions| :: s.resolutions[i].request.sagaId == id))
    && (forall i, j | 0 <= i < j < |s.resolutions| ::
          s.resolutions[i].request.sagaId != s.resolutions[j].request.sagaId)
    && (s.current.Some? ==>
          && s.current.value.sagaId in s.used
          && forall i | 0 <= i < |s.resolutions| :: s.resolutions[i].request.sagaId != s.current.value.sagaId)
  }

  // --- The language of applied operations ---

  function AppliedRequests(rs: seq<Resolution>): seq<Request> {
    if rs == [] then []
    else
      var rest := AppliedRequests(rs[..|rs| - 1]);
      if rs[|rs| - 1].outcome == Applied then rest + [rs[|rs| - 1].request] else rest
  }

  function Operations(rs: seq<Request>): (ops: seq<Operation>)
    ensures |ops| == |rs|
    ensures forall i | 0 <= i < |rs| :: ops[i] == rs[i].operation
  {
    if rs == [] then [] else [rs[0].operation] + Operations(rs[1..])
  }

  function Ops(s: Slice): seq<Operation> { Operations(AppliedRequests(s.resolutions)) }

  /** Which operations have been applied, by status: with product lines every step of the way has been
      taken, without them (`bare`) it may have been skipped. `notice` says that the order was canceled on
      the provider's report of a refund, the one cancellation that undoes nothing in stock. */
  predicate Says(status: Status, ops: seq<Operation>, bare: bool, inFlight: bool, notice: bool) {
    match status
    case Received | Diagnosing => ops == []
    case PendingAuthorization | Authorized | InProgress =>
      ops == [Reserve] || (ops == [] && bare)
    case AuthorizationDenied =>
      ops == [Reserve, CancelReserved] || ((ops == [] || ops == [Reserve]) && bare)
    case Completed | AwaitingPayment | PaymentRejected | Paid | Delivered =>
      ops == [Reserve, ReservedDecrease] || ((ops == [] || ops == [Reserve]) && bare)
    case Canceled =>
      && (ops == [] || ops == [Reserve] || ops == [Reserve, CancelReserved]
          || ops == [Reserve, ReservedDecrease] || ops == [Reserve, ReservedDecrease, CancelConfirmed])
      && (ops == [Reserve] ==> bare)
      && (ops == [Reserve, ReservedDecrease] && !bare ==> notice)
      && (inFlight ==> ops == [Reserve, ReservedDecrease] && !bare)
  }

  predicate Spoken(s: Slice) {
    Says(s.order.status, Ops(s), s.order.Lines() == [], s.order.InFlight(), s.closingNotice.Some?)
  }

  /** Each applied request but the reservation asked for the lines the order has. */
  predicate Frozen(s: Slice) {
    var applied := AppliedRequests(s.resolutions);
    forall i | 0 < i < |applied| :: applied[i].lines == s.order.Lines()
  }

  // --- Money ---

  predicate MoneySafe(s: Slice) {
    && (s.closingNotice.Some? ==> s.closingNotice.value in s.notices)
    && (s.order.paymentId.Some? ==>
          && (s.order.InFlight() ==> s.order.paymentId.value in s.refunds)
          && (s.order.status == Canceled ==> s.order.paymentId.value in s.refunds || s.closingNotice.Some?))
  }

  // --- Audit ---

  function Edges(log: seq<Entry>): seq<(Status, Status)> {
    if log == [] then []
    else
      var rest, e := Edges(log[..|log| - 1]), log[|log| - 1];
      if e.change.Some? && e.change.value.0 != e.change.value.1 then rest + [e.change.value] else rest
  }

  /** xs can be read off ys by leaving entries out. */
  predicate Subsequence<T(==)>(xs: seq<T>, ys: seq<T>)
    decreases |ys|
  {
    if xs == [] then true
    else if ys == [] then false
    else
      || Subsequence(xs, ys[..|ys| - 1])
      || (xs[|xs| - 1] == ys[|ys| - 1] && Subsequence(xs[..|xs| - 1], ys[..|ys| - 1]))
  }

  /** The stored changes form a path of the graph from RECEIVED to the given status. */
  predicate Path(changes: seq<(Status, Status)>, s: Status) {
    if changes == [] then s == Received
    else
      var last := changes[|changes| - 1];
      last.1 == s && CanTransitionTo(last.0, last.1) && Path(changes[..|changes| - 1], last.0)
  }

  /** Following the history from RECEIVED, entry by entry, as long as each continues where the last ended. */
  function Replay(log: seq<Entry>): Option<Status> {
    if log == [] then Some(Received)
    else
      var before, e := Replay(log[..|log| - 1]), log[|log| - 1];
      if e.change.None? then before
      else if before == Some(e.change.value.0) then Some(e.change.value.1)
      else None
  }

  predicate Audited(s: Slice) {
    && Path(s.changes, s.order.status)
    && Subsequence(s.changes, Edges(s.log))
    && (!s.orphaned ==> Replay(s.log) == Some(s.order.status))
  }

  ghost predicate LegalLog(log: seq<Entry>) {
    forall i | 0 <= i < |log| && log[i].change.Some? ::
      log[i].change.value.0 == log[i].change.value.1 || CanTransitionTo(log[i].change.value.0, log[i].change.value.1)
  }

  predicate Bounded(s: Slice) {
    if s.order.status == Canceled then |s.changes| <= Rank(Canceled) + 2 * s.retries
    else |s.changes| == Rank(s.order.status) + 2 * s.retries
  }

  // --- Messages ---

  /** A request or an answer of this saga is in a queue. */
  ghost predicate Pending(s: Slice, saga: string) {
    || (exists r | r in s.requests :: r.sagaId == saga)
    || (exists a | a in s.answers :: a.sagaId == saga)
  }

  ghost predicate NotLost(s: Slice) {
    && s.published <= s.used
    && (s.current.Some? && s.current.value.sagaId in s.published ==> Pending(s, s.current.value.sagaId))
  }

  /** One live item per type and reference, positive quantities, and every request that waits in the queue asks
      for each product at most once and for at least one unit. */
  ghost predicate SoundItems(s: Slice) {
    && Sound(s.order.items)
    && (forall r | r in s.requests :: WellFormedLines(r.lines))
  }

  ghost predicate Inv(s: Slice) {
    && SoundItems(s)
    && Coherent(s.order)
    && PairOk(s.order)
    && Tracked(s)
    && Accounted(s)
    && Spoken(s)
    && Frozen(s)
    && MoneySafe(s)
    && Audited(s)
    && LegalLog(s.log)
    && Bounded(s)
    && NotLost(s)
  }

  lemma InitHolds(s: Slice)
    requires Init(s)
    ensures Inv(s)
  {
  }

  // --- Preservation ---

  /** The saga in flight ends with this move. */
  predicate Ends(s: Slice, m: Move) {
    s.current.Some? && (m.AwaitPay? || m.Confirm? || m.Reject? || m.Settle? || m.Fail?)
  }

  function OutcomeOfMove(m: Move): Outcome {
    match m
    case Settle => Applied
    case Fail => Declined
    case _ => Abandoned
  }

  /** What a step records of the sagas and of the order, in terms of the move it makes. */
  ghost predicate RecordedSagas(s: Slice, m: Move, e: Effect, t: Slice) {
    && t.order == e.order
    && t.used == (if m.Begin? then s.used + {m.request.sagaId} else s.used)
    && t.current == (if m.Begin? then Some(m.request) else if Ends(s, m) then None else s.current)
    && t.resolutions ==
      (if Ends(s, m) then s.resolutions + [Resolution(s.current.value, OutcomeOfMove(m))] else s.resolutions)
    && (t.closingNotice.Some? <==> s.closingNotice.Some? || m == Shift(Canceled))
    && t.misasked == s.misasked +
      (if !m.Begin? && RecoveryErrs(s.order.status) then set r | r in e.published :: r.sagaId else {})
  }

  /** What a step records of the history and of the money. */
  ghost predicate RecordedBooks(s: Slice, m: Move, e: Effect, t: Slice) {
    && t.order == e.order
    && t.log == s.log + e.entries
    && t.changes == (if t.order.status != s.order.status then s.changes + [(s.order.status, t.order.status)]
      else s.changes)
    && t.retries == (if m.AwaitPay? && s.order.status == PaymentRejected then s.retries + 1 else s.retries)
    && t.refunds == s.refunds + e.refunds
    && s.notices <= t.notices
    && (t.closingNotice == s.closingNotice || (t.closingNotice.Some? && t.closingNotice.value in t.notices))
    && (m == Shift(Canceled) ==> t.closingNotice.Some?)
    && (t.orphaned == (s.orphaned || (e.entries != [] && e.error.Some?)))
  }

  ghost predicate Recorded(s: Slice, m: Move, e: Effect, t: Slice) {
    RecordedSagas(s, m, e, t) && RecordedBooks(s, m, e, t)
  }

  /** The lines change only by an edit, and a step ends its saga exactly when its move says so. */
  lemma MoveFacts(s: Slice, m: Move, o': Order, now: Time)
    requires Coherent(s.order) && PairOk(s.order) && Tracked(s) && Moved(s.order, m, o', now)
    ensures !m.Revise? ==> o'.items == s.order.items
    ensures Ends(s, m) <==> s.current.Some? && o'.Current() != s.order.Current()
    ensures m.Begin? ==> s.current.None? && o'.Current() == Some(m.request.sagaId)
    ensures !m.Begin? && !Ends(s, m) ==> o'.Current() == s.order.Current()
    ensures s.order.status == PaymentRejected && o'.status == AwaitingPayment <==>
      m.AwaitPay? && s.order.status == PaymentRejected
  {
  }

  /** Storing an effect that makes a move records that move, except for a provider notice. */
  lemma AbsorbRecords(s: Slice, m: Move, e: Effect, outcome: Outcome, now: Time)
    requires Coherent(s.order) && PairOk(s.order) && Tracked(s) && Matches(s.order, m, e, now)
    requires Ends(s, m) ==> outcome == OutcomeOfMove(m)
    requires m != Shift(Canceled)
    ensures Recorded(s, m, e, Absorb(s, e, outcome))
  {
    MoveFacts(s, m, e.order, now);
    assert RecordedSagas(s, m, e, Absorb(s, e, outcome));
  }

  lemma AbsorbNotice(s: Slice, e: Effect, payment: string, now: Time)
    requires Coherent(s.order) && PairOk(s.order) && Tracked(s) && Matches(s.order, Shift(Canceled), e, now)
    ensures Recorded(s, Shift(Canceled), e, After(s, e, WebhookReceived(payment, Refunded)))
  {
    MoveFacts(s, Shift(Canceled), e.order, now);
  }

  /** An event whose effect makes a move records that move. */
  lemma AfterRecords(s: Slice, m: Move, e: Effect, event: Event, now: Time)
    requires Coherent(s.order) && PairOk(s.order) && Tracked(s) && Matches(s.order, m, e, now)
    requires Ends(s, m) ==> OutcomeOf(event) == OutcomeOfMove(m)
    requires m == Shift(Canceled) <==> event.WebhookReceived? && event.reported == Refunded && m != Stay
    ensures Recorded(s, m, e, After(s, e, event))
  {
    if m == Shift(Canceled) {
      AbsorbNotice(s, e, event.payment, now);
    } else {
      AbsorbRecords(s, m, e, OutcomeOf(event), now);
      assert event.WebhookReceived? && event.reported == Refunded ==> m == Stay;
    }
  }

  lemma StepRecords(s: Slice, step: Step) returns (m: Move)
    requires Inv(s) && Enabled(s, step)
    ensures Matches(s.order, m, EffectOf(s.order, step), step.now)
    ensures Recorded(s, m, EffectOf(s.order, step), Do(s, step))
    ensures m.Begin? ==> m.request.sagaId !in s.used
    ensures m.Settle? ==> step.event.AnswerDelivered? && step.event.answer.Succeeded?
    ensures m.Fail? ==> step.event.AnswerDelivered? && step.event.answer.Failed?
    ensures m.Settle? || m.Fail? ==> s.order.CanProcessSaga(step.event.answer.sagaId)
    ensures step.event.StockAnswered? ==> m == Stay
    ensures step.event.AnswerDelivered? ==> !m.Begin?
    ensures m.Confirm? ==> step.event.WebhookReceived?
    ensures m.Revise? ==> step.event.OrderEdited?
    ensures m == Shift(Paid) || m == Shift(OrderStatus.Delivered) ==> step.event.AdvanceCalled?
  {
    hide Advance, Respond, Delete, CustomerDeleted, Webhook, RetryPayment, UpdateOrder, Consume, Recover;
    m := StepMoves(s, step);
    AfterRecords(s, m, EffectOf(s.order, step), step.event, step.now);
  }

  lemma KeepsSagaFields(o: Order, m: Move, o': Order, now: Time)
    requires SagaFields(o) && PairOk(o) && Moved(o, m, o', now)
    ensures SagaFields(o') && PairOk(o')
  {
  }

  lemma KeepsClosingField(o: Order, m: Move, o': Order, now: Time)
    requires SagaFields(o) && PairOk(o) && ClosingField(o) && Moved(o, m, o', now)
    ensures ClosingField(o')
  {
  }

  lemma KeepsPaymentFields(o: Order, m: Move, o': Order, now: Time)
    requires SagaFields(o) && PairOk(o) && PaymentFields(o) && Moved(o, m, o', now)
    ensures PaymentFields(o')
  {
  }

  lemma KeepsCoherent(o: Order, m: Move, o': Order, now: Time)
    requires Coherent(o) && PairOk(o) && Moved(o, m, o', now)
    ensures Coherent(o') && PairOk(o')
  {
    hide Moved, SagaFields, ClosingField, PaymentFields, PairOk;
    KeepsSagaFields(o, m, o', now);
    KeepsClosingField(o, m, o', now);
    KeepsPaymentFields(o, m, o', now);
  }

  lemma KeepsTracked(s: Slice, m: Move, e: Effect, t: Slice, now: Time)
    requires Coherent(s.order) && PairOk(s.order) && Tracked(s)
    requires Matches(s.order, m, e, now) && Recorded(s, m, e, t)
    ensures Tracked(t)
  {
    KeepsCoherent(s.order, m, t.order, now);
    MoveFacts(s, m, t.order, now);
  }

  lemma KeepsAccounted(s: Slice, m: Move, e: Effect, t: Slice)
    requires Accounted(s) && Recorded(s, m, e, t)
    requires m.Begin? ==> m.request.sagaId !in s.used && s.current.None?
    ensures Accounted(t)
  {
    if Ends(s, m) {
      var r := Resolution(s.current.value, OutcomeOfMove(m));
      assert t.resolutions[|s.resolutions|] == r;
      assert forall i | 0 <= i < |s.resolutions| :: t.resolutions[i] == s.resolutions[i];
    }
  }

  lemma {:induction false} LastApplied(rs: seq<Resolution>, r: Resolution)
    ensures AppliedRequests(rs + [r]) == AppliedRequests(rs) + (if r.outcome == Applied then [r.request] else [])
  {
  }

  /** How the applied requests grow. */
  lemma AppliedGrow(s: Slice, m: Move, e: Effect, t: Slice)
    requires Recorded(s, m, e, t)
    ensures AppliedRequests(t.resolutions) ==
      AppliedRequests(s.resolutions) + (if m.Settle? && s.current.Some? then [s.current.value] else [])
    ensures Ops(t) == Ops(s) + (if m.Settle? && s.current.Some? then [s.current.value.operation] else [])
  {
    if Ends(s, m) {
      LastApplied(s.resolutions, Resolution(s.current.value, OutcomeOfMove(m)));
    }
  }

  lemma SettlingSays(o: Order, o': Order, ops: seq<Operation>, notice: bool, now: Time)
    requires Coherent(o) && PairOk(o) && Moved(o, Settle, o', now)
    requires o.status != Diagnosing ==> o.Lines() != []
    requires Says(o.status, ops, o.Lines() == [], true, notice)
    ensures Says(o'.status, ops + [StartedOperation(o.status, o.target.value)], o'.Lines() == [], o'.InFlight(), notice)
  {
    var op := StartedOperation(o.status, o.target.value);
    assert [] + [op] == [op];
    assert [Reserve] + [op] == [Reserve, op];
    assert [Reserve, ReservedDecrease] + [op] == [Reserve, ReservedDecrease, op];
  }

  lemma MovingSays(o: Order, m: Move, o': Order, ops: seq<Operation>, notice: bool, now: Time)
    requires Coherent(o) && PairOk(o) && Moved(o, m, o', now) && !m.Settle?
    requires o.InFlight() && o.status != Diagnosing ==> o.Lines() != []
    requires Says(o.status, ops, o.Lines() == [], o.InFlight(), notice)
    ensures Says(o'.status, ops, o'.Lines() == [], o'.InFlight(), notice || m == Shift(Canceled))
  {
    hide Sound, ProductLines, PaymentFields, ClosingField, NonEmptyText;
  }

  lemma KeepsSpoken(s: Slice, m: Move, e: Effect, t: Slice, now: Time)
    requires Coherent(s.order) && PairOk(s.order) && Tracked(s) && Spoken(s)
    requires Matches(s.order, m, e, now) && Recorded(s, m, e, t)
    ensures Spoken(t)
  {
    AppliedGrow(s, m, e, t);
    if m.Settle? {
      SettlingSays(s.order, t.order, Ops(s), s.closingNotice.Some?, now);
    } else {
      MovingSays(s.order, m, t.order, Ops(s), s.closingNotice.Some?, now);
      assert Ops(t) == Ops(s);
    }
  }

  lemma KeepsFrozen(s: Slice, m: Move, e: Effect, t: Slice, now: Time)
    requires Coherent(s.order) && PairOk(s.order) && Tracked(s) && Spoken(s) && Frozen(s)
    requires Matches(s.order, m, e, now) && Recorded(s, m, e, t)
    ensures Frozen(t)
  {
    MoveFacts(s, m, t.order, now);
    AppliedGrow(s, m, e, t);
    assert |Ops(s)| == |AppliedRequests(s.resolutions)|;
  }

  lemma KeepsMoneySafe(s: Slice, m: Move, e: Effect, t: Slice, now: Time)
    requires Coherent(s.order) && PairOk(s.order) && MoneySafe(s)
    requires Matches(s.order, m, e, now) && Recorded(s, m, e, t)
    ensures MoneySafe(t)
  {
  }

  lemma {:induction false} LastEdge(log: seq<Entry>, e: Entry)
    ensures Edges(log + [e]) ==
      Edges(log) + (if e.change.Some? && e.change.value.0 != e.change.value.1 then [e.change.value] else [])
    ensures Replay(log + [e]) ==
      if e.change.None? then Replay(log)
      else if Replay(log) == Some(e.change.value.0) then Some(e.change.value.1)
      else None
  {
  }

  lemma {:induction false} SubsequenceGrows<T>(xs: seq<T>, ys: seq<T>, y: T)
    requires Subsequence(xs, ys)
    ensures Subsequence(xs, ys + [y]) && Subsequence(xs + [y], ys + [y])
  {
    assert (ys + [y])[..|ys|] == ys;
    assert (xs + [y])[..|xs|] == xs;
  }

  lemma PathGrows(changes: seq<(Status, Status)>, s: Status, t: Status)
    requires Path(changes, s) && CanTransitionTo(s, t)
    ensures Path(changes + [(s, t)], t)
  {
  }

  lemma MovesFollowTheGraph(o: Order, m: Move, o': Order, now: Time)
    requires Coherent(o) && PairOk(o) && Moved(o, m, o', now)
    ensures o'.status == o.status || CanTransitionTo(o.status, o'.status)
  {
  }

  lemma KeepsAudited(s: Slice, m: Move, e: Effect, t: Slice, now: Time)
    requires Coherent(s.order) && PairOk(s.order) && Audited(s) && LegalLog(s.log)
    requires Matches(s.order, m, e, now) && Recorded(s, m, e, t)
    ensures Audited(t) && LegalLog(t.log)
  {
    hide Audited, LegalLog, ProductLines, Sound, InferOperation;
    MovesFollowTheGraph(s.order, m, t.order, now);
    if e.entries == [] {
      assert s.log + [] == s.log;
      SameAudit(s, t);
    } else {
      var x := e.entries[0];
      assert e.entries == [x] && x in e.entries;
      OneMoreEntry(s, t, x);
    }
  }

  lemma SameAudit(s: Slice, t: Slice)
    requires Audited(s) && LegalLog(s.log) && t.log == s.log && t.changes == s.changes
    requires t.order.status == s.order.status && (s.orphaned ==> t.orphaned)
    ensures Audited(t) && LegalLog(t.log)
  {
    hide CanTransitionTo;
  }

  /** One more history entry, with or without the change it records. */
  lemma OneMoreEntry(s: Slice, t: Slice, x: Entry)
    requires Audited(s) && LegalLog(s.log) && SoundEntry(s.order, x) && t.log == s.log + [x]
    requires t.order.status == s.order.status || CanTransitionTo(s.order.status, t.order.status)
    requires t.order.status != s.order.status ==> x.change == Some((s.order.status, t.order.status))
    requires t.changes == s.changes +
      if t.order.status != s.order.status then [(s.order.status, t.order.status)] else []
    requires !t.orphaned ==> !s.orphaned && (x.change.Some? ==> x.change.value.1 == t.order.status)
    ensures Audited(t) && LegalLog(t.log)
  {
    hide CanTransitionTo, Path, Subsequence, Edges, Replay;
    LastEdge(s.log, x);
    if x.change.Some? && x.change.value.0 != x.change.value.1 {
      SubsequenceGrows(s.changes, Edges(s.log), x.change.value);
    }
    assert s.changes + [] == s.changes && Edges(s.log) + [] == Edges(s.log);
    if t.order.status != s.order.status {
      PathGrows(s.changes, s.order.status, t.order.status);
    }
  }

  lemma KeepsBounded(s: Slice, m: Move, e: Effect, t: Slice, now: Time)
    requires Coherent(s.order) && PairOk(s.order) && Bounded(s)
    requires Matches(s.order, m, e, now) && Recorded(s, m, e, t)
    ensures Bounded(t)
  {
    hide Sound, ProductLines, PaymentFields, ClosingField, NonEmptyText, RecordedSagas;
  }

  /** A message of a saga stays in the queues until its answer is acknowledged. */
  lemma KeepsPending(s: Slice, e: Effect, event: Event, saga: string)
    requires Pending(s, saga) || exists r | r in e.published :: r.sagaId == saga && !event.StockAnswered?
    requires event.StockAnswered? ==> event.request in s.requests && Echoes(event.answer, event.request)
    requires event.AnswerDelivered? && e.error.None? ==> event.answer.sagaId != saga
    ensures Pending(After(s, e, event), saga)
  {
    if exists r | r in e.published :: r.sagaId == saga && !event.StockAnswered? {
      var r :| r in e.published && r.sagaId == saga && !event.StockAnswered?;
      assert r in After(s, e, event).requests;
    } else if a :| a in s.answers && a.sagaId == saga {
      AnswerStays(s, e, event, a);
    } else {
      var r :| r in s.requests && r.sagaId == saga;
      RequestStays(s, e, event, r);
    }
  }

  lemma AnswerStays(s: Slice, e: Effect, event: Event, a: Answer)
    requires a in s.answers && (event.AnswerDelivered? && e.error.None? ==> event.answer != a)
    ensures a in After(s, e, event).answers
  {
  }

  /** A request leaves the queue only for its answer. */
  lemma RequestStays(s: Slice, e: Effect, event: Event, r: Request)
    requires r in s.requests
    requires event.StockAnswered? ==> event.request in s.requests && Echoes(event.answer, event.request)
    ensures Pending(After(s, e, event), r.sagaId)
  {
  }

  lemma KeepsPublishedUsed(s: Slice, e: Effect, event: Event)
    requires s.published <= s.used <= After(s, e, event).used
    requires e.order.Current().Some? ==> e.order.Current().value in After(s, e, event).used
    requires forall r | r in e.published :: e.order.Current() == Some(r.sagaId)
    ensures After(s, e, event).published <= After(s, e, event).used
  {
    hide Order.Current;
    assert After(s, e, event).published == s.published + (set r | r in e.published :: r.sagaId);
  }

  lemma CurrentIsUsed(s: Slice)
    requires SagaFields(s.order) && Tracked(s) && Accounted(s)
    ensures s.order.Current().Some? ==> s.order.Current().value in s.used
  {
  }

  lemma KeepsNotLost(s: Slice, m: Move, e: Effect, event: Event, now: Time)
    requires Coherent(s.order) && Tracked(s) && Accounted(s) && NotLost(s)
    requires Matches(s.order, m, e, now) && Recorded(s, m, e, After(s, e, event))
    requires m.Begin? ==> m.request.sagaId !in s.used && !event.AnswerDelivered?
    requires event.StockAnswered? ==>
      e.published == [] && event.request in s.requests && Echoes(event.answer, event.request)
    requires event.AnswerDelivered? && e.error.None? ==> e.order.Current() != Some(event.answer.sagaId)
    requires Coherent(e.order) && Tracked(After(s, e, event)) && Accounted(After(s, e, event))
    ensures NotLost(After(s, e, event))
  {
    hide Moved, Pending;
    var t := After(s, e, event);
    CurrentIsUsed(t);
    KeepsPublishedUsed(s, e, event);
    assert t.published == s.published + (set r | r in e.published :: r.sagaId);
    if t.current.Some? && t.current.value.sagaId in t.published {
      var id := t.current.value.sagaId;
      if id in s.published {
        assert t.current == s.current;
      } else {
        assert exists r | r in e.published :: r.sagaId == id && !event.StockAnswered?;
      }
      KeepsPending(s, e, event, id);
    }
  }

  lemma MovesKeepItemsSound(o: Order, m: Move, o': Order, now: Time)
    requires SagaFields(o) && PairOk(o) && Moved(o, m, o', now) && Sound(o.items)
    ensures Sound(o'.items)
  {
    hide Sound;
  }

  lemma KeepsSoundItems(s: Slice, m: Move, e: Effect, event: Event, now: Time)
    requires SoundItems(s) && Coherent(s.order) && PairOk(s.order) && Matches(s.order, m, e, now)
    ensures SoundItems(After(s, e, event))
  {
    hide Sound, Moved, WellFormedLines, SagaFields, ClosingField, PaymentFields, PairOk, After;
    MovesKeepItemsSound(s.order, m, e.order, now);
    LinesAreWellFormed(e.order.items);
    RequestsComeFrom(s, e, event);
  }

  /** A request that waits in the queue was there before or has just been published. */
  lemma RequestsComeFrom(s: Slice, e: Effect, event: Event)
    ensures After(s, e, event).order == e.order
    ensures forall r | r in After(s, e, event).requests :: r in s.requests || r in e.published
  {
  }

  /** An effect that makes a move keeps the invariant, whatever event has it. */
  lemma EffectKeepsInv(s: Slice, m: Move, e: Effect, event: Event, now: Time)
    requires Inv(s) && Matches(s.order, m, e, now) && Recorded(s, m, e, After(s, e, event))
    requires m.Begin? ==> m.request.sagaId !in s.used && !event.AnswerDelivered?
    requires event.StockAnswered? ==>
      e.published == [] && event.request in s.requests && Echoes(event.answer, event.request)
    requires event.AnswerDelivered? && e.error.None? ==> e.order.Current() != Some(event.answer.sagaId)
    ensures Inv(After(s, e, event))
  {
    hide Moved, SoundItems, Spoken, Frozen, Bounded;
    var t := After(s, e, event);
    KeepsCoherent(s.order, m, t.order, now);
    KeepsTracked(s, m, e, t, now);
    KeepsAccounted(s, m, e, t);
    KeepsSpoken(s, m, e, t, now);
    KeepsFrozen(s, m, e, t, now);
    KeepsMoneySafe(s, m, e, t, now);
    KeepsAudited(s, m, e, t, now);
    KeepsBounded(s, m, e, t, now);
    KeepsNotLost(s, m, e, event, now);
    KeepsSoundItems(s, m, e, event, now);
  }

  /** An answer that was dealt with without error is of no saga that is still current. */
  lemma ConsumedIsNotCurrent(o: Order, answer: Answer, now: Time, f: Faults)
    requires Consume(o, answer, now, f).error.None?
    ensures Consume(o, answer, now, f).order.Current() != Some(answer.sagaId)
  {
  }

  lemma StepKeepsInv(s: Slice, step: Step)
    requires Inv(s) && Enabled(s, step)
    ensures Inv(Do(s, step))
  {
    hide Advance, Respond, Delete, CustomerDeleted, Webhook, RetryPayment, UpdateOrder, Consume, Recover;
    var m := StepRecords(s, step);
    if step.event.AnswerDelivered? && EffectOf(s.order, step).error.None? {
      ConsumedIsNotCurrent(s.order, step.event.answer, step.now, step.faults);
    }
    EffectKeepsInv(s, m, EffectOf(s.order, step), step.event, step.now);
  }

  lemma {:induction false} RunKeepsInv(s: Slice, run: seq<Step>, t: Slice)
    requires Inv(s) && Leads(s, run, t)
    ensures Inv(t)
    decreases |run|
  {
    hide Inv, EffectOf, After;
    if run != [] {
      var init, last := run[..|run| - 1], run[|run| - 1];
      var u := LastStep(s, run, t);
      RunKeepsInv(s, init, u);
      StepKeepsInv(u, last);
    }
  }

  lemma ReachableInv(t: Slice)
    requires Reachable(t)
    ensures Inv(t)
  {
    var s: Slice, run: seq<Step> :| Init(s) && Leads(s, run, t);
    InitHolds(s);
    RunKeepsInv(s, run, t);
  }
}
