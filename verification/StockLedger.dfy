/**
  What the stock service has really done for an order, as against what the order's status makes of it.

  The order counts the sagas that took effect, by the operation each was started with. The stock service counts the
  requests it performed. The two agree unless a saga whose request was performed did not take effect, or recovery asked
  for another operation than the one it was started with.
*/
module StockLedger {
  import opened Prelude
  import opened OrderStatus
  import opened Items
  import opened Orders
  import opened Effects
  import opened Moves
  import opened SagaSystem
  import opened SagaInvariants
  import opened SagaTheorems

  // --- The ledger ---

  /** What one performed operation on q units adds to the reserved stock, and to the consumed stock. */
  function Reserves(op: Operation, q: int): int {
    match op
    case Reserve => q
    case ReservedDecrease => -q
    case CancelReserved => -q
    case _ => 0
  }

  function Consumes(op: Operation, q: int): int {
    match op
    case ReservedDecrease => q
    case CancelConfirmed => -q
    case _ => 0
  }

  /** What the performed requests leave reserved of a product. */
  function Reserved(rs: seq<Request>, product: string): int {
    if rs == [] then 0
    else Reserves(rs[0].operation, LineQuantity(rs[0].lines, product)) + Reserved(rs[1..], product)
  }

  /** What they have taken out of stock. */
  function Consumed(rs: seq<Request>, product: string): int {
    if rs == [] then 0
    else Consumes(rs[0].operation, LineQuantity(rs[0].lines, product)) + Consumed(rs[1..], product)
  }

  function Count(rs: seq<Request>, op: Operation): nat {
    if rs == [] then 0 else (if rs[0].operation == op then 1 else 0) + Count(rs[1..], op)
  }

  /** The units of a product that the reservations among the requests ask for. */
  function ReservedUnits(rs: seq<Request>, product: string): int {
    if rs == [] then 0
    else
      var units := if rs[0].operation == Reserve then LineQuantity(rs[0].lines, product) else 0;
      units + ReservedUnits(rs[1..], product)
  }

  /** The first reservation among the requests. */
  function Reservation(rs: seq<Request>): Option<Request> {
    if rs == [] then None else if rs[0].operation == Reserve then Some(rs[0]) else Reservation(rs[1..])
  }

  lemma {:induction false} LedgerByCounts(rs: seq<Request>, product: string, q: int)
    requires forall i | 0 <= i < |rs| :: rs[i].operation != Reserve ==> LineQuantity(rs[i].lines, product) == q
    ensures Reserved(rs, product) ==
      ReservedUnits(rs, product) - q * Count(rs, ReservedDecrease) - q * Count(rs, CancelReserved)
    ensures Consumed(rs, product) == q * Count(rs, ReservedDecrease) - q * Count(rs, CancelConfirmed)
  {
    hide LineQuantity;
    if rs != [] {
      assert forall i | 0 <= i < |rs[1..]| :: rs[1..][i] == rs[i + 1];
      LedgerByCounts(rs[1..], product, q);
      OneMore(q, Count(rs[1..], ReservedDecrease));
      OneMore(q, Count(rs[1..], CancelReserved));
      OneMore(q, Count(rs[1..], CancelConfirmed));
    }
  }

  lemma OneMore(q: int, n: nat)
    ensures q * (1 + n) == q + q * n
  {
  }

  lemma {:induction false} OneReservation(rs: seq<Request>, product: string)
    requires Count(rs, Reserve) <= 1
    ensures Reservation(rs).Some? <==> Count(rs, Reserve) == 1
    ensures ReservedUnits(rs, product) ==
      if Reservation(rs).Some? then LineQuantity(Reservation(rs).value.lines, product) else 0
  {
    if rs != [] {
      OneReservation(rs[1..], product);
      if rs[0].operation == Reserve {
        assert Count(rs[1..], Reserve) == 0;
      }
    }
  }

  // --- What the stock service is asked for ---

  /** A saga with this id was started with this operation. */
  ghost predicate StartedAs(s: Slice, saga: string, op: Operation) {
    || (s.current.Some? && s.current.value.sagaId == saga && s.current.value.operation == op)
    || (exists i | 0 <= i < |s.resolutions| ::
          s.resolutions[i].request.sagaId == saga && s.resolutions[i].request.operation == op)
  }

  /** The operations that the stock service may be asked for under this id: the one the saga was started with, and the
      one that recovery took it for. */
  ghost predicate AskedAs(s: Slice, saga: string, op: Operation) {
    || StartedAs(s, saga, op)
    || (saga in s.misasked && op == CancelReserved && StartedAs(s, saga, CancelConfirmed))
  }

  ghost predicate Asked(s: Slice) {
    && (forall r | r in s.requests :: AskedAs(s, r.sagaId, r.operation))
    && (forall a | a in s.answers :: a in s.issued)
    && (forall a | a in s.issued :: AskedAs(s, a.sagaId, a.operation))
    && (forall i | 0 <= i < |s.performed| :: AskedAs(s, s.performed[i].sagaId, s.performed[i].operation))
    && (forall id | id in s.misasked :: StartedAs(s, id, CancelConfirmed))
  }

  /** No operation is performed twice for one saga, every success that was answered was performed, and so was something
      for every saga that took effect. */
  ghost predicate Booked(s: Slice) {
    && (forall i, j | 0 <= i < j < |s.performed| && s.performed[i].sagaId == s.performed[j].sagaId ::
          s.performed[i].operation != s.performed[j].operation)
    && (forall a | a in s.issued && a.Succeeded? :: HasPerformed(s.performed, a.sagaId, a.operation))
    && (forall i | 0 <= i < |s.resolutions| && s.resolutions[i].outcome == Applied ::
          PerformedFor(s, s.resolutions[i].request))
  }

  ghost predicate PerformedFor(s: Slice, r: Request) {
    exists i | 0 <= i < |s.performed| ::
      s.performed[i].sagaId == r.sagaId && AskedAs(s, r.sagaId, s.performed[i].operation)
  }

  /** Every request but a reservation is for the lines that the order has. */
  predicate ForTheLines(o: Order, r: Request) {
    r.operation != Reserve ==> o.status !in {Received, Diagnosing} && r.lines == o.Lines()
  }

  ghost predicate LinesAsked(s: Slice) {
    && (forall r | r in s.requests :: ForTheLines(s.order, r))
    && (forall i | 0 <= i < |s.performed| :: ForTheLines(s.order, s.performed[i]))
  }

  ghost predicate Books(s: Slice) { Asked(s) && Booked(s) && LinesAsked(s) }

  // --- Every step keeps the books ---

  lemma StartedStays(s: Slice, m: Move, e: Effect, t: Slice, saga: string, op: Operation)
    requires RecordedSagas(s, m, e, t) && StartedAs(s, saga, op) && (m.Begin? ==> s.current.None?)
    ensures StartedAs(t, saga, op)
  {
    if s.current.Some? && s.current.value.sagaId == saga && s.current.value.operation == op {
      if Ends(s, m) {
        assert t.resolutions[|s.resolutions|].request == s.current.value;
      }
    } else {
      var i :| 0 <= i < |s.resolutions| && s.resolutions[i].request.sagaId == saga
        && s.resolutions[i].request.operation == op;
      assert t.resolutions[i] == s.resolutions[i];
    }
  }

  lemma AskedStays(s: Slice, m: Move, e: Effect, t: Slice, saga: string, op: Operation)
    requires RecordedSagas(s, m, e, t) && AskedAs(s, saga, op) && (m.Begin? ==> s.current.None?)
    ensures AskedAs(t, saga, op)
  {
    hide StartedAs;
    if StartedAs(s, saga, op) {
      StartedStays(s, m, e, t, saga, op);
    } else {
      StartedStays(s, m, e, t, saga, CancelConfirmed);
    }
  }

  /** What is published is what was started, or what recovery takes it for; and it is for the lines of the order. */
  lemma PublishedAsAsked(s: Slice, m: Move, e: Effect, t: Slice, now: Time, r: Request)
    requires Coherent(s.order) && PairOk(s.order) && Tracked(s)
    requires Matches(s.order, m, e, now) && RecordedSagas(s, m, e, t) && r in e.published
    ensures AskedAs(t, r.sagaId, r.operation)
    ensures !m.Begin? && RecoveryErrs(s.order.status) ==> StartedAs(t, r.sagaId, CancelConfirmed)
    ensures ForTheLines(e.order, r)
  {
    hide ProductLines, Sound;
    if m.Begin? {
      assert r == m.request == t.current.value;
    } else {
      assert s.order == e.order && s.order.target.Some? && t.current == s.current;
      assert StartedAs(t, r.sagaId, s.current.value.operation);
      if r.operation != s.current.value.operation {
        assert RecoveryErrs(s.order.status);
      }
    }
  }

  lemma KeepsAsked(s: Slice, m: Move, e: Effect, event: Event, now: Time)
    requires Coherent(s.order) && PairOk(s.order) && Tracked(s) && Asked(s)
    requires Matches(s.order, m, e, now) && RecordedSagas(s, m, e, After(s, e, event)) && (m.Begin? ==> s.current.None?)
    requires event.StockAnswered? ==> event.request in s.requests && Echoes(event.answer, event.request)
    requires event.AnswerRepeated? ==> event.answer in s.issued
    ensures Asked(After(s, e, event))
  {
    hide After, AskedAs, Matches, RecordedSagas, Tracked, Coherent, PairOk;
    var t := After(s, e, event);
    MessagesComeFrom(s, e, event);
    forall saga, op | AskedAs(s, saga, op) ensures AskedAs(t, saga, op) {
      AskedStays(s, m, e, t, saga, op);
    }
    forall r | r in e.published ensures AskedAs(t, r.sagaId, r.operation) {
      PublishedAsAsked(s, m, e, t, now, r);
    }
    forall id | id in t.misasked ensures StartedAs(t, id, CancelConfirmed) {
      MisaskedStarted(s, m, e, t, now, id);
    }
  }

  lemma MisaskedStarted(s: Slice, m: Move, e: Effect, t: Slice, now: Time, id: string)
    requires Coherent(s.order) && PairOk(s.order) && Tracked(s) && Asked(s)
    requires Matches(s.order, m, e, now) && RecordedSagas(s, m, e, t) && (m.Begin? ==> s.current.None?)
    requires id in t.misasked
    ensures StartedAs(t, id, CancelConfirmed)
  {
    hide StartedAs, Matches, Tracked, Coherent, PairOk;
    if id in s.misasked {
      StartedStays(s, m, e, t, id, CancelConfirmed);
    } else {
      var r :| r in e.published && r.sagaId == id;
      PublishedAsAsked(s, m, e, t, now, r);
    }
  }

  /** Where the messages and the performed requests after a step come from. */
  lemma MessagesComeFrom(s: Slice, e: Effect, event: Event)
    requires event.StockAnswered? ==> event.request in s.requests && Echoes(event.answer, event.request)
    requires event.AnswerRepeated? ==> event.answer in s.issued
    ensures var t := After(s, e, event);
      && (forall r | r in t.requests :: r in s.requests || r in e.published)
      && (forall a | a in t.answers :: a in s.answers || a in t.issued)
      && s.issued <= t.issued
      && (forall a | a in t.issued :: a in s.issued
            || (event.StockAnswered? && a == event.answer && a.sagaId == event.request.sagaId
                && a.operation == event.request.operation))
      && (t.performed == s.performed || (event.StockAnswered? && t.performed == s.performed + [event.request]))
  {
  }

  lemma KeepsLinesAsked(s: Slice, m: Move, e: Effect, event: Event, now: Time)
    requires Coherent(s.order) && PairOk(s.order) && Tracked(s) && LinesAsked(s)
    requires Matches(s.order, m, e, now) && RecordedSagas(s, m, e, After(s, e, event))
    requires event.StockAnswered? ==> event.request in s.requests && Echoes(event.answer, event.request)
    requires event.AnswerRepeated? ==> event.answer in s.issued
    ensures LinesAsked(After(s, e, event))
  {
    hide After, Matches, RecordedSagas, Tracked, Coherent, PairOk, ForTheLines, AskedAs;
    var t := After(s, e, event);
    MessagesComeFrom(s, e, event);
    forall r | ForTheLines(s.order, r) ensures ForTheLines(t.order, r) {
      LinesStay(s, m, e, t, now, r);
    }
    forall r | r in e.published ensures ForTheLines(t.order, r) {
      PublishedAsAsked(s, m, e, t, now, r);
      assert t.order == e.order by { OrderRecorded(s, m, e, t); }
    }
  }

  lemma OrderRecorded(s: Slice, m: Move, e: Effect, t: Slice)
    requires RecordedSagas(s, m, e, t)
    ensures t.order == e.order
  {
  }

  lemma LinesStay(s: Slice, m: Move, e: Effect, t: Slice, now: Time, r: Request)
    requires Coherent(s.order) && PairOk(s.order)
    requires Matches(s.order, m, e, now) && RecordedSagas(s, m, e, t) && ForTheLines(s.order, r)
    ensures ForTheLines(t.order, r)
  {
    hide ProductLines, Sound;
  }

  lemma KeepsBooked(s: Slice, m: Move, e: Effect, event: Event, now: Time)
    requires Asked(s) && Booked(s) && RecordedSagas(s, m, e, After(s, e, event)) && (m.Begin? ==> s.current.None?)
    requires event.StockAnswered? ==> event.request in s.requests && Echoes(event.answer, event.request)
    requires event.AnswerRepeated? ==> event.answer in s.issued
    requires m.Settle? ==>
      && event.AnswerDelivered? && event.answer.Succeeded? && event.answer in s.issued
      && s.current.Some? && event.answer.sagaId == s.current.value.sagaId
    ensures Booked(After(s, e, event))
  {
    hide After, AskedAs, RecordedSagas;
    var t := After(s, e, event);
    MessagesComeFrom(s, e, event);
    PerformedOnce(s, e, event);
    ResolutionsRecorded(s, m, e, t);
    forall i | 0 <= i < |t.resolutions| && t.resolutions[i].outcome == Applied
      ensures PerformedFor(t, t.resolutions[i].request)
    {
      var r := t.resolutions[i].request;
      var k: int;
      if i < |s.resolutions| {
        assert PerformedFor(s, r);
        k :| 0 <= k < |s.performed| && s.performed[k].sagaId == r.sagaId
          && AskedAs(s, r.sagaId, s.performed[k].operation);
      } else {
        assert HasPerformed(s.performed, event.answer.sagaId, event.answer.operation);
        k :| 0 <= k < |s.performed| && s.performed[k].sagaId == r.sagaId
          && s.performed[k].operation == event.answer.operation;
      }
      assert t.performed[k] == s.performed[k];
      AskedStays(s, m, e, t, r.sagaId, s.performed[k].operation);
    }
  }

  lemma ResolutionsRecorded(s: Slice, m: Move, e: Effect, t: Slice)
    requires RecordedSagas(s, m, e, t)
    ensures s.resolutions <= t.resolutions
    ensures t.resolutions == s.resolutions
      || (s.current.Some? && t.resolutions == s.resolutions + [Resolution(s.current.value, OutcomeOfMove(m))])
    ensures OutcomeOfMove(m) == Applied <==> m.Settle?
  {
  }

  lemma PerformedOnce(s: Slice, e: Effect, event: Event)
    requires Booked(s)
    requires event.StockAnswered? ==> Echoes(event.answer, event.request)
    ensures var t := After(s, e, event);
      && s.performed <= t.performed
      && (forall i, j | 0 <= i < j < |t.performed| && t.performed[i].sagaId == t.performed[j].sagaId ::
            t.performed[i].operation != t.performed[j].operation)
      && (forall a | a in t.issued && a.Succeeded? :: HasPerformed(t.performed, a.sagaId, a.operation))
  {
    hide PerformedFor;
    var after := PerformedAfter(s.performed, event);
    forall id, op | HasPerformed(s.performed, id, op) ensures HasPerformed(after, id, op) {
      var i :| 0 <= i < |s.performed| && s.performed[i].sagaId == id && s.performed[i].operation == op;
      assert after[i] == s.performed[i];
    }
    if after != s.performed {
      assert after[|s.performed|] == event.request;
    }
  }

  lemma StepKeepsBooks(s: Slice, step: Step)
    requires Inv(s) && Books(s) && Enabled(s, step)
    ensures Books(Do(s, step))
  {
    hide EffectOf, After, Matches, RecordedBooks, Asked, Booked, LinesAsked;
    var m := StepRecords(s, step);
    var e := EffectOf(s.order, step);
    BeginsFromRest(s, m, e, step.now);
    KeepsAsked(s, m, e, step.event, step.now);
    KeepsLinesAsked(s, m, e, step.event, step.now);
    if m.Settle? {
      SettledByIssued(s, step);
    }
    KeepsBooked(s, m, e, step.event, step.now);
  }

  lemma BeginsFromRest(s: Slice, m: Move, e: Effect, now: Time)
    requires Coherent(s.order) && PairOk(s.order) && Tracked(s) && Matches(s.order, m, e, now)
    ensures m.Begin? ==> s.current.None?
  {
  }

  lemma SettledByIssued(s: Slice, step: Step)
    requires Inv(s) && Asked(s) && Enabled(s, step) && step.event.AnswerDelivered?
    requires s.order.CanProcessSaga(step.event.answer.sagaId)
    ensures step.event.answer in s.issued && s.current.Some? && step.event.answer.sagaId == s.current.value.sagaId
  {
    hide Accounted, Spoken, Frozen, MoneySafe, Audited, LegalLog, Bounded, NotLost, SoundItems, AskedAs;
  }

  lemma {:induction false} RunKeepsBooks(s: Slice, run: seq<Step>, t: Slice)
    requires Inv(s) && Books(s) && Leads(s, run, t)
    ensures Inv(t) && Books(t)
    decreases |run|
  {
    hide Inv, Books, EffectOf, After, Leads;
    if run == [] {
      NoStepLeadsNowhere(s, t);
    } else {
      var u := LastStep(s, run, t);
      RunKeepsBooks(s, run[..|run| - 1], u);
      StepKeepsInv(u, run[|run| - 1]);
      StepKeepsBooks(u, run[|run| - 1]);
    }
  }

  lemma ReachableBooks(t: Slice)
    requires Reachable(t)
    ensures Inv(t) && Books(t)
  {
    hide Leads, Inv;
    var s: Slice, run: seq<Step> :| Init(s) && Leads(s, run, t);
    InitHolds(s);
    RunKeepsBooks(s, run, t);
  }

  // --- The ledger of an order ---

  /** What the stock service holds and has given out for an order, in every reachable state: the reservations count with
      the lines they were made for, and every other operation with the present lines of the order. */
  lemma LedgerOfAnOrder(t: Slice, product: string)
    requires Reachable(t)
    ensures var quantity := t.order.Quantity(product);
      && Reserved(t.performed, product) == ReservedUnits(t.performed, product)
           - quantity * Count(t.performed, ReservedDecrease) - quantity * Count(t.performed, CancelReserved)
      && Consumed(t.performed, product) ==
           quantity * Count(t.performed, ReservedDecrease) - quantity * Count(t.performed, CancelConfirmed)
  {
    hide Reachable, Inv, Asked, Booked;
    ReachableBooks(t);
    LinesCarryTheQuantities(t.order.items, product);
    LedgerByCounts(t.performed, product, t.order.Quantity(product));
  }

  /** The saga took effect. */
  ghost predicate TookEffect(t: Slice, saga: string) {
    exists i | 0 <= i < |t.resolutions| ::
      t.resolutions[i].outcome == Applied && t.resolutions[i].request.sagaId == saga
  }

  /** Every saga for which the stock service performed something has taken effect: none is still in flight, none was
      dropped for a payment step, none was reported as failed. */
  ghost predicate AllTookEffect(t: Slice) {
    forall i | 0 <= i < |t.performed| :: TookEffect(t, t.performed[i].sagaId)
  }

  /** The stock service performed nothing that only recovery asked for. */
  predicate NothingMisasked(t: Slice) {
    forall i | 0 <= i < |t.performed| :: t.performed[i].sagaId in t.misasked ==>
      t.performed[i].operation != CancelReserved
  }

  /** The sagas under which an operation was performed, or taken into account. */
  function SagasOf(rs: seq<Request>, op: Operation): set<string> {
    set i | 0 <= i < |rs| && rs[i].operation == op :: rs[i].sagaId
  }

  /** What was performed is what the order takes to have been done, saga by saga. */
  ghost predicate Agrees(t: Slice) {
    forall op :: SagasOf(t.performed, op) == SagasOf(AppliedRequests(t.resolutions), op)
  }

  lemma {:induction false} AppliedAre(rs: seq<Resolution>, r: Request)
    ensures r in AppliedRequests(rs) <==> exists i | 0 <= i < |rs| :: rs[i] == Resolution(r, Applied)
  {
    if rs != [] {
      var init, last := rs[..|rs| - 1], rs[|rs| - 1];
      AppliedAre(init, r);
      assert forall i | 0 <= i < |init| :: init[i] == rs[i];
    }
  }

  lemma {:induction false} AppliedApart(rs: seq<Resolution>)
    requires forall i, j | 0 <= i < j < |rs| :: rs[i].request.sagaId != rs[j].request.sagaId
    ensures var applied := AppliedRequests(rs);
      forall i, j | 0 <= i < j < |applied| :: applied[i].sagaId != applied[j].sagaId
  {
    if rs != [] {
      var init, last := rs[..|rs| - 1], rs[|rs| - 1];
      AppliedApart(init);
      var before := AppliedRequests(init);
      forall i | 0 <= i < |before| ensures before[i].sagaId != last.request.sagaId {
        AppliedAre(init, before[i]);
        var k :| 0 <= k < |init| && init[k] == Resolution(before[i], Applied);
        assert init[k] == rs[k];
      }
    }
  }

  /** The stock service did exactly what the order takes to have been done, if and only if every saga for which it
      performed something has taken effect, and it performed nothing that only recovery asked for. */
  lemma AgreementExactly(t: Slice)
    requires Reachable(t)
    ensures Agrees(t) <==> AllTookEffect(t) && NothingMisasked(t)
  {
    hide Reachable, Inv, Agrees, AllTookEffect, NothingMisasked;
    ReachableBooks(t);
    OneStartPerSaga(t);
    if AllTookEffect(t) && NothingMisasked(t) {
      InOrderAgrees(t);
    }
    if Agrees(t) {
      AgreeingIsInOrder(t);
    }
  }

  /** A saga has been started with one operation only. */
  lemma OneStartPerSaga(t: Slice)
    requires Inv(t)
    ensures forall id, op, op' | StartedAs(t, id, op) && StartedAs(t, id, op') :: op == op'
    ensures forall r | r in AppliedRequests(t.resolutions) ::
      StartedAs(t, r.sagaId, r.operation) && TookEffect(t, r.sagaId)
    ensures forall id, op | TookEffect(t, id) && StartedAs(t, id, op) ::
      id in SagasOf(AppliedRequests(t.resolutions), op)
  {
    hide Coherent, PairOk, Tracked, Spoken, Frozen, MoneySafe, Audited, LegalLog, Bounded, NotLost, SoundItems;
    forall r | r in AppliedRequests(t.resolutions)
      ensures StartedAs(t, r.sagaId, r.operation) && TookEffect(t, r.sagaId) {
      AppliedAre(t.resolutions, r);
    }
    forall id, op | TookEffect(t, id) && StartedAs(t, id, op)
      ensures id in SagasOf(AppliedRequests(t.resolutions), op)
    {
      var i :| 0 <= i < |t.resolutions| && t.resolutions[i].outcome == Applied && t.resolutions[i].request.sagaId == id;
      AppliedAre(t.resolutions, t.resolutions[i].request);
    }
  }

  lemma InOrderAgrees(t: Slice)
    requires Asked(t) && Booked(t) && AllTookEffect(t) && NothingMisasked(t)
    requires forall id, op, op' | StartedAs(t, id, op) && StartedAs(t, id, op') :: op == op'
    requires forall r | r in AppliedRequests(t.resolutions) ::
      StartedAs(t, r.sagaId, r.operation) && TookEffect(t, r.sagaId)
    requires forall id, op | TookEffect(t, id) && StartedAs(t, id, op) ::
      id in SagasOf(AppliedRequests(t.resolutions), op)
    ensures Agrees(t)
  {
    hide StartedAs, TookEffect;
    var applied := AppliedRequests(t.resolutions);
    forall op ensures SagasOf(t.performed, op) == SagasOf(applied, op) {
      forall id | id in SagasOf(applied, op) ensures id in SagasOf(t.performed, op) {
        var k :| 0 <= k < |applied| && applied[k].operation == op && applied[k].sagaId == id;
        AppliedAre(t.resolutions, applied[k]);
        assert applied[k] in applied;
        assert PerformedFor(t, applied[k]);
      }
    }
  }

  lemma AgreeingIsInOrder(t: Slice)
    requires Asked(t) && Agrees(t)
    requires forall id, op, op' | StartedAs(t, id, op) && StartedAs(t, id, op') :: op == op'
    requires forall r | r in AppliedRequests(t.resolutions) ::
      StartedAs(t, r.sagaId, r.operation) && TookEffect(t, r.sagaId)
    ensures AllTookEffect(t) && NothingMisasked(t)
  {
    hide StartedAs, TookEffect;
    var applied := AppliedRequests(t.resolutions);
    forall i | 0 <= i < |t.performed|
      ensures TookEffect(t, t.performed[i].sagaId) && StartedAs(t, t.performed[i].sagaId, t.performed[i].operation)
    {
      var p := t.performed[i];
      assert p.sagaId in SagasOf(applied, p.operation);
      var k :| 0 <= k < |applied| && applied[k].operation == p.operation && applied[k].sagaId == p.sagaId;
      assert applied[k] in applied;
    }
  }

  // --- Conservation ---

  lemma SagasOfRest(rs: seq<Request>, op: Operation)
    requires rs != []
    ensures SagasOf(rs, op) == (if rs[0].operation == op then {rs[0].sagaId} else {}) + SagasOf(rs[1..], op)
  {
    var tail := rs[1..];
    forall i | 0 < i < |rs| && rs[i].operation == op ensures rs[i].sagaId in SagasOf(tail, op) {
      assert tail[i - 1] == rs[i];
    }
  }

  lemma {:induction false} CountsAreSagas(rs: seq<Request>, op: Operation)
    requires forall i, j | 0 <= i < j < |rs| && rs[i].sagaId == rs[j].sagaId :: rs[i].operation != rs[j].operation
    ensures Count(rs, op) == |SagasOf(rs, op)|
  {
    if rs != [] {
      var tail := rs[1..];
      assert forall i | 0 <= i < |tail| :: tail[i] == rs[i + 1];
      CountsAreSagas(tail, op);
      SagasOfRest(rs, op);
      assert rs[0].operation == op ==> rs[0].sagaId !in SagasOf(tail, op);
    }
  }

  function Times(ops: seq<Operation>, op: Operation): nat {
    if ops == [] then 0 else (if ops[0] == op then 1 else 0) + Times(ops[1..], op)
  }

  lemma {:induction false} CountsAreTimes(rs: seq<Request>, op: Operation)
    ensures Count(rs, op) == Times(Operations(rs), op)
  {
    if rs != [] {
      CountsAreTimes(rs[1..], op);
      assert Operations(rs)[1..] == Operations(rs[1..]);
    }
  }

  lemma TimesOfThree(ops: seq<Operation>, op: Operation)
    requires |ops| <= 3
    ensures Times(ops, op) == (if |ops| > 0 && ops[0] == op then 1 else 0)
      + (if |ops| > 1 && ops[1] == op then 1 else 0) + (if |ops| > 2 && ops[2] == op then 1 else 0)
  {
    if |ops| > 1 {
      assert Times(ops[1..], op) == (if ops[1] == op then 1 else 0) + Times(ops[1..][1..], op);
    }
  }

  /** How often each operation was performed for an order whose stock service did what the order takes to have been
      done. */
  lemma CountsAgree(t: Slice, op: Operation)
    requires Inv(t) && Booked(t) && Agrees(t)
    ensures |Ops(t)| <= 3 && Count(t.performed, op) == Times(Ops(t), op)
  {
    hide Coherent, PairOk, Tracked, Frozen, MoneySafe, Audited, LegalLog, Bounded, NotLost, SoundItems, PerformedFor;
    AppliedApart(t.resolutions);
    CountsAreSagas(t.performed, op);
    CountsAreSagas(AppliedRequests(t.resolutions), op);
    CountsAreTimes(AppliedRequests(t.resolutions), op);
    assert SagasOf(t.performed, op) == SagasOf(AppliedRequests(t.resolutions), op);
  }

  /** What stock has to show for an order with this quantity of a product: it is reserved from PENDING_AUTHORIZATION to
      IN_PROGRESS, taken out from COMPLETED on, and neither before, after a denial or after a cancellation; but a
      cancellation on the provider's report of a refund takes nothing back. */
  predicate Conserved(status: Status, byNotice: bool, quantity: int, held: int, taken: int) {
    match status
    case Received | Diagnosing | AuthorizationDenied => held == 0 && taken == 0
    case PendingAuthorization | Authorized | InProgress => held == quantity && taken == 0
    case Canceled => held == 0 && (taken == 0 || (byNotice && taken == quantity))
    case _ => held == 0 && taken == quantity
  }

  lemma ConservedByCounts(status: Status, ops: seq<Operation>, bare: bool, inFlight: bool, notice: bool, quantity: int,
                          units: int, held: int, taken: int)
    requires Says(status, ops, bare, inFlight, notice) && (bare ==> quantity == 0) && |ops| <= 3
    requires held == units - quantity * Times(ops, ReservedDecrease) - quantity * Times(ops, CancelReserved)
    requires taken == quantity * Times(ops, ReservedDecrease) - quantity * Times(ops, CancelConfirmed)
    requires Times(ops, Reserve) == 0 ==> units == 0
    ensures Conserved(status, notice, quantity, held, taken) <==> Times(ops, Reserve) == 0 || units == quantity
  {
    hide Times;
    TimesOfThree(ops, Reserve);
    TimesOfThree(ops, ReservedDecrease);
    TimesOfThree(ops, CancelReserved);
    TimesOfThree(ops, CancelConfirmed);
  }

  /** Stock conservation. As long as every saga for which the stock service performed something has taken effect, and it
      performed nothing that only recovery asked for, stock has for each product what the order's status demands, if and
      only if the reservation it performed was for the quantity that the order has. */
  lemma StockConservation(t: Slice, product: string)
    requires Reachable(t) && AllTookEffect(t) && NothingMisasked(t)
    ensures var quantity := t.order.Quantity(product);
      var reservation := Reservation(t.performed);
      Conserved(t.order.status, t.closingNotice.Some?, quantity,
                Reserved(t.performed, product), Consumed(t.performed, product))
      <==> (reservation.None? || LineQuantity(reservation.value.lines, product) == quantity)
  {
    hide Reachable, Inv, AllTookEffect, NothingMisasked, Asked, Booked, Agrees, Says, Conserved;
    ReachableBooks(t);
    AgreementExactly(t);
    LedgerOfAnOrder(t, product);
    CountsAgree(t, Reserve);
    CountsAgree(t, ReservedDecrease);
    CountsAgree(t, CancelReserved);
    CountsAgree(t, CancelConfirmed);
    SpokenOps(t, product);
    OneReservation(t.performed, product);
    ConservedByCounts(t.order.status, Ops(t), t.order.Lines() == [], t.order.InFlight(), t.closingNotice.Some?,
                      t.order.Quantity(product), ReservedUnits(t.performed, product),
                      Reserved(t.performed, product), Consumed(t.performed, product));
  }

  lemma SpokenOps(t: Slice, product: string)
    requires Inv(t)
    ensures Says(t.order.status, Ops(t), t.order.Lines() == [], t.order.InFlight(), t.closingNotice.Some?)
    ensures t.order.Lines() == [] ==> t.order.Quantity(product) == 0
    ensures |Ops(t)| <= 3 && Times(Ops(t), Reserve) <= 1
  {
    hide Coherent, PairOk, Tracked, Accounted, Frozen, MoneySafe, Audited, LegalLog, Bounded, NotLost, SoundItems;
    hide Times;
    LinesCarryTheQuantities(t.order.items, product);
    TimesOfThree(Ops(t), Reserve);
  }

  /** The success that lets a saga take effect names the operation the saga was started with, or else it is
      CANCEL_RESERVED for a saga started as CANCEL_CONFIRMED that recovery has asked for again. */
  lemma SettledByAnotherOperation(s: Slice, answer: Answer)
    requires Reachable(s) && answer in s.answers && s.order.CanProcessSaga(answer.sagaId)
    ensures s.current.Some?
    ensures answer.operation != s.current.value.operation <==>
      answer.operation == CancelReserved && s.current.value.operation == CancelConfirmed
    ensures answer.operation != s.current.value.operation ==> answer.sagaId in s.misasked
    ensures answer.Succeeded? ==> HasPerformed(s.performed, answer.sagaId, answer.operation)
  {
    hide Reachable, LinesAsked;
    ReachableBooks(s);
    OneStartPerSaga(s);
    assert AskedAs(s, answer.sagaId, answer.operation);
    assert StartedAs(s, answer.sagaId, s.current.value.operation);
  }
}
