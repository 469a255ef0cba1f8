/** Stock conservation over runs: what must not happen on the way, told by the steps of the run. */
module StockRuns {
  import opened Prelude
  import opened OrderStatus
  import opened Items
  import opened Orders
  import opened Effects
  import opened Moves
  import opened SagaSystem
  import opened SagaInvariants
  import opened SagaTheorems
  import opened SagaGuards
  import opened StockLedger

  // --- Runs and what happens on them ---

  /** The states passed through by a run from a first stored order. */
  ghost predicate Run(states: seq<Slice>, run: seq<Step>) {
    Passes(states, run) && Init(states[0])
  }

  predicate ReservationInFlight(o: Order) {
    o.InFlight() && o.target == Some(PendingAuthorization)
  }

  /** A call changes the quantity of a product on the order while a reservation is in flight. */
  predicate EditsReserved(o: Order, step: Step, product: string) {
    && ReservationInFlight(o) && ReplacesItems(o, step)
    && QuantityAsked(step.event.edit.items.value, (Product, product)) != o.Quantity(product)
  }

  /** A restart asks again for a saga in flight, in a status in which recovery errs. */
  predicate RecoversWrongly(o: Order, step: Step) {
    step.event.ServiceRestarted? && step.faults.publishOk && o.InFlight() && RecoveryErrs(o.status)
  }

  ghost predicate NoReservationEdited(states: seq<Slice>, run: seq<Step>, product: string)
    requires |states| > |run|
  {
    forall i | 0 <= i < |run| :: !EditsReserved(states[i].order, run[i], product)
  }

  ghost predicate NothingRecoveredWrongly(states: seq<Slice>, run: seq<Step>)
    requires |states| > |run|
  {
    forall i | 0 <= i < |run| :: !RecoversWrongly(states[i].order, run[i])
  }

  ghost predicate NoSagaDropped(states: seq<Slice>, run: seq<Step>)
    requires |states| > |run|
  {
    forall i | 0 <= i < |run| :: !DropsSaga(states[i].order, run[i])
  }

  /** The stock service does not answer one request with success and with failure. */
  ghost predicate Consistent(issued: set<Answer>) {
    forall a, b | a in issued && b in issued && a.sagaId == b.sagaId && a.operation == b.operation ::
      a.Succeeded? == b.Succeeded?
  }

  lemma StateIsReachable(states: seq<Slice>, run: seq<Step>, k: nat)
    requires Run(states, run) && k <= |run|
    ensures Reachable(states[k])
  {
    hide Takes, Init;
    assert Passes(states[..k + 1], run[..k]);
    assert Leads(states[0], run[..k], states[k]);
  }

  // --- Reservations keep to the quantities of the order ---

  /** The saga is in flight, or has taken effect. */
  ghost predicate Counts(s: Slice, saga: string) {
    (s.current.Some? && s.current.value.sagaId == saga) || TookEffect(s, saga)
  }

  /** A reservation that counts is for the quantity on the order. */
  ghost predicate Fits(s: Slice, r: Request, product: string) {
    r.operation == Reserve && Counts(s, r.sagaId) ==> LineQuantity(r.lines, product) == s.order.Quantity(product)
  }

  ghost predicate QuantityKept(s: Slice, product: string) {
    && (forall r | r in s.requests :: Fits(s, r, product))
    && (forall i | 0 <= i < |s.performed| :: Fits(s, s.performed[i], product))
  }

  /** Without such an edit, the quantity changes only while no saga has anything to do with the order. */
  lemma QuantityChanges(s: Slice, step: Step, product: string)
    requires Reachable(s) && Enabled(s, step) && !EditsReserved(s.order, step, product)
    requires Do(s, step).order.Quantity(product) != s.order.Quantity(product)
    ensures step.event.OrderEdited? && s.current.None? && forall saga :: !TookEffect(s, saga)
  {
    hide Reachable, Do, QuantityOf, QuantityAsked;
    hide Frozen, MoneySafe, Audited, LegalLog, Bounded, NotLost, SoundItems;
    ReachableInv(s);
    QuantityExactly(s, step, (Product, product));
    assert s.order.status in {Received, Diagnosing};
    NothingTookEffect(s);
  }

  lemma NothingTookEffect(s: Slice)
    requires Ops(s) == []
    ensures forall saga :: !TookEffect(s, saga)
  {
    assert |AppliedRequests(s.resolutions)| == 0;
    forall i | 0 <= i < |s.resolutions| ensures s.resolutions[i].outcome != Applied {
      AppliedAre(s.resolutions, s.resolutions[i].request);
    }
  }

  /** A saga that counts after the step did so before, or begins with it. */
  lemma CountedBefore(s: Slice, m: Move, e: Effect, t: Slice, saga: string)
    requires RecordedSagas(s, m, e, t) && Counts(t, saga)
    ensures Counts(s, saga) || (m.Begin? && saga == m.request.sagaId)
  {
    if TookEffect(t, saga) {
      var i :| 0 <= i < |t.resolutions|
        && t.resolutions[i].outcome == Applied && t.resolutions[i].request.sagaId == saga;
      if i < |s.resolutions| {
        assert t.resolutions[i] == s.resolutions[i];
      }
    }
  }

  /** Ids that are asked for have been used. */
  lemma AskedIsUsed(s: Slice, saga: string, op: Operation)
    requires Accounted(s) && AskedAs(s, saga, op)
    ensures saga in s.used
  {
  }

  lemma OldRequestFits(s: Slice, m: Move, e: Effect, t: Slice, r: Request, product: string)
    requires Accounted(s) && RecordedSagas(s, m, e, t) && (m.Begin? ==> m.request.sagaId !in s.used)
    requires AskedAs(s, r.sagaId, r.operation) && Fits(s, r, product)
    requires t.order.Quantity(product) == s.order.Quantity(product)
    ensures Fits(t, r, product)
  {
    hide Accounted, RecordedSagas, AskedAs, Counts, QuantityOf;
    if Counts(t, r.sagaId) {
      CountedBefore(s, m, e, t, r.sagaId);
      AskedIsUsed(s, r.sagaId, r.operation);
    }
  }

  lemma PublishedFits(s: Slice, m: Move, e: Effect, t: Slice, now: Time, product: string)
    requires Matches(s.order, m, e, now) && t.order == e.order
    ensures forall r | r in e.published :: Fits(t, r, product)
  {
    hide Moved, Counts, QuantityOf;
    LinesCarryTheQuantities(e.order.items, product);
  }

  lemma StepKeepsQuantity(s: Slice, step: Step, product: string)
    requires Reachable(s) && Books(s) && QuantityKept(s, product) && Enabled(s, step)
    requires !EditsReserved(s.order, step, product)
    ensures QuantityKept(Do(s, step), product)
  {
    hide Reachable, EffectOf, After, Matches, RecordedSagas, RecordedBooks, Fits, Booked, LinesAsked, AskedAs;
    hide EditsReserved, Order.Quantity;
    ReachableInv(s);
    var m := StepRecords(s, step);
    var e, t := EffectOf(s.order, step), Do(s, step);
    MessagesComeFrom(s, e, step.event);
    OrderRecorded(s, m, e, t);
    if t.order.Quantity(product) == s.order.Quantity(product) {
      forall r: Request | AskedAs(s, r.sagaId, r.operation) && Fits(s, r, product) ensures Fits(t, r, product) {
        OldRequestFits(s, m, e, t, r, product);
      }
      PublishedFits(s, m, e, t, step.now, product);
    } else {
      QuantityChanges(s, step, product);
      RevisedIfChanged(s, m, e, step.now, product);
      forall r: Request ensures Fits(t, r, product) {
        NothingCounts(s, m, e, t, r, product);
      }
    }
  }

  lemma RevisedIfChanged(s: Slice, m: Move, e: Effect, now: Time, product: string)
    requires Inv(s) && Matches(s.order, m, e, now) && e.order.Quantity(product) != s.order.Quantity(product)
    ensures m.Revise?
  {
    hide Inv, QuantityOf, ProductLines, Sound;
  }

  lemma NothingCounts(s: Slice, m: Move, e: Effect, t: Slice, r: Request, product: string)
    requires RecordedSagas(s, m, e, t) && m.Revise? && s.current.None? && forall saga :: !TookEffect(s, saga)
    ensures Fits(t, r, product)
  {
    hide TookEffect, QuantityOf;
    if Counts(t, r.sagaId) {
      CountedBefore(s, m, e, t, r.sagaId);
    }
  }

  /** Along a run on which the quantity is not edited while the reservation is in flight. */
  lemma {:induction false} RunKeepsQuantity(states: seq<Slice>, run: seq<Step>, k: nat, product: string)
    requires Run(states, run) && NoReservationEdited(states, run, product) && k <= |run|
    ensures QuantityKept(states[k], product)
  {
    hide Inv, Books, Takes, Init, QuantityKept, EditsReserved, Reachable;
    if k == 0 {
      NoRequestsAtFirst(states[0], product);
    } else {
      RunKeepsQuantity(states, run, k - 1, product);
      StateIsReachable(states, run, k - 1);
      ReachableBooks(states[k - 1]);
      StepTaken(states[k - 1], run[k - 1], states[k]);
      StepKeepsQuantity(states[k - 1], run[k - 1], product);
    }
  }

  lemma NoRequestsAtFirst(s: Slice, product: string)
    requires Init(s)
    ensures QuantityKept(s, product)
  {
  }

  lemma StepTaken(s: Slice, step: Step, t: Slice)
    requires Takes(s, step, t)
    ensures Enabled(s, step) && t == Do(s, step)
  {
  }

  /** Stock has what the order's status demands of a product. */
  predicate InStock(t: Slice, product: string) {
    Conserved(t.order.status, t.closingNotice.Some?, t.order.Quantity(product), Reserved(t.performed, product),
              Consumed(t.performed, product))
  }

  /** Stock conservation over runs. If no call changes the quantity of the product while its reservation is in flight,
      then stock has what the order's status demands, as long as every saga for which the stock service performed
      something has taken effect and it performed nothing that only recovery asked for. */
  lemma ConservedWithoutEdits(states: seq<Slice>, run: seq<Step>, product: string)
    requires Run(states, run) && NoReservationEdited(states, run, product)
    requires AllTookEffect(states[|run|]) && NothingMisasked(states[|run|])
    ensures InStock(states[|run|], product)
  {
    hide Conserved, NothingMisasked, Reachable, Reserved, Consumed, NoReservationEdited;
    var t := states[|run|];
    StateIsReachable(states, run, |run|);
    RunKeepsQuantity(states, run, |run|, product);
    StockConservation(t, product);
    if Reservation(t.performed).Some? {
      var i := ReservationAt(t.performed);
      assert TookEffect(t, t.performed[i].sagaId) && Fits(t, t.performed[i], product);
    }
  }

  lemma {:induction false} ReservationAt(rs: seq<Request>) returns (i: nat)
    requires Reservation(rs).Some?
    ensures i < |rs| && rs[i] == Reservation(rs).value && rs[i].operation == Reserve
  {
    if rs[0].operation == Reserve {
      i := 0;
    } else {
      i := ReservationAt(rs[1..]);
      i := i + 1;
    }
  }

  // --- The step that published the reservation ---

  /** Whatever the stock service was asked for, a step of the run published. */
  lemma {:induction false} PublishedBefore(states: seq<Slice>, run: seq<Step>, k: nat, r: Request) returns (b: nat)
    requires Run(states, run) && k <= |run| && (r in states[k].requests || r in states[k].performed)
    ensures b < k && r in EffectOf(states[b].order, run[b]).published
  {
    hide EffectOf, Takes;
    if k == 0 {
      assert false;
    } else {
      StepTaken(states[k - 1], run[k - 1], states[k]);
      var e := EffectOf(states[k - 1].order, run[k - 1]);
      AskedByStep(states[k - 1], e, run[k - 1], r);
      if r in e.published {
        b := k - 1;
      } else {
        b := PublishedBefore(states, run, k - 1, r);
      }
    }
  }

  lemma AskedByStep(s: Slice, e: Effect, step: Step, r: Request)
    requires Enabled(s, step)
    ensures var t := After(s, e, step.event);
      r in t.requests || r in t.performed ==> r in e.published || r in s.requests || r in s.performed
  {
  }

  /** Stock conservation, exactly. Under the same two conditions on its sagas an order for which something was reserved
      has in stock what its status demands if and only if it has still the quantity that it had when the reservation
      was published, by the step that started it or by a restart. */
  lemma ConservedExactly(states: seq<Slice>, run: seq<Step>, product: string) returns (b: nat)
    requires Run(states, run) && AllTookEffect(states[|run|]) && NothingMisasked(states[|run|])
    requires Reservation(states[|run|].performed).Some?
    ensures b < |run| && Reservation(states[|run|].performed).value in EffectOf(states[b].order, run[b]).published
    ensures states[b].order.status == Diagnosing
    ensures InStock(states[|run|], product)
      <==> states[|run|].order.Quantity(product) == states[b].order.Quantity(product)
  {
    hide Conserved, NothingMisasked, AllTookEffect, Reachable, Reserved, Consumed, Takes, EffectOf;
    var t := states[|run|];
    StateIsReachable(states, run, |run|);
    StockConservation(t, product);
    var i := ReservationAt(t.performed);
    b := PublishedBefore(states, run, |run|, t.performed[i]);
    StateIsReachable(states, run, b);
    StepTaken(states[b], run[b], states[b + 1]);
    ReservationAsPublished(states[b], run[b], t.performed[i], product);
  }

  lemma ReservationAsPublished(s: Slice, step: Step, r: Request, product: string)
    requires Reachable(s) && Enabled(s, step) && r in EffectOf(s.order, step).published && r.operation == Reserve
    ensures s.order.status == Diagnosing && LineQuantity(r.lines, product) == s.order.Quantity(product)
  {
    hide Reachable, EffectOf, QuantityOf, ProductLines;
    ReachableInv(s);
    var m := StepRecords(s, step);
    LinesCarryTheQuantities(s.order.items, product);
  }

  // --- The guards of the steps ---

  /** On a run without such a restart, recovery never asks for another operation. */
  lemma {:induction false} NothingIsMisasked(states: seq<Slice>, run: seq<Step>, k: nat)
    requires Run(states, run) && NothingRecoveredWrongly(states, run) && k <= |run|
    ensures states[k].misasked == {}
  {
    hide Takes, Init, Reachable, Do;
    if k == 0 {
      NothingAnsweredAtFirst(states[0]);
    } else {
      NothingIsMisasked(states, run, k - 1);
      StateIsReachable(states, run, k - 1);
      StepTaken(states[k - 1], run[k - 1], states[k]);
      MisaskedExactly(states[k - 1], run[k - 1]);
    }
  }

  lemma OnlyDropsAbandon(o: Order, step: Step)
    ensures EndingOf(o, step) == Some(Abandoned) ==> DropsSaga(o, step)
  {
  }

  /** On a run without a step that drops a saga, none is abandoned. */
  lemma {:induction false} NoneAbandoned(states: seq<Slice>, run: seq<Step>, k: nat)
    requires Run(states, run) && NoSagaDropped(states, run) && k <= |run|
    ensures forall i | 0 <= i < |states[k].resolutions| :: states[k].resolutions[i].outcome != Abandoned
  {
    hide Takes, Init, Reachable, DropsSaga, EndingOf, Do;
    if k == 0 {
      NothingAnsweredAtFirst(states[0]);
    } else {
      NoneAbandoned(states, run, k - 1);
      StateIsReachable(states, run, k - 1);
      StepTaken(states[k - 1], run[k - 1], states[k]);
      SagaEndsExactly(states[k - 1], run[k - 1]);
      OnlyDropsAbandon(states[k - 1].order, run[k - 1]);
    }
  }

  /** Whatever was performed was answered with success, and every saga that failed did so by an answer. */
  ghost predicate Answered(s: Slice) {
    && (forall i | 0 <= i < |s.performed| :: SuccessIssued(s, s.performed[i].sagaId, s.performed[i].operation))
    && (forall i | 0 <= i < |s.resolutions| && s.resolutions[i].outcome == Declined ::
          FailureIssued(s, s.resolutions[i].request.sagaId))
  }

  ghost predicate SuccessIssued(s: Slice, saga: string, op: Operation) {
    exists a | a in s.issued :: a.Succeeded? && a.sagaId == saga && a.operation == op
  }

  ghost predicate FailureIssued(s: Slice, saga: string) {
    exists a | a in s.issued :: a.Failed? && a.sagaId == saga
  }

  lemma StepKeepsAnswered(s: Slice, step: Step)
    requires Reachable(s) && Books(s) && Answered(s) && Enabled(s, step)
    ensures Answered(Do(s, step))
  {
    hide Reachable, EffectOf, EndingOf, Booked, LinesAsked, AskedAs;
    var e, t := EffectOf(s.order, step), Do(s, step);
    IssuedGrows(s, e, step.event);
    SagaEndsExactly(s, step);
    forall i | 0 <= i < |t.resolutions| && t.resolutions[i].outcome == Declined
      ensures FailureIssued(t, t.resolutions[i].request.sagaId)
    {
      if i < |s.resolutions| {
        assert FailureIssued(s, s.resolutions[i].request.sagaId);
      } else {
        DeclinedByAnswer(s, step);
      }
    }
  }

  lemma IssuedGrows(s: Slice, e: Effect, event: Event)
    requires event.StockAnswered? ==> Echoes(event.answer, event.request)
    ensures var t := After(s, e, event);
      && s.issued <= t.issued
      && (t.performed == s.performed ||
          (event.StockAnswered? && event.answer.Succeeded? && event.answer in t.issued
           && t.performed == s.performed + [event.request]))
  {
  }

  lemma DeclinedByAnswer(s: Slice, step: Step)
    requires Reachable(s) && Books(s) && Enabled(s, step) && s.current.Some?
    requires EndingOf(s.order, step) == Some(Declined)
    ensures FailureIssued(s, s.current.value.sagaId)
  {
    hide Reachable, Booked, LinesAsked;
    ReachableInv(s);
    assert step.event.answer in s.issued;
  }

  lemma {:induction false} RunKeepsAnswered(states: seq<Slice>, run: seq<Step>, k: nat)
    requires Run(states, run) && k <= |run|
    ensures Answered(states[k])
  {
    hide Inv, Books, Takes, Answered, Reachable;
    if k == 0 {
      NothingAnsweredAtFirst(states[0]);
    } else {
      RunKeepsAnswered(states, run, k - 1);
      StateIsReachable(states, run, k - 1);
      ReachableBooks(states[k - 1]);
      StepTaken(states[k - 1], run[k - 1], states[k]);
      StepKeepsAnswered(states[k - 1], run[k - 1]);
    }
  }

  lemma NothingAnsweredAtFirst(s: Slice)
    requires Init(s)
    ensures Answered(s) && s.resolutions == [] && s.misasked == {}
  {
  }

  /** The stock service performed something for a saga that a payment step dropped. */
  ghost predicate DroppedPerformed(t: Slice) {
    exists i, k | 0 <= i < |t.performed| && 0 <= k < |t.resolutions| ::
      t.resolutions[k].request.sagaId == t.performed[i].sagaId && t.resolutions[k].outcome == Abandoned
  }

  lemma PerformedIsStarted(t: Slice, i: nat)
    requires Books(t) && i < |t.performed| && t.misasked == {}
    ensures StartedAs(t, t.performed[i].sagaId, t.performed[i].operation)
  {
    hide Booked, LinesAsked, StartedAs;
    assert AskedAs(t, t.performed[i].sagaId, t.performed[i].operation);
  }

  /** Nothing was performed for a saga that was answered with failure. */
  lemma DeclinedUnperformed(t: Slice, i: nat, k: nat)
    requires Inv(t) && Books(t) && Answered(t) && Consistent(t.issued) && t.misasked == {}
    requires i < |t.performed| && k < |t.resolutions| && t.resolutions[k].request.sagaId == t.performed[i].sagaId
    ensures t.resolutions[k].outcome != Declined
  {
    hide Inv, Booked, LinesAsked, TookEffect, StartedAs;
    OneStartPerSaga(t);
    PerformedIsStarted(t, i);
  }

  /** When nothing is in flight, nothing was asked for wrongly and no request was answered in two ways, whatever was
      performed took effect, exactly unless a payment step dropped its saga. */
  lemma PerformedTookEffect(t: Slice)
    requires Inv(t) && Books(t) && Answered(t) && Consistent(t.issued) && !t.order.InFlight() && t.misasked == {}
    ensures AllTookEffect(t) <==> !DroppedPerformed(t)
  {
    hide Coherent, PairOk, Spoken, Frozen, MoneySafe, Audited, LegalLog, Bounded, NotLost, SoundItems;
    hide Books, Answered, Consistent;
    if !DroppedPerformed(t) {
      forall i | 0 <= i < |t.performed| ensures TookEffect(t, t.performed[i].sagaId) {
        var p := t.performed[i];
        PerformedIsStarted(t, i);
        var k :| 0 <= k < |t.resolutions| && t.resolutions[k].request.sagaId == p.sagaId;
        DeclinedUnperformed(t, i, k);
      }
    }
  }

  /** On a run on which recovery never errs and no request is answered in two ways, whenever no saga is in flight: the
      stock service did exactly what the order takes to have been done, if and only if it performed nothing for a saga
      that a payment step dropped. */
  lemma AgreesUnlessDropped(states: seq<Slice>, run: seq<Step>)
    requires Run(states, run) && NothingRecoveredWrongly(states, run)
    requires Consistent(states[|run|].issued) && !states[|run|].order.InFlight()
    ensures var t := states[|run|];
      && NothingMisasked(t)
      && (AllTookEffect(t) <==> !DroppedPerformed(t))
      && (Agrees(t) <==> !DroppedPerformed(t))
  {
    hide Reachable, Inv, Books, Answered, Consistent, AllTookEffect, Agrees, DroppedPerformed, NothingRecoveredWrongly;
    var t := states[|run|];
    StateIsReachable(states, run, |run|);
    ReachableBooks(t);
    NothingIsMisasked(states, run, |run|);
    RunKeepsAnswered(states, run, |run|);
    PerformedTookEffect(t);
    AgreementExactly(t);
  }

  /** Stock conservation by guards. On any run on which no call changes the quantity while its reservation is in
      flight, no payment step drops a saga in flight, no restart asks again for one in a status in which recovery
      errs, and the stock service answers no request in two ways, stock has for every product what the order's status
      demands whenever no saga is in flight. */
  lemma ConservedByGuards(states: seq<Slice>, run: seq<Step>, product: string)
    requires Run(states, run) && NoReservationEdited(states, run, product)
    requires NoSagaDropped(states, run) && NothingRecoveredWrongly(states, run)
    requires Consistent(states[|run|].issued) && !states[|run|].order.InFlight()
    ensures InStock(states[|run|], product)
  {
    hide InStock, Consistent, AllTookEffect, NothingMisasked, Agrees;
    hide NoReservationEdited, NoSagaDropped, NothingRecoveredWrongly;
    AgreesUnlessDropped(states, run);
    NoneAbandoned(states, run, |run|);
    ConservedWithoutEdits(states, run, product);
  }
}
