/** Runs that show what can really happen: every in-flight pair is reached, and each boundary of the promises
    is a boundary of the code. */
module SagaWitnesses {
  import opened Prelude
  import opened OrderStatus
  import opened Items
  import opened Orders
  import opened Effects
  import opened Moves
  import opened SagaSystem
  import opened SagaInvariants
  import opened SagaTheorems
  import opened SagaGuards
  import opened StockLedger

  const ALL_OK := Faults(true, true, true)

  const PART := Item("i", "o", None, Product, "part", "Part", 1, 100, None)

  /** A saga id that is not among the used ones, and longer than all of them. */
  lemma {:induction false} FreshId(used: set<string>) returns (id: string)
    ensures id !in used && id != "" && forall u | u in used :: |u| < |id|
  {
    if used == {} {
      id := "a";
    } else {
      var u :| u in used;
      var id' := FreshId(used - {u});
      id := id' + u;
      forall v | v in used ensures |v| < |id| {
        assert v == u || v in used - {u};
      }
    }
  }

  // The histories that a step leaves alone.

  predicate SameStock(s: Slice, t: Slice) {
    t.performed == s.performed && t.misasked == s.misasked && s.resolutions <= t.resolutions
  }

  predicate SameMoney(s: Slice, t: Slice) {
    t.refunds == s.refunds && t.notices == s.notices && t.closingNotice == s.closingNotice
  }

  // What the handlers do when all goes well.

  lemma AdvanceShifts(o: Order, to: Status, id: string)
    requires o.deletedAt.None? && NextStatus(o.status) == Ok(to) && Shifts(o.status, to)
    ensures var e := Advance(o, id, None, 0, ALL_OK);
      e == Effect(o.(status := to, closedAt := e.order.closedAt), e.entries, None, [], [], None)
  {
  }

  /** The order with the saga stored, and the request published. */
  predicate Launches(o: Order, e: Effect, id: string, op: Operation, to: Status) {
    var request := Request(id, o.id, op, o.Lines());
    && e.order == o.(sagaStatus := SagaAwaitingInventory, sagaId := Some(id), target := Some(to), notes := None)
    && e.begun == Some(request) && e.published == [request] && e.entries == []
    && (o.status != Paid ==> e.refunds == [])
  }

  lemma AdvanceLaunches(o: Order, op: Operation, to: Status, id: string)
    requires o.deletedAt.None? && !o.InFlight() && o.Lines() != [] && id != ""
    requires NextStatus(o.status) == Ok(to) && op != OpNone && DetermineInventoryOperation(o.status, to) == op
    ensures Launches(o, Advance(o, id, None, 0, ALL_OK), id, op, to)
  {
  }

  lemma DenialLaunches(o: Order, id: string)
    requires o.deletedAt.None? && !o.InFlight() && o.Lines() != [] && id != ""
    requires o.status == PendingAuthorization
    ensures Launches(o, Respond(o, Staff, false, None, id, 0, ALL_OK), id, CancelReserved, AuthorizationDenied)
  {
  }

  lemma DeletionLaunches(o: Order, op: Operation, id: string)
    requires o.deletedAt.None? && !o.InFlight() && o.Lines() != [] && id != ""
    requires Starts(o.status, op, Canceled)
    ensures Launches(o, Delete(o, None, id, true, 0, ALL_OK), id, op, Canceled)
  {
  }

  lemma PaymentStarts(o: Order, id: string)
    requires o.deletedAt.None? && o.status == Completed
    ensures var e := Advance(o, id, Some(PaymentOrder("m", "u")), 0, ALL_OK);
      && e.order.status == AwaitingPayment && !e.order.InFlight() && e.order.items == o.items && e.order.deletedAt.None?
      && e.order.paymentId == o.paymentId && e.published == [] && e.refunds == [] && e.begun.None?
  {
  }

  // The corresponding steps.

  /** A status change by hand that starts nothing; a saga in flight stays in flight. */
  lemma Shifted(s: Slice, to: Status) returns (t: Slice)
    requires Reachable(s) && s.order.deletedAt.None?
    requires NextStatus(s.order.status) == Ok(to) && Shifts(s.order.status, to)
    ensures Reachable(t) && t.order == s.order.(status := to, closedAt := t.order.closedAt)
    ensures SameStock(s, t) && SameMoney(s, t) && t.requests == s.requests && t.answers == s.answers
  {
    hide Reachable, Advance, Respond, Delete, CustomerDeleted, Webhook, RetryPayment, UpdateOrder, Consume, Recover;
    var id := FreshId(s.used);
    var step := Step(AdvanceCalled(id, None), ALL_OK, 0);
    AdvanceShifts(s.order, to, id);
    ReachableStep(s, step);
    t := Do(s, step);
    assert s.refunds + [] == s.refunds;
  }

  ghost predicate InFlightTo(s: Slice, t: Slice, op: Operation, to: Status) {
    && t.order == s.order.(sagaStatus := SagaAwaitingInventory, sagaId := t.order.sagaId, target := Some(to),
      notes := None)
    && t.current.Some? && t.current.value in t.requests
    && t.current.value.operation == op && t.current.value.lines == s.order.Lines()
    && t.resolutions == s.resolutions
    && SameStock(s, t) && t.notices == s.notices && t.closingNotice == s.closingNotice
    && (s.order.status != Paid ==> SameMoney(s, t))
    && Unperformed(t, t.current.value.sagaId)
  }

  /** Nothing was performed for the saga yet. */
  predicate Unperformed(s: Slice, saga: string) {
    forall i | 0 <= i < |s.performed| :: s.performed[i].sagaId != saga
  }

  /** An id that no saga had yet stands for nothing performed. */
  lemma UnusedIsUnperformed(s: Slice, saga: string)
    requires Reachable(s) && saga !in s.used
    ensures Unperformed(s, saga)
  {
    hide Reachable, Booked, LinesAsked, Coherent, PairOk, Tracked, Spoken, Frozen, MoneySafe, Audited, LegalLog;
    hide Bounded, NotLost, SoundItems;
    ReachableBooks(s);
    forall i | 0 <= i < |s.performed| ensures s.performed[i].sagaId in s.used {
      assert AskedAs(s, s.performed[i].sagaId, s.performed[i].operation);
    }
  }

  lemma Launched(s: Slice, e: Effect, event: Event, id: string, op: Operation, to: Status)
    requires Launches(s.order, e, id, op, to) && s.current.None?
    requires event.AdvanceCalled? || event.AuthorizationAnswered? || event.DeleteCalled?
    requires Unperformed(s, id)
    ensures InFlightTo(s, After(s, e, event), op, to)
  {
    assert e.published[0] in multiset(e.published);
    assert s.refunds + [] == s.refunds;
  }

  /** A saga started by advancing. */
  lemma AdvancedIntoSaga(s: Slice, op: Operation, to: Status) returns (t: Slice)
    requires Reachable(s) && s.order.deletedAt.None? && !s.order.InFlight() && s.order.Lines() != []
    requires NextStatus(s.order.status) == Ok(to) && op != OpNone
      && DetermineInventoryOperation(s.order.status, to) == op
    ensures Reachable(t) && InFlightTo(s, t, op, to)
  {
    hide Reachable, Advance, Respond, Delete, CustomerDeleted, Webhook, RetryPayment, UpdateOrder, Consume, Recover;
    ReachableInv(s);
    var id := FreshId(s.used);
    var step := Step(AdvanceCalled(id, None), ALL_OK, 0);
    AdvanceLaunches(s.order, op, to, id);
    UnusedIsUnperformed(s, id);
    Launched(s, EffectOf(s.order, step), step.event, id, op, to);
    ReachableStep(s, step);
    t := Do(s, step);
  }

  lemma DeniedIntoSaga(s: Slice) returns (t: Slice)
    requires Reachable(s) && s.order.deletedAt.None? && !s.order.InFlight() && s.order.Lines() != []
    requires s.order.status == PendingAuthorization
    ensures Reachable(t) && InFlightTo(s, t, CancelReserved, AuthorizationDenied)
  {
    hide Reachable, Advance, Respond, Delete, CustomerDeleted, Webhook, RetryPayment, UpdateOrder, Consume, Recover;
    ReachableInv(s);
    var id := FreshId(s.used);
    var step := Step(AuthorizationAnswered(Staff, false, None, id), ALL_OK, 0);
    DenialLaunches(s.order, id);
    UnusedIsUnperformed(s, id);
    Launched(s, EffectOf(s.order, step), step.event, id, CancelReserved, AuthorizationDenied);
    ReachableStep(s, step);
    t := Do(s, step);
  }

  lemma DeletedIntoSaga(s: Slice, op: Operation) returns (t: Slice)
    requires Reachable(s) && s.order.deletedAt.None? && !s.order.InFlight() && s.order.Lines() != []
    requires Starts(s.order.status, op, Canceled)
    ensures Reachable(t) && InFlightTo(s, t, op, Canceled)
  {
    hide Reachable, Advance, Respond, Delete, CustomerDeleted, Webhook, RetryPayment, UpdateOrder, Consume, Recover;
    ReachableInv(s);
    var id := FreshId(s.used);
    var step := Step(DeleteCalled(None, id, true, true), ALL_OK, 0);
    DeletionLaunches(s.order, op, id);
    UnusedIsUnperformed(s, id);
    Launched(s, EffectOf(s.order, step), step.event, id, op, Canceled);
    ReachableStep(s, step);
    t := Do(s, step);
  }

  /** The stock service performs a request and answers it with success. */
  lemma AnswerGiven(s: Slice, r: Request) returns (t: Slice)
    requires Reachable(s) && r in s.requests && !HasPerformed(s.performed, r.sagaId, r.operation)
    ensures Reachable(t) && t.order == s.order && t.current == s.current && t.resolutions == s.resolutions
      && SameMoney(s, t)
    ensures t.performed == s.performed + [r] && t.misasked == s.misasked
    ensures Succeeded(r.sagaId, r.orderId, r.operation) in t.answers
  {
    hide Reachable, Advance, Respond, Delete, CustomerDeleted, Webhook, RetryPayment, UpdateOrder, Consume, Recover;
    var answer := Succeeded(r.sagaId, r.orderId, r.operation);
    var step := Step(StockAnswered(r, answer, false), ALL_OK, 0);
    ReachableStep(s, step);
    t := Do(s, step);
    assert s.refunds + [] == s.refunds;
  }

  /** An answer to the saga in flight arrives. */
  lemma Arrived(s: Slice, answer: Answer) returns (t: Slice)
    requires Reachable(s) && answer in s.answers && answer.Succeeded? && s.order.CanProcessSaga(answer.sagaId)
    requires s.order.target.Some? && !Stuck(s.order.status, s.order.target.value) && s.current.Some?
    ensures Reachable(t) && !t.order.InFlight() && t.order.status == s.order.target.value
      && t.order.items == s.order.items
    ensures t.order.deletedAt == s.order.deletedAt && t.order.paymentId == s.order.paymentId
    ensures t.resolutions == s.resolutions + [Resolution(s.current.value, Applied)]
    ensures SameStock(s, t) && SameMoney(s, t)
  {
    hide Reachable, Advance, Respond, Delete, CustomerDeleted, Webhook, RetryPayment, UpdateOrder, Consume, Recover;
    ReachableInv(s);
    var step := Step(AnswerDelivered(answer, true), ALL_OK, 0);
    ReachableStep(s, step);
    t := Do(s, step);
    DeliverySettles(s.order, answer);
    assert s.refunds + [] == s.refunds;
  }

  /** The request of the saga in flight is performed, and the answer arrives. */
  lemma Settled(s: Slice) returns (t: Slice)
    requires Reachable(s) && s.order.InFlight() && s.current.Some? && s.current.value in s.requests
    requires s.order.target.Some? && !Stuck(s.order.status, s.order.target.value)
    requires Unperformed(s, s.current.value.sagaId)
    ensures Reachable(t) && !t.order.InFlight() && t.order.status == s.order.target.value
      && t.order.items == s.order.items
    ensures t.order.deletedAt == s.order.deletedAt && t.order.paymentId == s.order.paymentId
    ensures t.resolutions == s.resolutions + [Resolution(s.current.value, Applied)]
    ensures t.performed == s.performed + [s.current.value] && t.misasked == s.misasked && SameMoney(s, t)
  {
    hide Reachable;
    ReachableInv(s);
    var r := s.current.value;
    var u := AnswerGiven(s, r);
    t := Arrived(u, Succeeded(r.sagaId, r.orderId, r.operation));
  }

  lemma DeliverySettles(o: Order, answer: Answer)
    requires Coherent(o) && PairOk(o) && answer.Succeeded? && o.CanProcessSaga(answer.sagaId)
    requires o.target.Some? && !Stuck(o.status, o.target.value)
    ensures var e := Consume(o, answer, 0, ALL_OK);
      && e.begun.None? && e.published == [] && e.refunds == []
      && e.order == o.(status := o.target.value, closedAt := e.order.closedAt).CompleteSaga()
  {
  }

  lemma PaymentStarted(s: Slice) returns (t: Slice)
    requires Reachable(s) && s.order.deletedAt.None? && s.order.status == Completed
    ensures Reachable(t) && t.order.status == AwaitingPayment && !t.order.InFlight()
    ensures t.order.items == s.order.items && t.order.deletedAt.None? && t.order.paymentId == s.order.paymentId
    ensures SameStock(s, t) && SameMoney(s, t)
  {
    hide Reachable, Advance, Respond, Delete, CustomerDeleted, Webhook, RetryPayment, UpdateOrder, Consume, Recover;
    var id := FreshId(s.used);
    var step := Step(AdvanceCalled(id, Some(PaymentOrder("m", "u"))), ALL_OK, 0);
    PaymentStarts(s.order, id);
    ReachableStep(s, step);
    t := Do(s, step);
    assert s.refunds + [] == s.refunds;
  }

  /** What a notice of the given kind makes of the status of an order. */
  predicate NoticeLeads(from: Status, reported: PaymentStatus, to: Status) {
    || (from == AwaitingPayment && reported == Approved && to == Paid)
    || (from == AwaitingPayment && reported == Rejected && to == PaymentRejected)
    || (from == Paid && reported == Refunded && to == Canceled)
  }

  lemma NoticeWorks(o: Order, payment: string, reported: PaymentStatus, to: Status)
    requires NoticeLeads(o.status, reported, to) && payment != ""
    ensures var e := Webhook(o, payment, reported, 0, ALL_OK);
      && e.order.status == to && e.order.items == o.items && e.order.deletedAt == o.deletedAt
      && (o.status == AwaitingPayment ==> !e.order.InFlight())
      && (reported == Refunded ==> e.order.InFlight() == o.InFlight() && e.order.target == o.target)
      && e.order.paymentId == (if reported == Approved then Some(payment) else o.paymentId)
      && e.begun.None? && e.published == [] && e.refunds == []
  {
  }

  lemma Notified(s: Slice, payment: string, reported: PaymentStatus, to: Status) returns (t: Slice)
    requires Reachable(s) && NoticeLeads(s.order.status, reported, to) && payment != ""
    ensures Reachable(t) && t.order.status == to && t.order.items == s.order.items
    ensures t.order.deletedAt == s.order.deletedAt
    ensures s.order.status == AwaitingPayment ==> !t.order.InFlight()
    ensures reported == Refunded ==> t.order.InFlight() == s.order.InFlight() && t.order.target == s.order.target
    ensures t.order.paymentId == if reported == Approved then Some(payment) else s.order.paymentId
    ensures SameStock(s, t) && t.refunds == s.refunds
    ensures t.notices == if reported == Refunded then s.notices + {payment} else s.notices
  {
    hide Reachable, Advance, Respond, Delete, CustomerDeleted, Webhook, RetryPayment, UpdateOrder, Consume, Recover;
    NoticeWorks(s.order, payment, reported, to);
    var step := Step(WebhookReceived(payment, reported), ALL_OK, 0);
    ReachableStep(s, step);
    t := Do(s, step);
    assert s.refunds + [] == s.refunds;
  }

  /** An order with one product part. */
  ghost predicate HasPart(s: Slice) {
    s.order.items == [PART] && s.order.deletedAt.None?
  }

  lemma PartHasLine(s: Slice)
    requires HasPart(s)
    ensures s.order.Lines() == [Line("part", 1)] && QuantityOf(s.order.items, (Product, "part")) == 1
  {
    assert ProductLines([PART]) == [Line("part", 1)] + ProductLines([]);
    assert QuantityOf([PART], (Product, "part")) == 1 + QuantityOf([], (Product, "part"));
  }

  lemma Created() returns (s: Slice)
    ensures Reachable(s) && HasPart(s) && s.order.status == Received && !s.order.InFlight() && Clean(s, [])
    ensures s.order.paymentId.None?
  {
    var o := Order("o", "c", "v", "", Received, SagaIdle, None, None, None, None, None, None, [PART], None, None);
    s := FirstSlice(o);
    NoSteps(s);
  }

  /** Nothing has gone astray: exactly these operations were performed, each for the part, each saga took effect, and no
      refund was made or reported. */
  ghost predicate Clean(s: Slice, ops: seq<Operation>) {
    && Performed(s, ops) && AllTookEffect(s) && s.misasked == {}
    && s.refunds == [] && s.notices == {}
  }

  predicate Performed(s: Slice, ops: seq<Operation>) {
    && |s.performed| == |ops|
    && forall i | 0 <= i < |ops| :: s.performed[i].operation == ops[i] && s.performed[i].lines == [Line("part", 1)]
  }

  function OperationsUpTo(to: Status): seq<Operation> {
    if to in {Received, Diagnosing} then []
    else if to in {PendingAuthorization, Authorized, InProgress} then [Reserve]
    else [Reserve, ReservedDecrease]
  }

  lemma StaysClean(s: Slice, t: Slice, ops: seq<Operation>)
    requires Clean(s, ops) && SameStock(s, t) && t.refunds == s.refunds && t.notices == s.notices
    ensures Clean(t, ops)
  {
    EffectsStay(s, t);
  }

  lemma EffectsStay(s: Slice, t: Slice)
    requires AllTookEffect(s) && SameStock(s, t)
    ensures AllTookEffect(t)
  {
    forall i | 0 <= i < |t.performed| ensures TookEffect(t, t.performed[i].sagaId) {
      assert TookEffect(s, s.performed[i].sagaId);
      var k :| 0 <= k < |s.resolutions| && s.resolutions[k].outcome == Applied
        && s.resolutions[k].request.sagaId == s.performed[i].sagaId;
      assert t.resolutions[k] == s.resolutions[k];
    }
  }

  /** A saga that was performed and then took effect. */
  lemma EffectsGrow(s: Slice, t: Slice, r: Request)
    requires AllTookEffect(s) && t.performed == s.performed + [r]
    requires s.resolutions <= t.resolutions && TookEffect(t, r.sagaId)
    ensures AllTookEffect(t)
  {
    forall i | 0 <= i < |t.performed| ensures TookEffect(t, t.performed[i].sagaId) {
      if i < |s.performed| {
        assert TookEffect(s, s.performed[i].sagaId);
        var k :| 0 <= k < |s.resolutions| && s.resolutions[k].outcome == Applied
          && s.resolutions[k].request.sagaId == s.performed[i].sagaId;
        assert t.resolutions[k] == s.resolutions[k];
      }
    }
  }

  lemma SettledClean(s: Slice, t: Slice, r: Request, ops: seq<Operation>)
    requires Clean(s, ops) && r.lines == [Line("part", 1)] && t.performed == s.performed + [r]
      && t.misasked == s.misasked
    requires t.resolutions == s.resolutions + [Resolution(r, Applied)]
    requires t.refunds == s.refunds && t.notices == s.notices
    ensures Clean(t, ops + [r.operation])
  {
    assert t.resolutions[|s.resolutions|] == Resolution(r, Applied);
    EffectsGrow(s, t, r);
  }

  /** A saga is started by advancing, and takes effect. */
  lemma Taken(s: Slice, op: Operation, to: Status, ops: seq<Operation>) returns (t: Slice)
    requires Reachable(s) && HasPart(s) && !s.order.InFlight() && Clean(s, ops) && s.order.status != Paid
    requires NextStatus(s.order.status) == Ok(to) && op != OpNone
      && DetermineInventoryOperation(s.order.status, to) == op
    ensures Reachable(t) && HasPart(t) && t.order.status == to && !t.order.InFlight() && Clean(t, ops + [op])
    ensures t.order.paymentId == s.order.paymentId
  {
    hide Reachable, Clean;
    PartHasLine(s);
    var u := AdvancedIntoSaga(s, op, to);
    t := Settled(u);
    SettledClean(s, t, u.current.value, ops);
  }

  /** Every status up to payment is reached by an order that has products and no saga in flight, without anything going
      astray. */
  lemma {:induction false} Visits(to: Status) returns (s: Slice)
    requires to !in {Delivered, Canceled, AuthorizationDenied}
    ensures Reachable(s) && HasPart(s) && s.order.status == to && !s.order.InFlight()
    ensures Clean(s, OperationsUpTo(to))
    ensures s.order.paymentId == if to == Paid then Some("payment") else None
    decreases Rank(to), 1
  {
    hide Reachable, Clean;
    if to == Received {
      s := Created();
    } else if to == Diagnosing {
      var u := Created();
      s := Shifted(u, Diagnosing);
      StaysClean(u, s, []);
    } else if to == PendingAuthorization {
      var u := Visits(Diagnosing);
      s := Taken(u, Reserve, PendingAuthorization, []);
      assert [] + [Reserve] == [Reserve];
    } else if to == Completed {
      var u := Visits(InProgress);
      s := Taken(u, ReservedDecrease, Completed, [Reserve]);
      assert [Reserve] + [ReservedDecrease] == [Reserve, ReservedDecrease];
    } else {
      s := VisitsOn(to);
    }
  }

  /** The statuses that are reached without a saga. */
  lemma {:induction false} VisitsOn(to: Status) returns (s: Slice)
    requires to in {Authorized, InProgress, AwaitingPayment, PaymentRejected, Paid}
    ensures Reachable(s) && HasPart(s) && s.order.status == to && !s.order.InFlight()
    ensures Clean(s, OperationsUpTo(to))
    ensures s.order.paymentId == if to == Paid then Some("payment") else None
    decreases Rank(to), 0
  {
    hide Reachable, Clean;
    var u;
    if to == Authorized || to == InProgress {
      u := Visits(if to == Authorized then PendingAuthorization else Authorized);
      s := Shifted(u, to);
    } else if to == AwaitingPayment {
      u := Visits(Completed);
      s := PaymentStarted(u);
    } else {
      u := Visits(AwaitingPayment);
      s := Notified(u, "payment", if to == Paid then Approved else Rejected, to);
    }
    StaysClean(u, s, OperationsUpTo(to));
  }

  lemma Flies(status: Status, target: Status) returns (s: Slice)
    requires InFlightPair(status, target)
    ensures Reachable(s) && s.order.InFlight() && s.order.status == status && s.order.target == Some(target)
  {
    hide Reachable;
    if target == AuthorizationDenied {
      s := Visits(PendingAuthorization);
      PartHasLine(s);
      s := DeniedIntoSaga(s);
      if status != PendingAuthorization {
        s := Shifted(s, Authorized);
      }
      if status == InProgress {
        s := Shifted(s, InProgress);
      }
    } else if target == Canceled {
      s := Visits(if status in {Delivered, Canceled} then Paid else status);
      PartHasLine(s);
      var early := s.order.status in {PendingAuthorization, Authorized, InProgress};
      s := DeletedIntoSaga(s, if early then CancelReserved else CancelConfirmed);
      if status == Delivered {
        s := Shifted(s, Delivered);
      } else if status == Canceled {
        s := Notified(s, "payment", Refunded, Canceled);
      }
    } else {
      s := Visits(status);
      PartHasLine(s);
      s := AdvancedIntoSaga(s, if target == Completed then ReservedDecrease else Reserve, target);
    }
  }

  ghost predicate SeenInFlight(status: Status, target: Status) {
    exists s :: Reachable(s) && s.order.InFlight() && s.order.status == status && s.order.target == Some(target)
  }

  /** The fourteen pairs are exactly the ones an order with a saga in flight is ever seen in. */
  lemma InFlightPairsExactly(status: Status, target: Status)
    ensures SeenInFlight(status, target) <==> InFlightPair(status, target)
  {
    hide Reachable;
    if InFlightPair(status, target) {
      var s := Flies(status, target);
    } else if SeenInFlight(status, target) {
      var s :| Reachable(s) && s.order.InFlight() && s.order.status == status && s.order.target == Some(target);
      InFlightStates(s);
    }
  }

  /** The invariant that a saga freezes the status is false: a compensation in flight does not stop the status
      from moving on to where its success can no longer be applied. */
  lemma CompensationCanGetStuck(status: Status, target: Status)
    requires Stuck(status, target)
    ensures SeenInFlight(status, target)
  {
    InFlightPairsExactly(status, target);
  }

  ghost predicate Misleads(s: Slice, status: Status) {
    && Reachable(s) && s.order.InFlight() && s.order.status == status && s.current.Some?
    && |Recover(s.order, ALL_OK).published| == 1
    && Recover(s.order, ALL_OK).published[0].sagaId == s.current.value.sagaId
    && Recover(s.order, ALL_OK).published[0].operation != s.current.value.operation
  }

  /** Recovery can ask for the wrong operation: in each of the four statuses a run leads to a saga in flight
      whose republished request names another operation than the one it was started with. */
  lemma RecoveryCanMislead(status: Status)
    requires RecoveryErrs(status)
    ensures exists s :: Misleads(s, status)
  {
    hide Reachable;
    var s := Flies(status, Canceled);
    RecoveryFidelity(s, ALL_OK);
    assert Misleads(s, status);
  }

  /** An order can be PAID without any payment. */
  lemma PaidWithoutPayment()
    ensures exists s :: Reachable(s) && s.order.status == Paid && s.order.paymentId.None?
  {
    var s := Visits(AwaitingPayment);
    ReachableInv(s);
    var t := Shifted(s, Paid);
    assert t.order.paymentId.None?;
  }

  const EMPTYING := Edit(None, None, None, Some([]), None)

  lemma EmptyingEmpties(o: Order)
    requires o.deletedAt.None? && o.CanModifyItems()
    ensures EditItems(o, EMPTYING) == Ok([])
    ensures var e := UpdateOrder(o, EMPTYING, [], ALL_OK);
      e.order == o.(items := []) && e.begun.None? && e.published == [] && e.refunds == []
  {
  }

  /** All items are removed while a saga is in flight. */
  lemma EmptiedInFlight(s: Slice) returns (t: Slice)
    requires Reachable(s) && s.order.deletedAt.None? && s.order.CanModifyItems()
    requires s.current.Some? && s.order.InFlight() && s.order.Lines() != []
    ensures Reachable(t) && t.order == s.order.(items := [])
    ensures t.current == s.current && t.requests == s.requests && t.resolutions == s.resolutions
    ensures SameStock(s, t) && SameMoney(s, t)
  {
    hide Reachable, Advance, Respond, Delete, CustomerDeleted, Webhook, RetryPayment, UpdateOrder, Consume, Recover;
    var step := Step(OrderEdited(EMPTYING, []), ALL_OK, 0);
    EmptyingEmpties(s.order);
    ReachableStep(s, step);
    t := Do(s, step);
    assert s.refunds + [] == s.refunds;
  }

  // --- Where stock and orders part ---

  /** Stock does not have of the part what the order's status demands. */
  ghost predicate Astray(s: Slice) {
    Reachable(s) && !s.order.InFlight() && !Conserved(s.order.status, s.closingNotice.Some?,
      QuantityOf(s.order.items, (Product, "part")), Reserved(s.performed, "part"), Consumed(s.performed, "part"))
  }

  lemma LedgerOfParts(s: Slice, ops: seq<Operation>)
    requires Performed(s, ops) && 1 <= |ops| <= 3
    ensures Reserved(s.performed, "part") == Reserves(ops[0], 1)
      + (if |ops| > 1 then Reserves(ops[1], 1) else 0) + (if |ops| > 2 then Reserves(ops[2], 1) else 0)
    ensures Consumed(s.performed, "part") == Consumes(ops[0], 1)
      + (if |ops| > 1 then Consumes(ops[1], 1) else 0) + (if |ops| > 2 then Consumes(ops[2], 1) else 0)
  {
    hide Reserves, Consumes;
    assert LineQuantity([Line("part", 1)], "part") == 1 + LineQuantity([], "part");
    var rs := s.performed;
    LedgerStep(rs, "part");
    LedgerStep(rs[1..], "part");
    if |ops| > 1 {
      LedgerStep(rs[1..][1..], "part");
      if |ops| > 2 {
        LedgerStep(rs[1..][1..][1..], "part");
      }
    }
  }

  lemma LedgerStep(rs: seq<Request>, product: string)
    ensures Reserved(rs, product) == if rs == [] then 0
      else Reserves(rs[0].operation, LineQuantity(rs[0].lines, product)) + Reserved(rs[1..], product)
    ensures Consumed(rs, product) == if rs == [] then 0
      else Consumes(rs[0].operation, LineQuantity(rs[0].lines, product)) + Consumed(rs[1..], product)
  {
  }

  ghost predicate LeaksByEdit(s: Slice) {
    Astray(s) && AllTookEffect(s) && NothingMisasked(s)
  }

  /** An edit while the reservation is in flight: nothing else goes wrong, but the part stays reserved for an order that
      has none. */
  lemma EditInFlightLeaksStock()
    ensures exists s :: LeaksByEdit(s)
  {
    hide Reachable, AllTookEffect;
    var s := Visits(Diagnosing);
    PartHasLine(s);
    var t := AdvancedIntoSaga(s, Reserve, PendingAuthorization);
    var u := EmptiedInFlight(t);
    var v := Settled(u);
    SettledClean(s, v, u.current.value, []);
    LedgerOfParts(v, [Reserve]);
    assert QuantityOf([], (Product, "part")) == 0;
    assert LeaksByEdit(v);
  }

  /** The reservation that was performed is for the quantity of the part on the order. */
  predicate ReservationFits(s: Slice) {
    var reservation := Reservation(s.performed);
    reservation.Some? && LineQuantity(reservation.value.lines, "part") == QuantityOf(s.order.items, (Product, "part"))
  }

  lemma PartFits(s: Slice, ops: seq<Operation>)
    requires HasPart(s) && Performed(s, ops) && ops != [] && ops[0] == Reserve
    ensures ReservationFits(s)
  {
    PartHasLine(s);
    assert LineQuantity([Line("part", 1)], "part") == 1 + LineQuantity([], "part");
  }

  ghost predicate LosesByPayment(s: Slice) {
    Astray(s) && s.order.status == Paid && NothingMisasked(s) && ReservationFits(s)
  }

  /** A payment that drops a performed return: the part was given back to stock, the order is PAID for it. */
  lemma ConfirmationDropsPerformedReturn()
    ensures exists s :: LosesByPayment(s)
  {
    hide Reachable;
    var s := Visits(AwaitingPayment);
    PartHasLine(s);
    var t := DeletedIntoSaga(s, CancelConfirmed);
    var u := AnswerGiven(t, t.current.value);
    var v := Notified(u, "payment", Approved, Paid);
    GivenBackYetPaid(v);
    assert LosesByPayment(v);
  }

  lemma GivenBackYetPaid(s: Slice)
    requires Reachable(s) && HasPart(s) && s.order.status == Paid && !s.order.InFlight()
    requires Performed(s, [Reserve, ReservedDecrease, CancelConfirmed])
    ensures Astray(s) && ReservationFits(s)
  {
    hide Reachable, Performed;
    PartHasLine(s);
    LedgerOfParts(s, [Reserve, ReservedDecrease, CancelConfirmed]);
    PartFits(s, [Reserve, ReservedDecrease, CancelConfirmed]);
  }

  /** A deletion whose request is not published. */
  lemma DeletedUnpublished(s: Slice) returns (t: Slice)
    requires Reachable(s) && HasPart(s) && !s.order.InFlight() && s.order.status == AwaitingPayment
    ensures Reachable(t) && t.order.InFlight() && t.order.target == Some(Canceled) && t.order.status == AwaitingPayment
    ensures HasPart(t) && t.current.Some? && t.resolutions == s.resolutions && SameStock(s, t) && SameMoney(s, t)
    ensures t.order.sagaId == Some(t.current.value.sagaId) && Unperformed(t, t.current.value.sagaId)
    ensures t.current.value.operation == CancelConfirmed && t.current.value.lines == [Line("part", 1)]
  {
    hide Reachable, Advance, Respond, Delete, CustomerDeleted, Webhook, RetryPayment, UpdateOrder, Consume, Recover;
    hide Accounted, Spoken, Frozen, MoneySafe, Audited, LegalLog, Bounded, NotLost, SoundItems, QuantityOf;
    ReachableInv(s);
    PartHasLine(s);
    var id := FreshId(s.used);
    UnusedIsUnperformed(s, id);
    var step := Step(DeleteCalled(None, id, true, true), Faults(true, true, false), 0);
    UnpublishedDeletion(s.order, id);
    ReachableStep(s, step);
    t := Do(s, step);
    assert s.refunds + [] == s.refunds;
  }

  lemma UnpublishedDeletion(o: Order, id: string)
    requires o.deletedAt.None? && !o.InFlight() && o.Lines() != [] && id != "" && o.status == AwaitingPayment
    ensures var e := Delete(o, None, id, true, 0, Faults(true, true, false));
      && e.order == o.(sagaStatus := SagaAwaitingInventory, sagaId := Some(id), target := Some(Canceled), notes := None)
      && e.begun == Some(Request(id, o.id, CancelConfirmed, o.Lines())) && e.published == [] && e.refunds == []
  {
    hide ProductLines;
  }

  /** A restart asks again for the saga in flight. */
  lemma Restarted(s: Slice) returns (t: Slice, r: Request)
    requires Reachable(s) && s.order.InFlight() && s.current.Some? && RecoveryErrs(s.order.status)
    ensures Reachable(t) && t.order == s.order && t.current == s.current && t.resolutions == s.resolutions
    ensures t.performed == s.performed && SameMoney(s, t) && t.misasked == s.misasked + {r.sagaId}
    ensures r in t.requests && r.sagaId == s.current.value.sagaId && r.operation == CancelReserved
    ensures r.lines == s.order.Lines()
  {
    hide Reachable, Advance, Respond, Delete, CustomerDeleted, Webhook, RetryPayment, UpdateOrder, Consume, Recover;
    hide Accounted, Spoken, Frozen, MoneySafe, Audited, LegalLog, Bounded, NotLost, SoundItems;
    ReachableInv(s);
    RecoveryAsksBack(s.order);
    var step := Step(ServiceRestarted, ALL_OK, 0);
    ReachableStep(s, step);
    t := Do(s, step);
    r := Request(s.order.sagaId.value, s.order.id, CancelReserved, s.order.Lines());
    assert r in multiset([r]);
    assert s.refunds + [] == s.refunds;
  }

  lemma RecoveryAsksBack(o: Order)
    requires Coherent(o) && PairOk(o) && o.InFlight() && RecoveryErrs(o.status)
    ensures Recover(o, ALL_OK) ==
      Effect(o, [], None, [Request(o.sagaId.value, o.id, CancelReserved, o.Lines())], [], None)
  {
    hide ProductLines;
  }

  ghost predicate LosesByRecovery(s: Slice) {
    Astray(s) && s.order.status == Canceled && AllTookEffect(s) && ReservationFits(s)
  }

  /** A cancellation that recovery took for another one: the part that was taken out is not given back, and one is freed
      that was never reserved. */
  lemma RecoveredCancellationMiscounts()
    ensures exists s :: LosesByRecovery(s)
  {
    hide Reachable, AllTookEffect;
    var s := Visits(AwaitingPayment);
    var t := DeletedUnpublished(s);
    PartHasLine(t);
    var u, r := Restarted(t);
    var v := AnswerGiven(u, r);
    var w := Arrived(v, Succeeded(r.sagaId, r.orderId, r.operation));
    assert TookEffect(w, r.sagaId) by {
      assert w.resolutions[|t.resolutions|] == Resolution(t.current.value, Applied);
    }
    EffectsGrow(s, w, r);
    PartHasLine(w);
    LedgerOfParts(w, [Reserve, ReservedDecrease, CancelReserved]);
    PartFits(w, [Reserve, ReservedDecrease, CancelReserved]);
    assert LosesByRecovery(w);
  }

  // --- Where money and orders part ---

  ghost predicate CanceledForAnother(s: Slice) {
    && Reachable(s) && s.order.status == Canceled && s.order.paymentId == Some("payment")
    && "payment" !in s.refunds && "payment" !in s.notices
  }

  /** A refund reported for another payment cancels a paid order, whose own payment nobody has given back. */
  lemma ForeignNoticeCancels()
    ensures exists s :: CanceledForAnother(s)
  {
    hide Reachable;
    var s := Visits(Paid);
    var t := Notified(s, "other", Refunded, Canceled);
    assert "payment" != "other";
    assert CanceledForAnother(t);
  }

  ghost predicate RefundedTwice(s: Slice) {
    Reachable(s) && s.refunds == ["payment", "payment"]
  }

  /** The deletion of a paid order can be asked for twice, and refunds twice: the second time before it finds that a
      saga is in flight. */
  lemma PaymentRefundedTwice()
    ensures exists s :: RefundedTwice(s)
  {
    hide Reachable;
    var s := Visits(Paid);
    PartHasLine(s);
    var t := DeletionAsked(s, ALL_OK);
    var u := DeletionAsked(t, ALL_OK);
    assert [] + ["payment"] + ["payment"] == ["payment", "payment"];
    assert RefundedTwice(u);
  }

  /** Deletion is asked for. */
  lemma DeletionAsked(s: Slice, f: Faults) returns (t: Slice)
    requires Reachable(s) && s.order.status == Paid && s.order.paymentId == Some("payment") && s.order.deletedAt.None?
    requires !f.saveOk || s.order.Lines() != []
    ensures Reachable(t) && t.refunds == s.refunds + ["payment"] && t.order.status == Paid
    ensures t.order.paymentId == s.order.paymentId && t.order.items == s.order.items && t.order.deletedAt.None?
    ensures if f.saveOk then t.order.InFlight() else t.order == s.order
  {
    hide Reachable, Advance, Respond, Delete, CustomerDeleted, Webhook, RetryPayment, UpdateOrder, Consume, Recover;
    var id := FreshId(s.used);
    var step := Step(DeleteCalled(None, id, true, true), f, 0);
    ReachableStep(s, step);
    t := Do(s, step);
    DeletionOfPaid(s.order, id, f);
  }

  lemma DeletionOfPaid(o: Order, id: string, f: Faults)
    requires o.status == Paid && o.paymentId == Some("payment") && o.deletedAt.None? && id != ""
    requires !f.saveOk || o.Lines() != []
    ensures var e := Delete(o, None, id, true, 0, f);
      && e.refunds == ["payment"] && e.order.status == Paid && e.order.paymentId == o.paymentId
      && e.order.items == o.items && e.order.deletedAt == o.deletedAt
      && if f.saveOk then e.order.InFlight() else e.order == o
  {
    hide ProductLines;
    assert |"payment"| > 0;
  }

  ghost predicate DeliveredAndRefunded(s: Slice, inFlight: bool) {
    Reachable(s) && s.order.status == Delivered && s.order.InFlight() == inFlight
    && s.order.paymentId == Some("payment") && "payment" in s.refunds
  }

  /** A deletion whose refund goes through leaves the order PAID, and it can be delivered: when it could not be stored
      after the refund, and also when everything goes through and a saga is in flight. */
  lemma RefundedOrderCanBeDelivered(inFlight: bool)
    ensures exists s :: DeliveredAndRefunded(s, inFlight)
  {
    hide Reachable;
    var s := Visits(Paid);
    PartHasLine(s);
    var t := DeletionAsked(s, if inFlight then ALL_OK else Faults(true, false, true));
    var u := Shifted(t, Delivered);
    assert "payment" in ["payment"];
    assert DeliveredAndRefunded(u, inFlight);
  }

  ghost predicate WaitsForCancelled(s: Slice) {
    Reachable(s) && s.order.status == AwaitingPayment && !s.order.InFlight()
    && s.order.preferenceId.Some? && s.order.preferenceId.value in s.withdrawn
  }

  /** An order can be left waiting for a payment whose provider order has been cancelled. */
  lemma WaitsForCancelledPayment()
    ensures exists s :: WaitsForCancelled(s)
  {
    hide Reachable, Delete;
    var s := Visits(AwaitingPayment);
    var id := FreshId(s.used);
    var f := Faults(true, false, true);
    var step := Step(DeleteCalled(None, id, true, true), f, 0);
    ReachableStep(s, step);
    LeftWaitingExactly(s, step);
    UnstoredDeletion(s.order, id, f);
    assert WaitsForCancelled(Do(s, step));
  }

  lemma UnstoredDeletion(o: Order, id: string, f: Faults)
    requires !f.saveOk
    ensures Delete(o, None, id, true, 0, f).order == o
  {
    hide ProductLines;
  }

  ghost predicate TakesForNothing(s: Slice) {
    && Reachable(s) && s.order.status == Paid
    && Webhook(s.order, "payment", Approved, 0, ALL_OK) == Ignored(s.order)
    && forall notes, saga, f :: Delete(s.order, notes, saga, true, 0, f).refunds == []
  }

  /** The approval of a payment for an order set to PAID by hand is dropped, and deletion gives nothing back. */
  lemma PaidByHandIsNeverRefunded()
    ensures exists s :: TakesForNothing(s)
  {
    hide Reachable, CancelOrder;
    var s := Visits(AwaitingPayment);
    var t := Shifted(s, Paid);
    assert t.order.paymentId.None?;
    forall notes, saga, f ensures Delete(t.order, notes, saga, true, 0, f).refunds == [] {
      CancelRefundsNothing(t.order, notes, saga, 0, f);
    }
    assert TakesForNothing(t);
  }

  ghost predicate AsksForNothing(s: Slice) {
    && Reachable(s) && s.order.InFlight()
    && |Recover(s.order, ALL_OK).published| == 1 && Recover(s.order, ALL_OK).published[0].lines == []
  }

  /** After such an edit a restart publishes a request without any product. */
  lemma RecoveryCanAskForNothing()
    ensures exists s :: AsksForNothing(s)
  {
    hide Reachable;
    var s := Visits(Diagnosing);
    PartHasLine(s);
    var t := AdvancedIntoSaga(s, Reserve, PendingAuthorization);
    var u := EmptiedInFlight(t);
    RecoveryFidelity(u, ALL_OK);
    assert u.order.Lines() == [];
    assert AsksForNothing(u);
  }
}
