/**
  The simple system behind the handlers.

  Whatever a handler is called for, and whichever of its writes fail, the stored order makes one of ten
  moves. The moves know no queue and no message: a saga begins, takes effect, fails, or is abandoned.
*/
module Moves {
  import opened Prelude
  import opened OrderStatus
  import opened Items
  import opened Orders
  import opened Effects

  datatype Move =
    | Stay                                         // nothing stored
    | Begin(request: Request, to: Status)          // a saga is stored as started
    | Local(to: Status)                            // a saga step that needs no stock operation
    | Shift(to: Status)                            // a status change that leaves the saga fields alone
    | AwaitPay                                     // to AWAITING_PAYMENT, dropping any saga
    | Confirm(payment: string)                     // to PAID, dropping any saga
    | Reject                                       // to PAYMENT_REJECTED, dropping any saga
    | Settle                                       // the saga in flight takes effect
    | Fail                                         // the saga in flight fails
    | Revise                                       // an edit

  /** From which status a saga with which operation starts towards which status. */
  predicate Starts(from: Status, op: Operation, to: Status) {
    match op
    case Reserve => from == Diagnosing && to == PendingAuthorization
    case ReservedDecrease => from == InProgress && to == Completed
    case CancelReserved =>
      || (from == PendingAuthorization && to == AuthorizationDenied)
      || (from in {PendingAuthorization, Authorized, InProgress} && to == Canceled)
    case CancelConfirmed =>
      from in {Completed, AwaitingPayment, PaymentRejected, Paid} && to == Canceled
    case OpNone => false
  }

  /** The status changes made without regard to a saga in flight. */
  predicate Shifts(from: Status, to: Status) {
    || (from == Received && to == Diagnosing)
    || (from == PendingAuthorization && to == Authorized)
    || (from == Authorized && to == InProgress)
    || (from == AwaitingPayment && to == Paid)
    || (from == Paid && to in {Delivered, Canceled})
  }

  ghost predicate Moved(o: Order, m: Move, o': Order, now: Time) {
    match m
    case Stay => o' == o
    case Begin(request, to) =>
      && !o.InFlight()
      && Starts(o.status, request.operation, to)
      && request.lines == o.Lines() != []
      && request.sagaId != ""
      && o' == o.(sagaStatus := SagaAwaitingInventory, sagaId := Some(request.sagaId), target := Some(to),
        notes := o'.notes)
    case Local(to) =>
      && !o.InFlight()
      && ((o.status in {Received, Diagnosing} && to == Canceled)
          || (o.Lines() == [] && exists op :: Starts(o.status, op, to)))
      && Finish(o, to, now) == Ok(o')
    case Shift(to) => Shifts(o.status, to) && o.UpdateStatus(to, now) == Ok(o')
    case AwaitPay =>
      && o.status in {Completed, PaymentRejected}
      && o'.preferenceId.Some? && o'.paymentUrl.Some?
      && o.AwaitPayment(o'.preferenceId.value, o'.paymentUrl.value, now) == Ok(o')
    case Confirm(payment) => o.status == AwaitingPayment && o.ConfirmPayment(payment, now) == Ok(o')
    case Reject => o.status == AwaitingPayment && o.RejectPayment(now) == Ok(o')
    case Settle => o.InFlight() && o.target.Some? && Finish(o, o.target.value, now) == Ok(o')
    case Fail => o.InFlight() && o' == o.FailSaga()
    case Revise =>
      && o' == o.(customerId := o'.customerId, vehicleId := o'.vehicleId, description := o'.description,
        items := o'.items)
      && (o.CanModifyItems() || o'.Lines() == o.Lines())
      && (Sound(o.items) ==> Sound(o'.items))
  }

  /** An entry records the stored status as old status, and a legal edge or no change at all. */
  predicate SoundEntry(o: Order, e: Entry) {
    e.change.Some? ==>
      && e.change.value.0 == o.status
      && (e.change.value.1 == o.status || CanTransitionTo(o.status, e.change.value.1))
  }

  /** How an effect relates to the move it makes. */
  ghost predicate Matches(o: Order, m: Move, e: Effect, now: Time) {
    && Moved(o, m, e.order, now)
    // history: at most one entry; what is stored without error was recorded just before
    && |e.entries| <= 1
    && (forall x | x in e.entries :: SoundEntry(o, x))
    && (e.order.status != o.status ==>
          |e.entries| == 1 && e.entries[0].change == Some((o.status, e.order.status)))
    && (e.error.None? && e.entries != [] && e.entries[0].change.Some? ==>
          e.entries[0].change.value.1 == e.order.status)
    // requests: a started saga stands for its request, and only the current saga is ever asked for
    && (e.begun == if m.Begin? then Some(m.request) else None)
    && (forall r | r in e.published ::
          && r.orderId == o.id && e.order.Current() == Some(r.sagaId) && r.lines == e.order.Lines()
          && if m.Begin? then r == m.request else m.Stay? && InferOperation(o) == Ok(r.operation))
    && (m.Begin? && e.error.None? ==> e.published == [m.request])
    // money: a cancellation of a paid order that is not told by the provider was refunded first
    && (o.status == Paid && (m.Begin? || m.Local?) && o.paymentId.Some? && o.paymentId.value != "" ==>
          o.paymentId.value in e.refunds)
  }

  lemma TransitionLocalMoves(o: Order, to: Status, op: Operation, notes: Option<string>, now: Time, f: Faults,
                             refunds: seq<string>)
    returns (m: Move)
    requires !o.InFlight() && o.status != to
    requires (o.status in {Received, Diagnosing} && to == Canceled)
             || (o.Lines() == [] && exists op' :: Starts(o.status, op', to))
    requires o.status == Paid && o.paymentId.Some? && o.paymentId.value != "" ==> o.paymentId.value in refunds
    ensures Matches(o, m, TransitionLocal(o, to, op, notes, now, f).(refunds := refunds), now)
    ensures m in {Stay, Local(to)}
  {
    m := if Finish(o, to, now).Ok? && f.historyOk && f.saveOk then Local(to) else Stay;
  }

  lemma LaunchMoves(o: Order, op: Operation, to: Status, notes: Option<string>, saga: string, now: Time, f: Faults,
                    refunds: seq<string>)
    returns (m: Move)
    requires !o.InFlight() && o.Lines() != [] && Starts(o.status, op, to)
    requires o.status == Paid && o.paymentId.Some? && o.paymentId.value != "" ==> o.paymentId.value in refunds
    ensures Matches(o, m, Launch(o, op, to, notes, saga, f).(refunds := refunds), now)
    ensures m in {Stay, Begin(Request(saga, o.id, op, o.Lines()), to)}
  {
    hide Launch, Sound, ProductLines, Starts, Shifts, InferOperation, SoundEntry, Finish, CanTransitionTo;
    LaunchLeaves(o, op, to, notes, saga, f);
    if saga == "" || !f.saveOk {
      m := Stay;
    } else {
      m := Begin(Request(saga, o.id, op, o.Lines()), to);
    }
  }

  lemma LaunchLeaves(o: Order, op: Operation, to: Status, notes: Option<string>, saga: string, f: Faults)
    ensures var e, request := Launch(o, op, to, notes, saga, f), Request(saga, o.id, op, o.Lines());
      if saga == "" || !f.saveOk then
        e == Refused(o, if saga == "" then InvalidSagaId else WriteFailed)
      else
        && e.order == o.(sagaStatus := SagaAwaitingInventory, sagaId := Some(saga), target := Some(to), notes := notes)
        && e.entries == [] && e.begun == Some(request) && e.refunds == []
        && e.published == (if f.publishOk then [request] else [])
        && e.error == (if f.publishOk then None else Some(WriteFailed))
  {
    hide ProductLines;
  }

  /** What saga starts and cancellations do, with the refunds made beforehand. */
  lemma StartSagaMoves(o: Order, op: Operation, to: Status, notes: Option<string>, saga: string, now: Time, f: Faults,
                       refunds: seq<string>)
    returns (m: Move)
    requires Starts(o.status, op, to)
    requires o.status == Paid && o.paymentId.Some? && o.paymentId.value != "" ==> o.paymentId.value in refunds
    ensures Matches(o, m, StartSaga(o, op, to, notes, saga, now, f).(refunds := refunds), now)
    ensures m.Stay? || m.Local? || m.Begin?
    ensures m.Begin? ==> m.request.sagaId == saga
  {
    hide TransitionLocal, Launch, Sound, ProductLines, Finish, CanTransitionTo;
    if o.deletedAt.Some? || o.InFlight() {
      m := Stay;
    } else if o.Lines() == [] {
      m := TransitionLocalMoves(o, to, op, notes, now, f, refunds);
    } else {
      m := LaunchMoves(o, op, to, notes, saga, now, f, refunds);
    }
  }

  lemma CancelOrderMoves(o: Order, notes: Option<string>, saga: string, now: Time, f: Faults, refunds: seq<string>)
    returns (m: Move)
    requires o.status == Paid && o.paymentId.Some? && o.paymentId.value != "" ==> o.paymentId.value in refunds
    ensures Matches(o, m, CancelOrder(o, notes, saga, now, f).(refunds := refunds), now)
    ensures m.Stay? || m.Local? || m.Begin?
    ensures m.Begin? ==> m.request.sagaId == saga
  {
    hide TransitionLocal, StartSaga, Sound;
    if o.deletedAt.Some? || o.InFlight() || IsFinal(o.status) {
      m := Stay;
    } else if o.status in {Received, Diagnosing} {
      m := TransitionLocalMoves(o, Canceled, OpNone, notes, now, f, refunds);
    } else if o.status in {PendingAuthorization, Authorized, InProgress} {
      m := StartSagaMoves(o, CancelReserved, Canceled, notes, saga, now, f, refunds);
    } else {
      m := StartSagaMoves(o, CancelConfirmed, Canceled, notes, saga, now, f, refunds);
    }
  }

  lemma DeleteMoves(o: Order, notes: Option<string>, saga: string, refundOk: bool, now: Time, f: Faults)
    returns (m: Move)
    ensures Matches(o, m, Delete(o, notes, saga, refundOk, now, f), now)
    ensures m.Stay? || m.Local? || m.Begin?
    ensures m.Begin? ==> m.request.sagaId == saga
  {
    var e := Delete(o, notes, saga, refundOk, now, f);
    if o.deletedAt.Some? {
      m := Stay;
    } else if o.status == Paid && o.paymentId.Some? && o.paymentId.value != "" {
      if refundOk {
        m := CancelOrderMoves(o, notes, saga, now, f, [o.paymentId.value]);
      } else {
        m := Stay;
      }
    } else {
      m := CancelOrderMoves(o, notes, saga, now, f, []);
      CancelRefundsNothing(o, notes, saga, now, f);
      assert e == CancelOrder(o, notes, saga, now, f).(refunds := []);
    }
  }

  lemma StartRefundsNothing(o: Order, op: Operation, to: Status, notes: Option<string>, saga: string, now: Time,
                            f: Faults)
    ensures StartSaga(o, op, to, notes, saga, now, f).refunds == []
  {
    hide Finish, ProductLines, SagaEntry, CanTransitionTo;
  }

  lemma CancelRefundsNothing(o: Order, notes: Option<string>, saga: string, now: Time, f: Faults)
    ensures CancelOrder(o, notes, saga, now, f).refunds == []
  {
  }

  lemma AdvanceMoves(o: Order, saga: string, provider: Option<PaymentOrder>, now: Time, f: Faults)
    returns (m: Move)
    ensures Matches(o, m, Advance(o, saga, provider, now, f), now)
    ensures !m.Settle? && !m.Fail? && !m.Confirm? && !m.Revise? && m != Shift(Canceled)
    ensures m.Begin? ==> m.request.sagaId == saga
  {
    hide StartSaga, Sound;
    var e := Advance(o, saga, provider, now, f);
    if o.deletedAt.Some? || NextStatus(o.status).Err? {
      m := Stay;
    } else {
      var next := NextStatus(o.status).value;
      var op := DetermineInventoryOperation(o.status, next);
      if op != OpNone {
        m := StartSagaMoves(o, op, next, None, saga, now, f, []);
        StartRefundsNothing(o, op, next, None, saga, now, f);
        assert e == StartSaga(o, op, next, None, saga, now, f).(refunds := []);
      } else if e.order == o {
        m := Stay;
      } else if o.status == Completed {
        m := AwaitPay;
      } else {
        m := Shift(next);
      }
    }
  }

  lemma RespondMoves(o: Order, caller: Caller, approved: bool, observation: Option<string>, saga: string, now: Time,
                     f: Faults)
    returns (m: Move)
    ensures Matches(o, m, Respond(o, caller, approved, observation, saga, now, f), now)
    ensures m.Stay? || m.Local? || m.Begin? || m == Shift(Authorized)
    ensures m.Begin? ==> m.request.sagaId == saga
  {
    hide StartSaga, Sound;
    var e := Respond(o, caller, approved, observation, saga, now, f);
    if (caller.Customer? && caller.id != o.customerId) || o.deletedAt.Some? || o.status != PendingAuthorization {
      m := Stay;
    } else if approved {
      m := if e.order == o then Stay else Shift(Authorized);
    } else {
      m := StartSagaMoves(o, CancelReserved, AuthorizationDenied, observation, saga, now, f, []);
      StartRefundsNothing(o, CancelReserved, AuthorizationDenied, observation, saga, now, f);
      assert e == StartSaga(o, CancelReserved, AuthorizationDenied, observation, saga, now, f).(refunds := []);
    }
  }

  lemma ConsumeMoves(o: Order, answer: Answer, now: Time, f: Faults) returns (m: Move)
    requires o.InFlight() ==> o.target.Some?
    ensures Matches(o, m, Consume(o, answer, now, f), now)
    ensures m in {Stay, if answer.Succeeded? then Settle else Fail}
    ensures m != Stay ==> o.CanProcessSaga(answer.sagaId)
  {
    m := if o.CanProcessSaga(answer.sagaId) && Consume(o, answer, now, f).error.None?
      then (if answer.Succeeded? then Settle else Fail)
      else Stay;
  }

  lemma RecoverMoves(o: Order, now: Time, f: Faults)
    ensures Matches(o, Stay, Recover(o, f), now)
  {
  }

  lemma WebhookMoves(o: Order, payment: string, reported: PaymentStatus, now: Time, f: Faults) returns (m: Move)
    ensures Matches(o, m, Webhook(o, payment, reported, now, f), now)
    ensures m in {Stay, Confirm(payment), Reject, Shift(Canceled)}
    ensures m == Shift(Canceled) ==> reported == Refunded
    ensures reported == Refunded ==> m in {Stay, Shift(Canceled)}
  {
    hide Sound;
    var e := Webhook(o, payment, reported, now, f);
    m := if e.order == o then Stay
    else match reported
      case Approved => Confirm(payment)
      case Refunded => Shift(Canceled)
      case _ => Reject;
  }

  lemma RetryMoves(o: Order, provider: Option<PaymentOrder>, now: Time, f: Faults) returns (m: Move)
    ensures Matches(o, m, RetryPayment(o, provider, now, f), now)
    ensures m in {Stay, AwaitPay}
  {
    m := if RetryPayment(o, provider, now, f).error.None? then AwaitPay else Stay;
  }

  lemma UpdateMoves(o: Order, edit: Edit, ids: seq<string>, now: Time, f: Faults) returns (m: Move)
    ensures Matches(o, m, UpdateOrder(o, edit, ids, f), now)
    ensures m in {Stay, Revise}
  {
    var e := UpdateOrder(o, edit, ids, f);
    m := if e.error.None? then Revise else Stay;
    if m == Revise {
      if Sound(o.items) {
        EditsStaySound(o, edit, ids);
      }
      if edit.items.None? {
        IdentifiedKeepsLines(o.items, ids);
      }
    }
  }
}
