/** The consumer of the message that a customer was deleted: it deletes the customer's open orders. */
module CustomerDeletion {
  import opened Prelude
  import opened OrderStatus
  import opened Items
  import opened Orders
  import opened Effects
  import opened Orchestration
  import opened UseCases

  const NOTE := "Cliente removido"

  const NO_FAULTS := Faults(true, true, true)

  /** What the surroundings contribute to one delivery of the message: the fresh saga id that each order would
      get, the writes that go through for it, the provider's answers, and the time. */
  datatype Delivery = Delivery(
    saga: string -> string,
    faults: string -> Faults,
    cancelOk: bool,
    refundOk: bool,
    now: Time)

  function EffectOn(o: Order, d: Delivery, f: Faults): Effect {
    CustomerDeleted(o, Some(NOTE), d.saga(o.id), d.refundOk, d.now, f)
  }

  /** What becomes of an order when all goes well. */
  function Outcome(o: Order, d: Delivery): Order { EffectOn(o, d, NO_FAULTS).order }

  /** Nothing is left to do for the order: it is past its open statuses, or a saga is in flight. */
  predicate Handled(o: Order) {
    o.InFlight() || !OpenForCustomerDeletion(o.status)
  }

  /** An order that is handled already is left alone. Any other one is canceled at once when it has no products
      or nothing has been reserved yet, and otherwise a saga towards CANCELED is in flight. */
  lemma OutcomeMeaning(o: Order, d: Delivery)
    requires o.deletedAt.None? && d.saga(o.id) != ""
    ensures Handled(Outcome(o, d))
    ensures Outcome(o, d) ==
      if Handled(o) then o
      else if o.status in {Received, Diagnosing} || o.Lines() == [] then
        o.(status := Canceled, closedAt := OrElse(o.closedAt, Some(d.now))).CompleteSaga()
      else
        o.(sagaStatus := SagaAwaitingInventory, sagaId := Some(d.saga(o.id)), target := Some(Canceled),
          notes := Some(NOTE))
  {
    hide ProductLines, EffectOn, SagaEntry;
    EffectOnIs(o, d, NO_FAULTS);
  }

  /** To cancel the order takes the stock service. */
  predicate NeedsStock(o: Order) {
    o.status !in {Received, Diagnosing} && o.Lines() != []
  }

  /** What exactly is left behind, whatever fails. An order that is handled already causes nothing. Any other one gets
      its outcome exactly if the order is stored and, where the stock service is not needed, the history entry before;
      a request is published exactly if after that the publication goes through; and no refund is made. */
  lemma FaultyOutcome(o: Order, d: Delivery, f: Faults)
    requires o.deletedAt.None? && d.saga(o.id) != ""
    ensures Handled(o) ==> EffectOn(o, d, f) == Ignored(o)
    ensures !Handled(o) ==>
      var e := EffectOn(o, d, f);
      && e.order == (if f.saveOk && (f.historyOk || NeedsStock(o)) then Outcome(o, d) else o)
      && e.published == (if NeedsStock(o) && f.saveOk && f.publishOk
                         then [Request(d.saga(o.id), o.id, CancelReserved, o.Lines())] else [])
      && (e.error.None? <==> f.saveOk && if NeedsStock(o) then f.publishOk else f.historyOk)
      && e.refunds == []
  {
    hide EffectOn, TransitionLocal, Launch;
    EffectOnIs(o, d, f);
    EffectOnIs(o, d, NO_FAULTS);
    var op := if o.status in {Received, Diagnosing} then OpNone else CancelReserved;
    if !Handled(o) {
      LocalFaults(o, Canceled, op, Some(NOTE), d.now, f);
    }
    LaunchFaults(o, CancelReserved, Canceled, Some(NOTE), d.saga(o.id), f);
  }

  /** The order is in flight since the step. */
  predicate Started(before: Order, after: Order) {
    after != before && after.InFlight()
  }

  /** A saga that deletion stores as started has its request published exactly if the publication goes through. */
  lemma AskedForExactly(o: Order, d: Delivery, f: Faults)
    requires o.deletedAt.None? && d.saga(o.id) != ""
    ensures var e := EffectOn(o, d, f);
      && (e.published != [] <==> Started(o, e.order) && f.publishOk)
      && (forall r | r in e.published :: r.orderId == o.id)
  {
    hide EffectOn, Outcome;
    FaultyOutcome(o, d, f);
    OutcomeMeaning(o, d);
  }

  /** A failed publication leaves the order in flight without a request, and another delivery of the message does
      nothing about it, even if all goes well. */
  lemma FailedPublication(o: Order, d: Delivery, f: Faults, second: Delivery, f': Faults)
    requires o.deletedAt.None? && d.saga(o.id) != "" && second.saga(o.id) != ""
    requires !Handled(o) && NeedsStock(o) && f.saveOk && !f.publishOk
    ensures var e := EffectOn(o, d, f);
      && e.order == Outcome(o, d) && e.order.InFlight()
      && e.published == [] && e.error.Some?
      && EffectOn(e.order, second, f') == Ignored(e.order)
  {
    hide EffectOn, Outcome;
    FaultyOutcome(o, d, f);
    OutcomeMeaning(o, d);
    FaultyOutcome(Outcome(o, d), second, f');
  }

  /** Which of the orchestrator's two ways an open order takes. */
  lemma EffectOnIs(o: Order, d: Delivery, f: Faults)
    requires o.deletedAt.None?
    ensures EffectOn(o, d, f) ==
      if Handled(o) then Ignored(o)
      else if o.status in {Received, Diagnosing} then TransitionLocal(o, Canceled, OpNone, Some(NOTE), d.now, f)
      else if o.Lines() == [] then TransitionLocal(o, Canceled, CancelReserved, Some(NOTE), d.now, f)
      else Launch(o, CancelReserved, Canceled, Some(NOTE), d.saga(o.id), f)
  {
    hide ProductLines, TransitionLocal, Launch;
  }

  lemma LocalFaults(o: Order, to: Status, op: Operation, notes: Option<string>, now: Time, f: Faults)
    requires CanTransitionTo(o.status, to)
    ensures var e, fine := TransitionLocal(o, to, op, notes, now, f), TransitionLocal(o, to, op, notes, now, NO_FAULTS);
      && e.order == (if f.historyOk && f.saveOk then fine.order else o)
      && e.published == [] && e.refunds == []
      && (e.error.None? <==> f.historyOk && f.saveOk)
  {
    hide SagaEntry;
  }

  lemma LaunchFaults(o: Order, op: Operation, to: Status, notes: Option<string>, saga: string, f: Faults)
    requires saga != ""
    ensures var e, fine := Launch(o, op, to, notes, saga, f), Launch(o, op, to, notes, saga, NO_FAULTS);
      && e.order == (if f.saveOk then fine.order else o)
      && e.published == (if f.saveOk && f.publishOk then [Request(saga, o.id, op, o.Lines())] else [])
      && (e.error.None? <==> f.saveOk && f.publishOk) && e.refunds == []
  {
    hide ProductLines;
  }

  /** What one delivery leaves behind. */
  datatype Swept = Swept(rows: map<string, Order>, entries: seq<Entry>, requests: seq<Request>, error: Option<Error>)

  /** The orders are handled one after the other, up to the first error. */
  function Sweep(rows: map<string, Order>, ids: seq<string>, d: Delivery): Swept
    requires forall id | id in ids :: id in rows
    decreases |ids|
  {
    if ids == [] then Swept(rows, [], [], None)
    else
      var e := EffectOn(rows[ids[0]], d, d.faults(ids[0]));
      var rows' := rows[ids[0] := e.order];
      if e.error.Some? then Swept(rows', e.entries, e.published, e.error)
      else
        var rest := Sweep(rows', ids[1..], d);
        Swept(rest.rows, e.entries + rest.entries, e.published + rest.requests, rest.error)
  }

  /** The stored orders are under their ids, none is soft-deleted, and every saga id that may be needed is there. */
  ghost predicate Ready(rows: map<string, Order>, ids: seq<string>, d: Delivery) {
    && (forall i, j | 0 <= i < j < |ids| :: ids[i] != ids[j])
    && (forall id | id in ids :: id in rows && rows[id].id == id && rows[id].deletedAt.None? && d.saga(id) != "")
  }

  predicate Requested(requests: seq<Request>, id: string) {
    exists r | r in requests :: r.orderId == id
  }

  lemma {:induction false} SweptRows(rows: map<string, Order>, ids: seq<string>, d: Delivery)
    requires Ready(rows, ids, d)
    ensures var after := Sweep(rows, ids, d);
      && after.rows.Keys == rows.Keys
      && (forall id | id in rows && id !in ids :: after.rows[id] == rows[id])
      && (forall id | id in ids :: after.rows[id] == rows[id] || after.rows[id] == Outcome(rows[id], d))
      && (after.error.None? ==> forall id | id in ids :: after.rows[id] == Outcome(rows[id], d))
    decreases |ids|
  {
    hide EffectOn, Outcome, Started;
    if ids != [] {
      var id := ids[0];
      OneSwept(rows[id], d);
      var e := EffectOn(rows[id], d, d.faults(id));
      if e.error.None? {
        assert forall i | 0 <= i < |ids[1..]| :: ids[1..][i] == ids[i + 1];
        assert forall x | x in ids :: x == id || x in ids[1..];
        SweptRows(rows[id := e.order], ids[1..], d);
      }
    }
  }

  lemma {:induction false} SweptRequests(rows: map<string, Order>, ids: seq<string>, d: Delivery)
    requires Ready(rows, ids, d)
    ensures var after := Sweep(rows, ids, d);
      && after.rows.Keys == rows.Keys
      && (forall id | id in rows ::
            Requested(after.requests, id) <==> Started(rows[id], after.rows[id]) && d.faults(id).publishOk)
      && (after.error.None? ==> forall id | id in ids && Started(rows[id], after.rows[id]) :: d.faults(id).publishOk)
    decreases |ids|
  {
    hide EffectOn, Outcome, Started, Requested;
    NoneRequested();
    NoneStarted();
    if ids != [] {
      var id := ids[0];
      OneSwept(rows[id], d);
      var e := EffectOn(rows[id], d, d.faults(id));
      var rows' := rows[id := e.order];
      if e.error.Some? {
        RequestsOf(e.published, [], id);
        assert e.published + [] == e.published;
      } else {
        assert forall i | 0 <= i < |ids[1..]| :: ids[1..][i] == ids[i + 1];
        assert forall x | x in ids :: x == id || x in ids[1..];
        SweptRows(rows', ids[1..], d);
        SweptRequests(rows', ids[1..], d);
        RequestsOf(e.published, Sweep(rows', ids[1..], d).requests, id);
      }
    }
  }

  /** One delivery, whatever fails on the way: only listed orders change, each of them not at all or to its outcome;
      when no error is reported all of them have theirs; and requests are published for those for which a saga was
      started and the publication went through, and for no others: without an error, for all that were started. */
  lemma SweepMeaning(rows: map<string, Order>, ids: seq<string>, d: Delivery)
    requires Ready(rows, ids, d)
    ensures var after := Sweep(rows, ids, d);
      && after.rows.Keys == rows.Keys
      && (forall id | id in rows && id !in ids :: after.rows[id] == rows[id])
      && (forall id | id in ids :: after.rows[id] == rows[id] || after.rows[id] == Outcome(rows[id], d))
      && (forall id | id in rows ::
            Requested(after.requests, id) <==> Started(rows[id], after.rows[id]) && d.faults(id).publishOk)
      && (after.error.None? ==> forall id | id in ids ::
            && after.rows[id] == Outcome(rows[id], d)
            && (Started(rows[id], after.rows[id]) ==> Requested(after.requests, id)))
  {
    hide Sweep, Outcome, Started, Requested;
    SweptRows(rows, ids, d);
    SweptRequests(rows, ids, d);
  }

  lemma NoneRequested()
    ensures forall id :: !Requested([], id)
  {
  }

  lemma NoneStarted()
    ensures forall o :: !Started(o, o)
  {
  }

  lemma RequestsOf(own: seq<Request>, rest: seq<Request>, id: string)
    requires forall r | r in own :: r.orderId == id
    ensures forall x :: Requested(own + rest, x) <==> (x == id && own != []) || Requested(rest, x)
  {
    if own != [] {
      assert own[0] in own + rest;
    }
  }

  /** One order of a delivery. */
  lemma OneSwept(o: Order, d: Delivery)
    requires o.deletedAt.None? && d.saga(o.id) != ""
    ensures var f := d.faults(o.id);
      var e := EffectOn(o, d, f);
      && (e.order == o || e.order == Outcome(o, d))
      && (e.published != [] <==> Started(o, e.order) && f.publishOk)
      && (forall r | r in e.published :: r.orderId == o.id)
      && (e.error.None? ==> e.order == Outcome(o, d) && (Started(o, e.order) ==> e.published != []))
      && e.order.id == o.id && e.order.deletedAt.None?
  {
    hide EffectOn, Outcome;
    FaultyOutcome(o, d, d.faults(o.id));
    AskedForExactly(o, d, d.faults(o.id));
    OutcomeMeaning(o, d);
  }

  /** The requests are for the orders put in flight between the two states whose publication goes through. */
  ghost predicate AsksFor(requests: seq<Request>, before: map<string, Order>, after: map<string, Order>, d: Delivery) {
    forall id | id in before && id in after ::
      Requested(requests, id) <==> Started(before[id], after[id]) && d.faults(id).publishOk
  }

  lemma SweepAsksFor(rows: map<string, Order>, ids: seq<string>, d: Delivery)
    requires Ready(rows, ids, d)
    ensures AsksFor(Sweep(rows, ids, d).requests, rows, Sweep(rows, ids, d).rows, d)
  {
    hide Sweep, Outcome, Requested;
    SweepMeaning(rows, ids, d);
  }

  lemma NothingAsked(rows: map<string, Order>, d: Delivery)
    ensures AsksFor([], rows, rows, d)
  {
  }

  /** The writes that each of the orders may need go through. */
  ghost predicate Undisturbed(ids: seq<string>, d: Delivery) {
    forall id | id in ids :: d.faults(id) == NO_FAULTS
  }

  /** A delivery whose writes go through reports no error. */
  lemma {:induction false} SweepSucceeds(rows: map<string, Order>, ids: seq<string>, d: Delivery)
    requires Ready(rows, ids, d) && Undisturbed(ids, d)
    ensures Sweep(rows, ids, d).error.None?
    decreases |ids|
  {
    hide EffectOn, Outcome;
    if ids != [] {
      var id := ids[0];
      UndisturbedEffect(rows[id], d);
      OutcomeKeepsId(rows[id], d, NO_FAULTS);
      assert forall i | 0 <= i < |ids[1..]| :: ids[1..][i] == ids[i + 1];
      SweepSucceeds(rows[id := EffectOn(rows[id], d, NO_FAULTS).order], ids[1..], d);
    }
  }

  lemma UndisturbedEffect(o: Order, d: Delivery)
    requires o.deletedAt.None? && d.saga(o.id) != ""
    ensures EffectOn(o, d, NO_FAULTS).error.None?
  {
    hide ProductLines, EffectOn, SagaEntry;
    EffectOnIs(o, d, NO_FAULTS);
  }

  lemma OutcomeKeepsId(o: Order, d: Delivery, f: Faults)
    requires o.deletedAt.None? && d.saga(o.id) != ""
    ensures EffectOn(o, d, f).order.id == o.id && EffectOn(o, d, f).order.deletedAt.None?
  {
    hide EffectOn, Outcome;
    FaultyOutcome(o, d, f);
    OutcomeMeaning(o, d);
  }

  /** When every listed order is handled, a delivery does nothing and reports no error. */
  lemma {:induction false} NothingLeftToDo(rows: map<string, Order>, ids: seq<string>, d: Delivery)
    requires Ready(rows, ids, d) && forall id | id in ids :: Handled(rows[id])
    ensures Sweep(rows, ids, d) == Swept(rows, [], [], None)
    decreases |ids|
  {
    hide EffectOn, Handled;
    if ids != [] {
      FaultyOutcome(rows[ids[0]], d, d.faults(ids[0]));
      assert rows[ids[0] := rows[ids[0]]] == rows;
      assert forall i | 0 <= i < |ids[1..]| :: ids[1..][i] == ids[i + 1];
      NothingLeftToDo(rows, ids[1..], d);
    }
  }

  /** Redelivery. After a delivery that reported no error, a second one finds nothing to do, in whatever order it
      lists the orders. After one that was cut short, a second one that reports no error leaves every order with the
      outcome it got the first time, or else with the one it gets now. An order put in flight is requested by the two
      together exactly if the publication went through in the delivery that put it there: what the first one failed to
      publish, the second one does not publish either. */
  lemma RedeliveryCompletes(rows: map<string, Order>, ids: seq<string>, first: Delivery, ids': seq<string>,
                            second: Delivery)
    requires Ready(rows, ids, first) && Ready(rows, ids', second)
    requires forall id :: id in ids <==> id in ids'
    ensures var one := Sweep(rows, ids, first);
      && (forall id | id in ids' :: id in one.rows)
      && var two := Sweep(one.rows, ids', second);
      && (one.error.None? ==> two == Swept(one.rows, [], [], None))
      && (Undisturbed(ids', second) ==> two.error.None?)
      && (two.error.None? ==> forall id | id in ids ::
            && id in two.rows && Handled(two.rows[id])
            && two.rows[id] == if one.rows[id] != rows[id] then Outcome(rows[id], first) else Outcome(rows[id], second))
      && (forall id | id in ids && id in two.rows ::
            Requested(one.requests + two.requests, id) <==>
              && Started(rows[id], two.rows[id])
              && if one.rows[id] != rows[id] then first.faults(id).publishOk else second.faults(id).publishOk)
  {
    hide EffectOn, Outcome, Handled, Sweep;
    SweepMeaning(rows, ids, first);
    var one := Sweep(rows, ids, first);
    forall id | id in ids
      ensures one.rows[id].id == id && one.rows[id].deletedAt.None?
      ensures Handled(Outcome(rows[id], first)) && Outcome(Outcome(rows[id], first), second) == Outcome(rows[id], first)
      ensures Handled(Outcome(one.rows[id], second))
    {
      OutcomeMeaning(rows[id], first);
      OutcomeKeepsId(rows[id], first, NO_FAULTS);
      OutcomeIsItsOwnOutcome(rows[id], first, second);
      OutcomeMeaning(one.rows[id], second);
    }
    assert Ready(one.rows, ids', second);
    SweepMeaning(one.rows, ids', second);
    if Undisturbed(ids', second) {
      SweepSucceeds(one.rows, ids', second);
    }
    if one.error.None? {
      NothingLeftToDo(one.rows, ids', second);
    }
  }

  lemma OutcomeIsItsOwnOutcome(o: Order, first: Delivery, second: Delivery)
    requires o.deletedAt.None? && first.saga(o.id) != "" && second.saga(o.id) != ""
    ensures Outcome(o, first).id == o.id && Outcome(o, first).deletedAt.None?
    ensures Outcome(Outcome(o, first), second) == Outcome(o, first)
  {
    hide EffectOn, Outcome;
    OutcomeMeaning(o, first);
    OutcomeMeaning(Outcome(o, first), second);
  }

  ghost predicate Distinct(orders: seq<Order>) {
    forall i, j | 0 <= i < j < |orders| :: orders[i].id != orders[j].id
  }

  function Before(entries: seq<Entry>, requests: seq<Request>, s: Swept): Swept {
    s.(entries := entries + s.entries, requests := requests + s.requests)
  }

  lemma BeforeTwice(a: seq<Entry>, b: seq<Request>, a': seq<Entry>, b': seq<Request>, s: Swept)
    ensures Before(a, b, Before(a', b', s)) == Before(a + a', b + b', s)
  {
  }

  /** The i-th order comes up. */
  lemma SweepAt(rows: map<string, Order>, ids: seq<string>, i: nat, d: Delivery, o: Order)
    requires i < |ids| && Ready(rows, ids[i..], d) && o.id == ids[i] && rows[o.id] == o
    ensures o.deletedAt.None?
    ensures var e := EffectOn(o, d, d.faults(o.id));
      var rows' := rows[o.id := e.order];
      && Ready(rows', ids[i + 1..], d)
      && Sweep(rows, ids[i..], d) == Before(e.entries, e.published,
           if e.error.Some? then Swept(rows', [], [], e.error) else Sweep(rows', ids[i + 1..], d))
      && e.refunds == []
  {
    hide EffectOn;
    var rest := ids[i..];
    assert rest[0] == ids[i] && rest[1..] == ids[i + 1..];
    assert forall k | 0 <= k < |rest[1..]| :: rest[1..][k] == rest[k + 1];
    assert forall id | id in rest[1..] :: id in rest && id != rest[0];
    FaultyOutcome(o, d, d.faults(o.id));
    var e := EffectOn(o, d, d.faults(o.id));
    assert e.entries + [] == e.entries && e.published + [] == e.published;
  }

  class Consumer {
    const service: Service

    constructor (service: Service)
      ensures this.service == service
    {
      this.service := service;
    }

    ghost predicate Valid()
      reads service.saga.orders
    {
      service.Valid()
    }

    /** Deletes one order unless it is handled already. */
    method DeleteOne(order: Order, d: Delivery) returns (err: Option<Error>)
      requires Valid() && order.deletedAt.None?
      requires order.id in service.saga.orders.rows && service.saga.orders.rows[order.id] == order
      modifies service.saga.orders, service.saga.history, service.saga.publisher, service.provider
      ensures Valid()
      ensures var e := EffectOn(order, d, d.faults(order.id));
        service.Performed(order.id, e) && err == e.error
      ensures service.provider.cancelled == old(service.provider.cancelled)
    {
      hide Effects.Delete;
      if order.sagaStatus == SagaAwaitingInventory {
        assert service.saga.orders.rows[order.id := order] == service.saga.orders.rows;
        return None;
      }
      if !OpenForCustomerDeletion(order.status) {
        assert service.saga.orders.rows[order.id := order] == service.saga.orders.rows;
        return None;
      }
      err := service.Delete(order.id, Some(NOTE), d.saga(order.id), d.cancelOk, d.refundOk, d.now, d.faults(order.id));
    }

    /** Handles the orders one after the other, up to the first error. */
    method DeleteOpen(found: seq<Order>, d: Delivery) returns (err: Option<Error>)
      requires Valid() && Ready(service.saga.orders.rows, IdsOf(found), d) && Distinct(found)
      requires forall i | 0 <= i < |found| ::
        found[i].id in service.saga.orders.rows && service.saga.orders.rows[found[i].id] == found[i]
      modifies service.saga.orders, service.saga.history, service.saga.publisher, service.provider
      ensures Valid()
      ensures var after := Sweep(old(service.saga.orders.rows), IdsOf(found), d);
        && service.saga.orders.rows == after.rows
        && service.saga.history.entries == old(service.saga.history.entries) + after.entries
        && service.saga.publisher.queue == old(service.saga.publisher.queue) + after.requests
        && err == after.error
      ensures service.provider.refunded == old(service.provider.refunded)
      ensures service.provider.cancelled == old(service.provider.cancelled)
    {
      hide EffectOn, Sweep, Ready, Before;
      ghost var ids := IdsOf(found);
      ghost var goal := Sweep(service.saga.orders.rows, ids, d);
      ghost var entries: seq<Entry>, requests: seq<Request> := [], [];
      assert ids[0..] == ids;
      BeforeNothing(goal);
      for i := 0 to |found|
        invariant Valid() && Ready(service.saga.orders.rows, ids[i..], d)
        invariant forall k | i <= k < |found| ::
          found[k].id in service.saga.orders.rows && service.saga.orders.rows[found[k].id] == found[k]
        invariant goal == Before(entries, requests, Sweep(service.saga.orders.rows, ids[i..], d))
        invariant service.saga.history.entries == old(service.saga.history.entries) + entries
        invariant service.saga.publisher.queue == old(service.saga.publisher.queue) + requests
        invariant service.provider.refunded == old(service.provider.refunded)
        invariant service.provider.cancelled == old(service.provider.cancelled)
      {
        ghost var rows, e := service.saga.orders.rows, EffectOn(found[i], d, d.faults(found[i].id));
        SweepAt(rows, ids, i, d, found[i]);
        err := DeleteOne(found[i], d);
        rows := service.saga.orders.rows;
        ghost var rest := if e.error.Some? then Swept(rows, [], [], e.error) else Sweep(rows, ids[i + 1..], d);
        BeforeTwice(entries, requests, e.entries, e.published, rest);
        entries, requests := entries + e.entries, requests + e.published;
        if err.Some? {
          BeforeEnd(entries, requests, rows, err);
          return;
        }
        assert forall k | i < k < |found| :: ids[k] != ids[i];
      }
      err := None;
      SweepOfNothing(service.saga.orders.rows, d);
      assert ids[|found|..] == [];
      BeforeEnd(entries, requests, service.saga.orders.rows, err);
    }

    /** Handles one message. `event` is the customer it names, when it can be decoded; the other flags say whether
        the orders could be read, whether the message has a receipt, and whether its removal goes through. */
    method HandleMessage(event: Option<string>, findOk: bool, receipt: bool, ackOk: bool, d: Delivery)
      returns (acknowledged: bool, err: Option<Error>)
      requires Valid() && forall id :: d.saga(id) != ""
      modifies service.saga.orders, service.saga.history, service.saga.publisher, service.provider
      ensures Valid()
      // nothing but the customer's orders changes, and those are left alone or get their outcome
      ensures service.saga.orders.rows.Keys == old(service.saga.orders.rows).Keys
      ensures forall id | id in old(service.saga.orders.rows) ::
        var before, after := old(service.saga.orders.rows[id]), service.saga.orders.rows[id];
        after == before || (event == Some(before.customerId) && before.deletedAt.None? && after == Outcome(before, d))
      // without an error each of them has its outcome
      ensures err.None? ==> event.Some? && forall id | id in old(service.saga.orders.rows) ::
        var before, after := old(service.saga.orders.rows[id]), service.saga.orders.rows[id];
        OfCustomer(before, event.value) ==> after == Outcome(before, d)
      ensures acknowledged <==> err.None?
      // and there is none when everything goes through
      ensures (forall id :: d.faults(id) == NO_FAULTS) ==>
        event.Some? && IsUuid(event.value) && findOk && receipt && ackOk ==> err.None?
      // no provider is called
      ensures service.provider.refunded == old(service.provider.refunded)
      ensures service.provider.cancelled == old(service.provider.cancelled)
      // when nothing is left to do, nothing is done
      ensures event.Some? && (forall id | id in old(service.saga.orders.rows) ::
          OfCustomer(old(service.saga.orders.rows[id]), event.value) ==> Handled(old(service.saga.orders.rows[id]))) ==>
        && service.saga.Untouched()
        && (IsUuid(event.value) && findOk && receipt && ackOk ==> err.None?)
      // requests are published for the orders put in flight whose publication goes through, and for no others
      ensures exists requests | AsksFor(requests, old(service.saga.orders.rows), service.saga.orders.rows, d) ::
        service.saga.publisher.queue == old(service.saga.publisher.queue) + requests
    {
      hide EffectOn, Outcome, Sweep, Handled, AsksFor;
      acknowledged := false;
      NothingAsked(service.saga.orders.rows, d);
      assert service.saga.publisher.queue + [] == service.saga.publisher.queue;
      if event.None? {
        err := Some(MalformedMessage);
        return;
      }
      if !findOk {
        err := Some(LookupFailed);
        return;
      }
      var found;
      found, err := service.saga.orders.FindByCustomerId(event.value);
      if err.Some? {
        return;
      }
      ghost var rows := service.saga.orders.rows;
      ghost var ids := IdsOf(found);
      assert forall i | 0 <= i < |found| :: found[i] in found && OfCustomer(found[i], event.value);
      assert Ready(rows, ids, d);
      SweepMeaning(rows, ids, d);
      SweepAsksFor(rows, ids, d);
      if forall id | id in ids :: Handled(rows[id]) {
        NothingLeftToDo(rows, ids, d);
      }
      if Undisturbed(ids, d) {
        SweepSucceeds(rows, ids, d);
      }
      Listed(rows, found, event.value);
      err := DeleteOpen(found, d);
      if err.Some? {
        return;
      }
      if !receipt {
        err := Some(MissingReceipt);
        return;
      }
      if !ackOk {
        err := Some(WriteFailed);
        return;
      }
      acknowledged := true;
    }
  }

  lemma BeforeNothing(s: Swept)
    ensures Before([], [], s) == s
  {
  }

  lemma BeforeEnd(entries: seq<Entry>, requests: seq<Request>, rows: map<string, Order>, error: Option<Error>)
    ensures Before(entries, requests, Swept(rows, [], [], error)) == Swept(rows, entries, requests, error)
  {
  }

  lemma SweepOfNothing(rows: map<string, Order>, d: Delivery)
    ensures Sweep(rows, [], d) == Swept(rows, [], [], None)
  {
  }

  lemma Listed(rows: map<string, Order>, found: seq<Order>, customer: string)
    requires forall i | 0 <= i < |found| :: found[i].id in rows && rows[found[i].id] == found[i]
    requires forall id | id in rows :: rows[id].id == id && (OfCustomer(rows[id], customer) <==> rows[id] in found)
    ensures forall id | id in rows :: OfCustomer(rows[id], customer) <==> id in IdsOf(found)
  {
  }
}
