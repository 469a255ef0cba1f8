/** The stores the handlers write to, and the saga orchestrator as it runs on them. */
module Orchestration {
  import opened Prelude
  import opened OrderStatus
  import opened Items
  import opened Orders
  import opened Effects
  import opened ServiceOrders

  /** Stored items are live and identified. */
  ghost predicate Tidy(o: Order) { TidyItems(o.items) }

  ghost predicate TidyItems(items: seq<Item>) {
    forall i | 0 <= i < |items| :: !items[i].Deleted() && items[i].id != ""
  }

  /** What a later load gives back of an order saved from memory: only live items, all with identities. */
  function Stored(o: Order, ids: seq<string>): Order {
    o.(items := Active(Identified(o.items, ids)))
  }

  lemma {:induction false} TidyItemsStay(items: seq<Item>, ids: seq<string>)
    requires TidyItems(items)
    ensures Identified(items, ids) == items && Active(items) == items
  {
    if items != [] {
      assert forall i | 0 <= i < |items[1..]| :: items[1..][i] == items[i + 1];
      TidyItemsStay(items[1..], ids);
    }
  }

  lemma TidyOrdersStay(o: Order, ids: seq<string>)
    requires Tidy(o)
    ensures Stored(o, ids) == o
  {
    TidyItemsStay(o.items, ids);
  }

  /** The orders a query by customer finds: soft-deleted ones are never found. */
  predicate OfCustomer(o: Order, customerId: string) {
    o.customerId == customerId && o.deletedAt.None?
  }

  /** The orders a query by saga status finds. */
  predicate Waits(o: Order) {
    o.InFlight() && o.deletedAt.None?
  }

  class OrderStore {
    var rows: map<string, Order>

    ghost predicate Valid()
      reads this
    {
      forall id | id in rows :: rows[id].id == id && Tidy(rows[id])
    }

    method FindById(id: string) returns (order: ServiceOrder?, err: Option<Error>)
      ensures id !in rows ==> order == null && err == Some(ServiceOrderNotFound)
      ensures id in rows ==> err.None? && order != null && order.View() == rows[id]
      ensures order != null ==> fresh(order) && fresh(order.items) && order.Valid()
    {
      if id !in rows {
        return null, Some(ServiceOrderNotFound);
      }
      order := new ServiceOrder(rows[id]);
      err := None;
    }

    /** The orders that meet a condition, each once. */
    method Find(condition: Order -> bool) returns (found: seq<Order>)
      requires Valid()
      ensures forall i | 0 <= i < |found| :: found[i].id in rows && rows[found[i].id] == found[i]
      ensures forall i, j | 0 <= i < j < |found| :: found[i].id != found[j].id
      ensures forall id | id in rows :: condition(rows[id]) <==> rows[id] in found
    {
      found := [];
      var left := rows.Keys;
      while left != {}
        invariant left <= rows.Keys
        invariant forall i | 0 <= i < |found| ::
          found[i].id in rows && rows[found[i].id] == found[i] && found[i].id !in left
        invariant forall i, j | 0 <= i < j < |found| :: found[i].id != found[j].id
        invariant forall id | id in rows && id !in left :: condition(rows[id]) <==> rows[id] in found
        invariant forall id | id in left :: rows[id] !in found
        decreases left
      {
        var id :| id in left;
        left := left - {id};
        if condition(rows[id]) {
          found := found + [rows[id]];
        }
      }
    }

    /** All orders of a customer, each once, unless the customer's id is malformed. */
    method FindByCustomerId(customerId: string) returns (found: seq<Order>, err: Option<Error>)
      requires Valid()
      ensures err == if IsUuid(customerId) then None else Some(MalformedId)
      ensures err.Some? ==> found == []
      ensures forall i | 0 <= i < |found| :: found[i].id in rows && rows[found[i].id] == found[i]
      ensures forall i, j | 0 <= i < j < |found| :: found[i].id != found[j].id
      ensures err.None? ==> forall id | id in rows :: OfCustomer(rows[id], customerId) <==> rows[id] in found
    {
      if !IsUuid(customerId) {
        return [], Some(MalformedId);
      }
      found := Find(o => OfCustomer(o, customerId));
      err := None;
    }

    /** All orders that wait for the stock service, each once. */
    method FindAwaitingInventory() returns (found: seq<Order>)
      requires Valid()
      ensures forall i | 0 <= i < |found| :: found[i].id in rows && rows[found[i].id] == found[i]
      ensures forall i, j | 0 <= i < j < |found| :: found[i].id != found[j].id
      ensures forall id | id in rows :: Waits(rows[id]) <==> rows[id] in found
    {
      found := Find(o => Waits(o));
    }

    /** `ids` are the identities for items that have none yet; `ok` says whether the transaction commits. */
    method Save(order: ServiceOrder, ids: seq<string>, ok: bool) returns (err: Option<Error>)
      modifies this
      ensures err == if ok then None else Some(WriteFailed)
      ensures rows == if ok then old(rows)[order.id := Stored(order.View(), ids)] else old(rows)
    {
      if !ok {
        return Some(WriteFailed);
      }
      rows := rows[order.id := Stored(order.View(), ids)];
      err := None;
    }
  }

  class HistoryStore {
    var entries: seq<Entry>

    method Save(entry: Entry, ok: bool) returns (err: Option<Error>)
      modifies this
      ensures err == if ok then None else Some(WriteFailed)
      ensures entries == if ok then old(entries) + [entry] else old(entries)
    {
      if !ok {
        return Some(WriteFailed);
      }
      entries := entries + [entry];
      err := None;
    }
  }

  class RequestQueue {
    var queue: seq<Request>

    method PublishRequest(request: Request, ok: bool) returns (err: Option<Error>)
      modifies this
      ensures err == if ok then None else Some(WriteFailed)
      ensures queue == if ok then old(queue) + [request] else old(queue)
    {
      if !ok {
        return Some(WriteFailed);
      }
      queue := queue + [request];
      err := None;
    }
  }

  class Orchestrator {
    const orders: OrderStore
    const history: HistoryStore
    const publisher: RequestQueue

    constructor (orders: OrderStore, history: HistoryStore, publisher: RequestQueue)
      ensures this.orders == orders && this.history == history && this.publisher == publisher
    {
      this.orders, this.history, this.publisher := orders, history, publisher;
    }

    ghost predicate Valid()
      reads orders
    {
      orders.Valid()
    }

    /** The stores have changed by exactly this effect on the order with the given id. */
    twostate predicate Performed(id: string, e: Effect)
      reads orders, history, publisher
    {
      && orders.rows == old(orders.rows)[id := e.order]
      && history.entries == old(history.entries) + e.entries
      && publisher.queue == old(publisher.queue) + e.published
    }

    twostate predicate Untouched()
      reads orders, history, publisher
    {
      && orders.rows == old(orders.rows)
      && history.entries == old(history.entries)
      && publisher.queue == old(publisher.queue)
    }

    /** Writes the history entry and then the changed order. */
    method Commit(order: ServiceOrder, ghost before: Order, entry: Entry, f: Faults) returns (err: Option<Error>)
      requires Valid() && order.id == before.id
      requires before.id in orders.rows && orders.rows[before.id] == before
      requires Tidy(order.View())
      modifies orders, history
      ensures Valid()
      ensures var e := Effects.Commit(before, order.View(), entry, f);
        Performed(before.id, e) && err == e.error
    {
      hide Views, Stored, TidyItems, ProductLines;
      err := history.Save(entry, f.historyOk);
      if err.Some? {
        return;
      }
      TidyOrdersStay(order.View(), []);
      err := orders.Save(order, [], f.saveOk);
    }

    /** The status change of a saga step on the copy in memory. */
    method Finish(order: ServiceOrder, to: Status, now: Time) returns (err: Option<Error>)
      modifies order`status, order`closedAt, order`sagaStatus, order`sagaId, order`target, order`notes
      ensures match Effects.Finish(old(order.View()), to, now)
              case Ok(o) => err == None && order.View() == o
              case Err(e) => err == Some(e)
    {
      if order.status != to {
        err := order.UpdateStatus(to, now);
        if err.Some? {
          return;
        }
      }
      order.CompleteSaga();
      err := None;
    }

    method TransitionLocal(order: ServiceOrder, to: Status, op: Operation, notes: Option<string>, now: Time, f: Faults)
      returns (err: Option<Error>)
      requires Valid() && order.Valid()
      requires order.id in orders.rows && orders.rows[order.id] == order.View()
      modifies orders, history, order
      ensures Valid()
      ensures var e := Effects.TransitionLocal(old(order.View()), to, op, notes, now, f);
        Performed(old(order.id), e) && err == e.error
    {
      hide Views, Stored, TidyItems, ProductLines, Effects.Finish, Effects.Commit, SagaEntry;
      ghost var before := order.View();
      var oldStatus := order.status;
      err := Finish(order, to, now);
      if err.Some? {
        return;
      }
      err := Commit(order, before, SagaEntry(order.id, oldStatus, to, op, "", None, notes), f);
    }

    /** Starts a saga, or makes the step at once when the order has no products. `saga` is the fresh id. */
    method StartSaga(id: string, op: Operation, to: Status, notes: Option<string>, saga: string, now: Time, f: Faults)
      returns (async: bool, err: Option<Error>)
      requires Valid()
      modifies orders, history, publisher
      ensures Valid()
      ensures id !in old(orders.rows) ==> Untouched() && err == Some(ServiceOrderNotFound) && !async
      ensures id in old(orders.rows) ==>
        var e := Effects.StartSaga(old(orders.rows[id]), op, to, notes, saga, now, f);
        Performed(id, e) && err == e.error && async == (err.None? && e.published != [])
    {
      hide Views, Stored, TidyItems, ProductLines, Effects.TransitionLocal, Effects.Launch;
      async := false;
      var order, notFound := orders.FindById(id);
      if order == null {
        err := notFound;
        return;
      }
      if order.deletedAt.Some? {
        err := Some(ServiceOrderDeleted);
        return;
      }
      if order.sagaStatus == SagaAwaitingInventory {
        err := Some(SagaAlreadyInProgress);
        return;
      }
      var lines := order.InventoryItems();
      if |lines| == 0 {
        err := TransitionLocal(order, to, op, notes, now, f);
        return;
      }
      err := Launch(order, op, to, notes, saga, lines, f);
      async := err.None?;
    }

    method Launch(order: ServiceOrder, op: Operation, to: Status, notes: Option<string>, saga: string, lines: seq<Line>,
                  f: Faults)
      returns (err: Option<Error>)
      requires Valid() && order.Valid() && lines == order.View().Lines()
      requires order.id in orders.rows && orders.rows[order.id] == order.View()
      modifies orders, publisher, order
      ensures Valid()
      ensures var e := Effects.Launch(old(order.View()), op, to, notes, saga, f);
        Performed(old(order.id), e) && err == e.error && (err.None? ==> e.published != [])
    {
      hide Views, Stored, TidyItems, ProductLines;
      err := order.StartSaga(saga, to, notes);
      if err.Some? {
        return;
      }
      TidyOrdersStay(order.View(), []);
      err := orders.Save(order, [], f.saveOk);
      if err.Some? {
        return;
      }
      err := publisher.PublishRequest(Request(saga, order.id, op, lines), f.publishOk);
    }

    method CancelOrder(id: string, notes: Option<string>, saga: string, now: Time, f: Faults)
      returns (async: bool, err: Option<Error>)
      requires Valid()
      modifies orders, history, publisher
      ensures Valid()
      ensures id !in old(orders.rows) ==> Untouched() && err == Some(ServiceOrderNotFound) && !async
      ensures id in old(orders.rows) ==>
        var e := Effects.CancelOrder(old(orders.rows[id]), notes, saga, now, f);
        Performed(id, e) && err == e.error && async == (err.None? && e.published != [])
    {
      hide Views, Stored, TidyItems, ProductLines, Effects.TransitionLocal, Effects.StartSaga;
      async := false;
      var order, notFound := orders.FindById(id);
      if order == null {
        err := notFound;
        return;
      }
      if order.deletedAt.Some? {
        err := Some(ServiceOrderDeleted);
        return;
      }
      if order.sagaStatus == SagaAwaitingInventory {
        err := Some(SagaAlreadyInProgress);
        return;
      }
      match order.status
      case Received | Diagnosing =>
        err := TransitionLocal(order, Canceled, OpNone, notes, now, f);
      case PendingAuthorization | Authorized | InProgress =>
        async, err := StartSaga(id, CancelReserved, Canceled, notes, saga, now, f);
      case Completed | AwaitingPayment | PaymentRejected | Paid =>
        async, err := StartSaga(id, CancelConfirmed, Canceled, notes, saga, now, f);
      case _ =>
        err := Some(InvalidStatusTransition);
    }

    method IsCurrentSaga(id: string, saga: string) returns (current: bool, err: Option<Error>)
      ensures id !in orders.rows ==> err == Some(ServiceOrderNotFound) && !current
      ensures id in orders.rows ==> err.None? && current == orders.rows[id].CanProcessSaga(saga)
    {
      current := false;
      var order, notFound := orders.FindById(id);
      err := notFound;
      if order != null {
        current := order.View().CanProcessSaga(saga);
      }
    }

    method HandleSucceeded(id: string, saga: string, op: Operation, now: Time, f: Faults) returns (err: Option<Error>)
      requires Valid()
      modifies orders, history
      ensures Valid()
      ensures id !in old(orders.rows) ==> Untouched() && err == Some(ServiceOrderNotFound)
      ensures id in old(orders.rows) ==>
        var e := Effects.HandleSucceeded(old(orders.rows[id]), saga, op, now, f);
        Performed(id, e) && err == e.error
    {
      hide Views, Stored, TidyItems, ProductLines, Effects.Finish, Effects.Commit, SagaEntry;
      var order, notFound := orders.FindById(id);
      if order == null {
        return notFound;
      }
      if !order.View().CanProcessSaga(saga) {
        return None;
      }
      var to := TargetForSuccess(order.View(), op);
      if to.Err? {
        return Some(to.error);
      }
      ghost var before := order.View();
      var notes, oldStatus := order.notes, order.status;
      err := Finish(order, to.value, now);
      if err.Some? {
        return;
      }
      err := Commit(order, before, SagaEntry(order.id, oldStatus, to.value, op, saga, None, notes), f);
    }

    method HandleFailed(id: string, saga: string, op: Operation, reason: string, f: Faults) returns (err: Option<Error>)
      requires Valid()
      modifies orders, history
      ensures Valid()
      ensures id !in old(orders.rows) ==> Untouched() && err == Some(ServiceOrderNotFound)
      ensures id in old(orders.rows) ==>
        var e := Effects.HandleFailed(old(orders.rows[id]), saga, op, reason, f);
        Performed(id, e) && err == e.error
    {
      hide Views, Stored, TidyItems, ProductLines, Effects.Commit, SagaEntry;
      var order, notFound := orders.FindById(id);
      if order == null {
        return notFound;
      }
      if !order.View().CanProcessSaga(saga) {
        return None;
      }
      ghost var before := order.View();
      var oldStatus := order.status;
      order.FailSaga();
      err := Commit(order, before, SagaEntry(order.id, oldStatus, oldStatus, op, saga, Some(reason), None), f);
    }

    /** Publishes the request of one order again. */
    method RecoverOne(id: string, f: Faults) returns (err: Option<Error>)
      requires Valid() && id in orders.rows && orders.rows[id].InFlight()
      modifies publisher
      ensures publisher.queue == old(publisher.queue) + Recover(orders.rows[id], f).published
      ensures err == Recover(orders.rows[id], f).error
    {
      hide ProductLines;
      var order, _ := orders.FindById(id);
      if order.sagaId.None? {
        return None;
      }
      var op := InferOperation(order.View());
      if op.Err? {
        return Some(op.error);
      }
      var lines := order.InventoryItems();
      err := publisher.PublishRequest(Request(order.sagaId.value, order.id, op.value, lines), f.publishOk);
    }

    /** Publishes again for every order that waits for the stock service, order by order, up to the first error; `found`
        is the sequence in which they come. No order changes. When no error is reported, there is a request for every
        one of them that has a saga id. */
    method RecoverAwaitingSagas(faults: string -> Faults) returns (found: seq<string>, err: Option<Error>)
      requires Valid()
      modifies publisher
      ensures forall id :: id in found <==> id in orders.rows && Waits(orders.rows[id])
      ensures forall i, j | 0 <= i < j < |found| :: found[i] != found[j]
      ensures publisher.queue == old(publisher.queue) + Republished(orders.rows, found, faults)
      ensures err.None? <==> forall id | id in found :: Recover(orders.rows[id], faults(id)).error.None?
      ensures err.None? ==> forall id | id in orders.rows && Waits(orders.rows[id]) && orders.rows[id].sagaId.Some? ::
        AskedFor(publisher.queue[|old(publisher.queue)|..], orders.rows[id])
    {
      hide Recover, Waits, Republished, AskedFor;
      var waiting := orders.FindAwaitingInventory();
      found := IdsOf(waiting);
      FoundAre(orders.rows, waiting);
      err := RepublishAll(found, faults);
      if err.None? {
        RecoveryCovers(orders.rows, found, faults);
      }
    }

    /** Publishes again for the given orders, up to the first error. */
    method RepublishAll(ids: seq<string>, faults: string -> Faults) returns (err: Option<Error>)
      requires Valid() && forall id | id in ids :: id in orders.rows && orders.rows[id].InFlight()
      modifies publisher
      ensures publisher.queue == old(publisher.queue) + Republished(orders.rows, ids, faults)
      ensures err.None? <==> forall id | id in ids :: Recover(orders.rows[id], faults(id)).error.None?
    {
      hide Recover;
      ghost var start := publisher.queue;
      assert ids[0..] == ids;
      for i := 0 to |ids|
        invariant publisher.queue + Republished(orders.rows, ids[i..], faults) ==
          start + Republished(orders.rows, ids, faults)
        invariant forall j | 0 <= j < i :: Recover(orders.rows[ids[j]], faults(ids[j])).error.None?
      {
        ghost var before, rest := publisher.queue, ids[i..];
        assert rest[0] == ids[i] && rest[1..] == ids[i + 1..];
        err := RecoverOne(ids[i], faults(ids[i]));
        if err.Some? {
          return;
        }
        ghost var later := Republished(orders.rows, ids[i + 1..], faults);
        assert publisher.queue + later == before + (Recover(orders.rows[ids[i]], faults(ids[i])).published + later);
      }
      err := None;
    }
  }

  /** The requests that recovery publishes, order by order, up to the first error. */
  function Republished(rows: map<string, Order>, ids: seq<string>, faults: string -> Faults): seq<Request>
    requires forall id | id in ids :: id in rows
  {
    if ids == [] then []
    else
      var e := Recover(rows[ids[0]], faults(ids[0]));
      if e.error.Some? then e.published else e.published + Republished(rows, ids[1..], faults)
  }

  /** Among the requests is one for the order under its saga id. */
  ghost predicate AskedFor(requests: seq<Request>, o: Order) {
    exists r | r in requests :: o.sagaId == Some(r.sagaId) && r.orderId == o.id && r.lines == o.Lines()
  }

  function IdsOf(orders: seq<Order>): (ids: seq<string>)
    ensures |ids| == |orders| && forall i | 0 <= i < |orders| :: ids[i] == orders[i].id
  {
    seq(|orders|, i requires 0 <= i < |orders| => orders[i].id)
  }

  lemma FoundAre(rows: map<string, Order>, waiting: seq<Order>)
    requires forall i | 0 <= i < |waiting| :: waiting[i].id in rows && rows[waiting[i].id] == waiting[i]
    requires forall id | id in rows :: rows[id].id == id && (Waits(rows[id]) <==> rows[id] in waiting)
    ensures forall id :: id in IdsOf(waiting) <==> id in rows && Waits(rows[id])
    ensures forall id | id in IdsOf(waiting) :: rows[id].InFlight()
  {
    assert forall i | 0 <= i < |waiting| :: waiting[i] in waiting;
    forall id | id in rows && Waits(rows[id]) ensures id in IdsOf(waiting) {
      var i :| 0 <= i < |waiting| && waiting[i] == rows[id];
      assert IdsOf(waiting)[i] == id;
    }
  }

  /** A recovery without errors has asked for every order in flight that has a saga id. */
  lemma {:induction false} RecoveryCovers(rows: map<string, Order>, ids: seq<string>, faults: string -> Faults)
    requires forall id | id in ids :: id in rows && rows[id].InFlight()
    requires forall id | id in ids :: Recover(rows[id], faults(id)).error.None?
    ensures forall id | id in ids && rows[id].sagaId.Some? :: AskedFor(Republished(rows, ids, faults), rows[id])
  {
    hide ProductLines, InferOperation;
    if ids != [] {
      assert forall id | id in ids[1..] :: id in ids;
      RecoveryCovers(rows, ids[1..], faults);
      var e, rest := Recover(rows[ids[0]], faults(ids[0])), Republished(rows, ids[1..], faults);
      forall id | id in ids && rows[id].sagaId.Some? ensures AskedFor(Republished(rows, ids, faults), rows[id]) {
        if id == ids[0] {
          assert e.published[0] in e.published + rest;
        } else {
          assert id in ids[1..] && AskedFor(rest, rows[id]);
          var r :| r in rest && rows[id].sagaId == Some(r.sagaId) && r.orderId == rows[id].id
            && r.lines == rows[id].Lines();
          assert r in e.published + rest;
        }
      }
    }
  }

  /** When every publication goes through, recovery asks once for each order, in the sequence given, under the saga id
      it already has and for its present product lines. */
  lemma {:induction false} RecoveryAsksForAll(rows: map<string, Order>, ids: seq<string>, faults: string -> Faults)
    requires forall id | id in ids ::
      && id in rows && rows[id].InFlight() && rows[id].sagaId.Some? && InferOperation(rows[id]).Ok?
      && faults(id).publishOk
    ensures var asked := Republished(rows, ids, faults);
      && |asked| == |ids|
      && forall i | 0 <= i < |ids| ::
           var o := rows[ids[i]];
           asked[i] == Request(o.sagaId.value, o.id, InferOperation(o).value, o.Lines())
  {
    hide ProductLines, InferOperation;
    if ids != [] {
      assert forall id | id in ids[1..] :: id in ids;
      assert forall i | 0 <= i < |ids[1..]| :: ids[1..][i] == ids[i + 1];
      RecoveryAsksForAll(rows, ids[1..], faults);
      var e, rest := Recover(rows[ids[0]], faults(ids[0])), Republished(rows, ids[1..], faults);
      assert Republished(rows, ids, faults) == e.published + rest && |e.published| == 1;
      assert forall i | 0 < i < |ids| :: (e.published + rest)[i] == rest[i - 1];
    }
  }
}
