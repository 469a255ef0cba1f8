/** The use cases as they run on the stores: each leaves exactly the effect it is specified to have. */
module UseCases {
  import opened Prelude
  import opened OrderStatus
  import opened Items
  import opened Signatures
  import opened Orders
  import opened Effects
  import opened ServiceOrders
  import opened Orchestration
  import opened Replacement

  /** The payment provider, of which only the refunds and cancellations it has made matter. */
  class PaymentProvider {
    var refunded: seq<string>
    var cancelled: seq<string>

    method CancelOrder(order: string, ok: bool) returns (err: Option<Error>)
      modifies this`cancelled
      ensures err == if ok then None else Some(ProviderFailed)
      ensures cancelled == if ok then old(cancelled) + [order] else old(cancelled)
    {
      if !ok {
        return Some(ProviderFailed);
      }
      cancelled := cancelled + [order];
      err := None;
    }

    method RefundOrder(payment: string, ok: bool) returns (err: Option<Error>)
      modifies this`refunded
      ensures err == if ok then None else Some(ProviderFailed)
      ensures refunded == if ok then old(refunded) + [payment] else old(refunded)
    {
      if !ok {
        return Some(ProviderFailed);
      }
      refunded := refunded + [payment];
      err := None;
    }
  }

  /** A payment as the provider reports it; it may refer to an order. */
  datatype ReportedPayment = ReportedPayment(id: string, reference: string, status: PaymentStatus)

  class Service {
    const saga: Orchestrator
    const provider: PaymentProvider

    constructor (saga: Orchestrator, provider: PaymentProvider)
      ensures this.saga == saga && this.provider == provider
    {
      this.saga, this.provider := saga, provider;
    }

    ghost predicate Valid()
      reads saga.orders
    {
      saga.Valid()
    }

    twostate predicate Performed(id: string, e: Effect)
      reads saga.orders, saga.history, saga.publisher, provider
    {
      saga.Performed(id, e) && provider.refunded == old(provider.refunded) + e.refunds
    }

    method Advance(id: string, sagaId: string, order: Option<PaymentOrder>, now: Time, f: Faults)
      returns (err: Option<Error>)
      requires Valid()
      modifies saga.orders, saga.history, saga.publisher
      ensures Valid()
      ensures id !in old(saga.orders.rows) ==> saga.Untouched() && err == Some(ServiceOrderNotFound)
      ensures id in old(saga.orders.rows) ==>
        var e := Effects.Advance(old(saga.orders.rows[id]), sagaId, order, now, f);
        saga.Performed(id, e) && err == e.error
    {
      hide Views, Stored, TidyItems, ProductLines, Effects.StartSaga, Effects.StartPayment, Effects.Commit;
      var o, notFound := saga.orders.FindById(id);
      if o == null {
        return notFound;
      }
      if o.deletedAt.Some? {
        return Some(ServiceOrderDeleted);
      }
      var oldStatus := o.status;
      var next := NextStatus(oldStatus);
      if next.Err? {
        return Some(next.error);
      }
      var op := DetermineInventoryOperation(oldStatus, next.value);
      if op != OpNone {
        var async;
        async, err := saga.StartSaga(id, op, next.value, None, sagaId, now, f);
        return;
      }
      if oldStatus == Completed && next.value == AwaitingPayment {
        err := StartPayment(o, order, now, f);
        return;
      }
      err := AdvanceLocally(o, next.value, None, now, f);
    }

    /** A status change recorded and stored as it is. */
    method AdvanceLocally(o: ServiceOrder, to: Status, observation: Option<string>, now: Time, f: Faults)
      returns (err: Option<Error>)
      requires Valid() && o.id in saga.orders.rows && saga.orders.rows[o.id] == o.View()
      modifies saga.orders, saga.history, o
      ensures Valid()
      ensures var before := old(o.View());
        var e := match before.UpdateStatus(to, now)
          case Err(e) => Refused(before, e)
          case Ok(after) => Commit(before, after, StatusEntry(before.id, before.status, to, observation), f);
        saga.Performed(before.id, e) && err == e.error
    {
      ghost var before := o.View();
      var oldStatus := o.status;
      err := o.UpdateStatus(to, now);
      if err.Some? {
        return;
      }
      err := saga.Commit(o, before, StatusEntry(o.id, oldStatus, to, observation), f);
    }

    /** Records the order the payment provider has created, if it has. */
    method StartPayment(o: ServiceOrder, order: Option<PaymentOrder>, now: Time, f: Faults) returns (err: Option<Error>)
      requires Valid() && o.id in saga.orders.rows && saga.orders.rows[o.id] == o.View()
      modifies saga.orders, saga.history, o
      ensures Valid()
      ensures var e := Effects.StartPayment(old(o.View()), order, now, f);
        saga.Performed(old(o.id), e) && err == e.error
    {
      if order.None? {
        return Some(ProviderFailed);
      }
      ghost var before := o.View();
      var oldStatus := o.status;
      err := o.AwaitPayment(order.value.id, order.value.url, now);
      if err.Some? {
        return;
      }
      err := saga.Commit(o, before, StatusEntry(o.id, oldStatus, o.status, None), f);
    }

    method Respond(id: string, caller: Caller, approved: bool, observation: Option<string>, sagaId: string, now: Time,
                   f: Faults)
      returns (err: Option<Error>)
      requires Valid()
      modifies saga.orders, saga.history, saga.publisher
      ensures Valid()
      ensures id !in old(saga.orders.rows) ==> saga.Untouched() && err == Some(ServiceOrderNotFound)
      ensures id in old(saga.orders.rows) ==>
        var e := Effects.Respond(old(saga.orders.rows[id]), caller, approved, observation, sagaId, now, f);
        saga.Performed(id, e) && err == e.error
    {
      hide Views, Stored, TidyItems, ProductLines, Effects.StartSaga, Effects.Commit;
      var o, notFound := saga.orders.FindById(id);
      if o == null {
        return notFound;
      }
      if caller.Customer? && o.customerId != caller.id {
        return Some(ForbiddenAccess);
      }
      if o.deletedAt.Some? {
        return Some(ServiceOrderDeleted);
      }
      if o.status != PendingAuthorization {
        return Some(InvalidStatusTransition);
      }
      var to := if approved then Authorized else AuthorizationDenied;
      var op := DetermineInventoryOperation(o.status, to);
      if op != OpNone {
        var async;
        async, err := saga.StartSaga(id, op, to, observation, sagaId, now, f);
        return;
      }
      err := AdvanceLocally(o, to, observation, now, f);
    }

    /** Deletes an order: an unpaid one is cancelled at the provider first, and `cancelOk`, the provider's answer to
        that, changes nothing else; a paid one is refunded first, and a refused refund ends the deletion. */
    method Delete(id: string, notes: Option<string>, sagaId: string, cancelOk: bool, refundOk: bool, now: Time,
                  f: Faults)
      returns (err: Option<Error>)
      requires Valid()
      modifies saga.orders, saga.history, saga.publisher, provider
      ensures Valid()
      ensures id !in old(saga.orders.rows) ==>
        saga.Untouched() && provider.refunded == old(provider.refunded) && err == Some(ServiceOrderNotFound)
      ensures id in old(saga.orders.rows) ==>
        var e := Effects.Delete(old(saga.orders.rows[id]), notes, sagaId, refundOk, now, f);
        Performed(id, e) && err == e.error
      ensures provider.cancelled == old(provider.cancelled) +
        if id in old(saga.orders.rows) && cancelOk then CancelledAtProvider(old(saga.orders.rows[id])) else []
    {
      hide Views, Stored, TidyItems, ProductLines, Effects.CancelOrder;
      var o, notFound := saga.orders.FindById(id);
      if o == null {
        return notFound;
      }
      if o.deletedAt.Some? {
        return Some(ServiceOrderNotFound);
      }
      if o.status == AwaitingPayment || o.status == PaymentRejected {
        if o.preferenceId.Some? && o.preferenceId.value != "" {
          var ignored := provider.CancelOrder(o.preferenceId.value, cancelOk);
        }
      } else if o.status == Paid {
        var payment := if o.paymentId.Some? then o.paymentId.value else "";
        if payment != "" {
          err := provider.RefundOrder(payment, refundOk);
          if err.Some? {
            return;
          }
        }
      }
      CancelNeverRefunds(saga.orders.rows[id], notes, sagaId, now, f);
      var async;
      async, err := saga.CancelOrder(id, notes, sagaId, now, f);
    }

    /** Handles one notice. `found` is the payment as the provider reports it, if it can be read; the order is the one
        it refers to, or else the one that the notice itself names. */
    method HandlePaymentWebhook(found: Option<ReportedPayment>, reference: string, now: Time, f: Faults)
      returns (err: Option<Error>)
      requires Valid()
      modifies saga.orders, saga.history
      ensures Valid()
      ensures found.None? ==> saga.Untouched() && err == Some(ProviderFailed)
      // a payment that names an order decides which one it is, whatever the notice names
      ensures found.Some? ==>
        var id := if found.value.reference != "" then found.value.reference else reference;
        if id == "" then
          saga.Untouched() && err == Some(MalformedWebhook)
        else if id in old(saga.orders.rows) then
          var e := Webhook(old(saga.orders.rows[id]), found.value.id, found.value.status, now, f);
          saga.Performed(id, e) && err == e.error
        else
          saga.Untouched() && err == if found.value.status == Undecided then None else Some(ServiceOrderNotFound)
    {
      if found.None? {
        return Some(ProviderFailed);
      }
      var id := if found.value.reference != "" then found.value.reference else reference;
      if id == "" {
        return Some(MalformedWebhook);
      }
      match found.value.status
      case Approved => err := MarkApproved(id, found.value.id, now, f);
      case Rejected | Cancelled => err := MarkRejected(id, now, f);
      case Refunded => err := MarkRefunded(id, now, f);
      case Undecided => err := None;
    }

    /** An approved payment pays an order that waits for it. */
    method MarkApproved(id: string, payment: string, now: Time, f: Faults) returns (err: Option<Error>)
      requires Valid()
      modifies saga.orders, saga.history
      ensures Valid()
      ensures id !in old(saga.orders.rows) ==> saga.Untouched() && err == Some(ServiceOrderNotFound)
      ensures id in old(saga.orders.rows) ==>
        var e := Webhook(old(saga.orders.rows[id]), payment, Approved, now, f);
        saga.Performed(id, e) && err == e.error
    {
      hide Views, ServiceOrder.View, Stored, TidyItems, ProductLines, Effects.Commit, StatusEntry;
      var o, notFound := saga.orders.FindById(id);
      if o == null {
        return notFound;
      }
      InView(o);
      if o.status != AwaitingPayment {
        return None;
      }
      ghost var before := o.View();
      var oldStatus := o.status;
      err := o.ConfirmPayment(payment, now);
      if err.Some? {
        return;
      }
      InView(o);
      err := saga.Commit(o, before, StatusEntry(o.id, oldStatus, o.status, None), f);
    }

    /** A rejected or cancelled payment is recorded on an order that waits for it. */
    method MarkRejected(id: string, now: Time, f: Faults) returns (err: Option<Error>)
      requires Valid()
      modifies saga.orders, saga.history
      ensures Valid()
      ensures id !in old(saga.orders.rows) ==> saga.Untouched() && err == Some(ServiceOrderNotFound)
      ensures id in old(saga.orders.rows) ==>
        var e := Webhook(old(saga.orders.rows[id]), "", Rejected, now, f);
        saga.Performed(id, e) && err == e.error
    {
      hide Views, ServiceOrder.View, Stored, TidyItems, ProductLines, Effects.Commit, StatusEntry;
      var o, notFound := saga.orders.FindById(id);
      if o == null {
        return notFound;
      }
      InView(o);
      if o.status != AwaitingPayment {
        return None;
      }
      ghost var before := o.View();
      var oldStatus := o.status;
      err := o.RejectPayment(now);
      if err.Some? {
        return;
      }
      InView(o);
      err := saga.Commit(o, before, StatusEntry(o.id, oldStatus, o.status, None), f);
    }

    /** A refund made at the provider cancels a paid order. */
    method MarkRefunded(id: string, now: Time, f: Faults) returns (err: Option<Error>)
      requires Valid()
      modifies saga.orders, saga.history
      ensures Valid()
      ensures id !in old(saga.orders.rows) ==> saga.Untouched() && err == Some(ServiceOrderNotFound)
      ensures id in old(saga.orders.rows) ==>
        var e := Webhook(old(saga.orders.rows[id]), "", Refunded, now, f);
        saga.Performed(id, e) && err == e.error
    {
      hide Views, ServiceOrder.View, Stored, TidyItems, ProductLines, Effects.Commit, StatusEntry;
      var o, notFound := saga.orders.FindById(id);
      if o == null {
        return notFound;
      }
      InView(o);
      if o.status != Paid {
        return None;
      }
      ghost var before := o.View();
      var oldStatus := o.status;
      err := o.CancelAfterRefund(now);
      if err.Some? {
        return;
      }
      InView(o);
      err := saga.Commit(o, before, StatusEntry(o.id, oldStatus, o.status, None), f);
    }

    method RetryPayment(id: string, order: Option<PaymentOrder>, now: Time, f: Faults) returns (err: Option<Error>)
      requires Valid()
      modifies saga.orders, saga.history
      ensures Valid()
      ensures id !in old(saga.orders.rows) ==> saga.Untouched() && err == Some(ServiceOrderNotFound)
      ensures id in old(saga.orders.rows) ==>
        var e := Effects.RetryPayment(old(saga.orders.rows[id]), order, now, f);
        saga.Performed(id, e) && err == e.error
    {
      var o, notFound := saga.orders.FindById(id);
      if o == null {
        return notFound;
      }
      if o.status != PaymentRejected {
        return Some(InvalidStatusTransition);
      }
      err := StartPayment(o, order, now, f);
    }

    /** The consumer of the answer queues: the message may be acknowledged when no error is reported. */
    method HandleAnswer(answer: Answer, now: Time, f: Faults) returns (err: Option<Error>)
      requires Valid()
      modifies saga.orders, saga.history
      ensures Valid()
      ensures answer.orderId !in old(saga.orders.rows) ==> saga.Untouched() && err.Some?
      ensures answer.orderId in old(saga.orders.rows) ==>
        var e := Consume(old(saga.orders.rows[answer.orderId]), answer, now, f);
        saga.Performed(answer.orderId, e) && err == e.error
    {
      if answer.Failed? && answer.reason == "" {
        return Some(MalformedMessage);
      }
      var current;
      current, err := saga.IsCurrentSaga(answer.orderId, answer.sagaId);
      if err.Some? || !current {
        return;
      }
      match answer
      case Succeeded(id, order, op) => err := saga.HandleSucceeded(order, id, op, now, f);
      case Failed(id, order, op, reason) => err := saga.HandleFailed(order, id, op, reason, f);
    }

    // Editing.

    static method BuildItems(orderId: string, inputs: seq<ItemInput>)
      returns (built: seq<ServiceOrderItem>, err: Option<Error>)
      ensures match Items.BuildItems(orderId, inputs)
              case Ok(items) => err.None? && Views(built) == items
              case Err(e) => err == Some(e)
      // all that was asked for, in the same sequence, or an error about the first item that cannot be built
      ensures err.None? <==> AllOrderable(inputs)
      ensures err.None? ==>
        |built| == |inputs| && forall i | 0 <= i < |inputs| :: Fulfils(built[i].View(), orderId, inputs[i])
      ensures err.Some? ==> exists i :: FailsAt(inputs, i, err.value)
      ensures fresh(built) && Distinct(built)
    {
      hide AllOrderable, Fulfils, FailsAt;
      BuildsExactly(orderId, inputs);
      if Items.BuildItems(orderId, inputs).Ok? {
        BuiltAsAsked(orderId, inputs);
      }
      built := [];
      assert inputs[0..] == inputs;
      assert forall rest: seq<Item> :: Views(built) + rest == rest;
      for i := 0 to |inputs|
        invariant fresh(built) && Distinct(built)
        invariant Items.BuildItems(orderId, inputs) ==
          match Items.BuildItems(orderId, inputs[i..])
          case Ok(rest) => Ok(Views(built) + rest)
          case Err(e) => Err(e)
      {
        var input := inputs[i];
        assert inputs[i..][0] == input && inputs[i..][1..] == inputs[i + 1..];
        if input.itemType.None? {
          err := Some(InvalidItemType);
          return;
        }
        if input.details.None? {
          err := Some(LookupFailed);
          return;
        }
        var item := NewItem(orderId, input.itemType.value, input.reference, input.details.value.0, input.quantity,
          input.details.value.1);
        if item.Err? {
          err := Some(item.error);
          return;
        }
        var created := new ServiceOrderItem(item.value);
        ghost var before := Views(built);
        ViewsConcat(built, [created]);
        built := built + [created];
        assert Views(built) == before + [item.value];
        assert forall rest :: (before + [item.value]) + rest == before + ([item.value] + rest);
      }
      err := None;
    }

    /** Retires the item at i, when those before it are already retired. */
    method RetireOne(o: ServiceOrder, i: nat, now: Time)
      requires o.Valid() && o.CanModifyItems() && i < |o.items| && o.items[i].id != ""
      requires forall k | 0 <= k < i :: o.items[k].IsDeleted()
      modifies o.items
      ensures Views(o.items) == old(Views(o.items))[i := old(RetiredItem(o.items[i].View(), now))]
    {
      if !o.items[i].IsDeleted() {
        ghost var list := Views(o.items);
        ChangeFirstAt(list, o.items[i].id, (item: Item) => item.(deletedAt := Some(now)), i);
        var err := o.RemoveItem(o.items[i].id, now);
      }
    }

    /** Retires every live item of the order. */
    method RetireItems(o: ServiceOrder, now: Time)
      requires o.Valid() && o.CanModifyItems()
      requires forall i | 0 <= i < |o.items| :: o.items[i].id != ""
      modifies o.items
      ensures o.View() == old(o.View()).(items := Retired(old(o.View()).items, now))
    {
      ghost var before := Views(o.items);
      for i := 0 to |o.items|
        invariant forall k | 0 <= k < i :: o.items[k].View() == RetiredItem(before[k], now)
        invariant forall k | i <= k < |o.items| :: o.items[k].View() == before[k]
      {
        ghost var list := Views(o.items);
        RetireOne(o, i, now);
        assert forall k | 0 <= k < |o.items| && k != i :: o.items[k].View() == Views(o.items)[k] == list[k];
        assert o.items[i].View() == Views(o.items)[i];
      }
      assert Views(o.items) == Retired(before, now);
    }

    /** Adds the built objects one by one. */
    static method AddItems(o: ServiceOrder, built: seq<ServiceOrderItem>) returns (err: Option<Error>)
      requires o.Valid() && o.CanModifyItems() && Distinct(built)
      requires forall x | x in built :: x !in o.items
      modifies o`items, o.items, built
      ensures o.Valid()
      ensures match AddAll(old(o.View()).items, old(Views(built)))
              case Ok(items) => err.None? && o.View() == old(o.View()).(items := items)
              case Err(e) => err == Some(e)
      ensures forall x | x in o.items :: x in old(o.items) || x in built
    {
      hide AddOne, AddAll, Views;
      ghost var views := Views(built);
      ghost var goal := AddAll(o.View().items, views);
      assert views[0..] == views;
      for j := 0 to |built|
        invariant o.Valid() && o.CanModifyItems()
        invariant o.View() == old(o.View()).(items := o.View().items)
        invariant forall x | x in o.items :: x in old(o.items) || x in built
        invariant forall k | j <= k < |built| :: built[k] !in o.items && built[k].View() == views[k]
        invariant AddAll(o.View().items, views[j..]) == goal
      {
        AddAllStep(o.View().items, views[j..]);
        AddItemIsAddOne(o.View(), views[j]);
        assert views[j..][0] == views[j] && views[j..][1..] == views[j + 1..];
        assert forall i | 0 <= i < |o.items| :: o.items[i] in old(o.items) || o.items[i] in built;
        err := o.AddItem(built[j]);
        if err.Some? {
          return;
        }
        assert forall k | j < k < |built| :: built[k] != built[j];
      }
      assert views[|built|..] == [];
      AddAllStep(o.View().items, []);
      err := None;
    }

    method TagRetired(o: ServiceOrder, history: string)
      requires o.Valid() && history != ""
      modifies o.items
      ensures o.View() == old(o.View()).(items := Tagged(old(o.View()).items, history))
    {
      ghost var before := Views(o.items);
      for i := 0 to |o.items|
        invariant forall k | 0 <= k < i :: o.items[k].View() == TaggedItem(before[k], history)
        invariant forall k | i <= k < |o.items| :: o.items[k].View() == before[k]
      {
        if o.items[i].IsDeleted() && o.items[i].historyId.None? {
          var err := o.items[i].SetHistoryId(history);
        }
      }
      assert Views(o.items) == Tagged(before, history);
    }

    method EditFields(o: ServiceOrder, edit: Edit) returns (err: Option<Error>)
      modifies o`customerId, o`vehicleId, o`description
      ensures match Effects.EditFields(old(o.View()), edit)
              case Ok(after) => err.None? && o.View() == after
              case Err(e) => err == Some(e)
    {
      if edit.lookup.Some? {
        return edit.lookup;
      }
      if edit.customerId == Some("") {
        return Some(InvalidCustomerId);
      }
      if edit.vehicleId == Some("") {
        return Some(InvalidVehicleId);
      }
      if edit.customerId.Some? {
        o.customerId := edit.customerId.value;
      }
      if edit.vehicleId.Some? {
        o.vehicleId := edit.vehicleId.value;
      }
      if edit.description.Some? {
        o.description := edit.description.value;
      }
      err := None;
    }

    /** Replaces the items in memory: the old ones stay in the list as retired ones. */
    method UpdateItems(o: ServiceOrder, edit: Edit, now: Time) returns (modified: bool, err: Option<Error>)
      requires o.Valid() && forall i | 0 <= i < |o.items| :: o.items[i].id != ""
      modifies o`items, o.items
      ensures o.Valid() && forall i | 0 <= i < |o.items| :: o.items[i] in old(o.items) || fresh(o.items[i])
      ensures match EditItems(old(o.View()), edit)
              case Err(e) => err == Some(e)
              case Ok(items) =>
                && err.None? && modified == edit.items.Some?
                && o.View() == old(o.View()).(items :=
                     if modified then Retired(old(o.View()).items, now) + items else old(o.View()).items)
    {
      modified := false;
      if edit.items.None? {
        err := None;
        return;
      }
      if !o.CanModifyItems() {
        err := Some(CannotModifyItemsAfterPending);
        return;
      }
      var built;
      built, err := BuildItems(o.id, edit.items.value);
      if err.Some? {
        return;
      }
      ghost var views := Views(built);
      RetireItems(o, now);
      assert Views(built) == views;
      AddAllPastDeleted(o.View().items, [], views);
      assert o.View().items + [] == o.View().items;
      err := AddItems(o, built);
      modified := true;
    }

    /** An edit. `history` is the identity of the history record, `ids` those of the new items. */
    method Update(id: string, edit: Edit, history: string, ids: seq<string>, now: Time, f: Faults)
      returns (o: ServiceOrder?, err: Option<Error>)
      requires Valid() && history != ""
      requires forall i | 0 <= i < |ids| :: ids[i] != ""
      requires edit.items.Some? ==> |ids| >= |edit.items.value|
      modifies saga.orders, saga.history
      ensures Valid()
      ensures id !in old(saga.orders.rows) ==> saga.Untouched() && err == Some(ServiceOrderNotFound)
      ensures id in old(saga.orders.rows) ==>
        var e := UpdateOrder(old(saga.orders.rows[id]), edit, ids, f);
        saga.Performed(id, e) && err == e.error
      // the copy in memory: the old items are all there, retired and tagged, before the new ones
      ensures err.None? && edit.items.Some? ==>
        var before := old(saga.orders.rows[id]);
        o != null && EditItems(before, edit).Ok?
        && o.View().items == Replaced(before.items, EditItems(before, edit).value, now, history)
    {
      hide Identified, Active, EditItems, Effects.EditFields, EditEntry, Replaced, Signature;
      var notFound;
      o, notFound := saga.orders.FindById(id);
      if o == null {
        err := notFound;
        return;
      }
      if o.deletedAt.Some? {
        err := Some(ServiceOrderDeleted);
        return;
      }
      err := UpdateLoaded(o, edit, history, ids, now, f);
    }

    method UpdateLoaded(o: ServiceOrder, edit: Edit, history: string, ids: seq<string>, now: Time, f: Faults)
      returns (err: Option<Error>)
      requires Valid() && o.Valid() && history != "" && o.deletedAt.None?
      requires o.id in saga.orders.rows && saga.orders.rows[o.id] == o.View()
      requires forall i | 0 <= i < |ids| :: ids[i] != ""
      requires edit.items.Some? ==> |ids| >= |edit.items.value|
      modifies saga.orders, saga.history, o, o.items
      ensures Valid()
      ensures var e := UpdateOrder(old(o.View()), edit, ids, f);
        saga.Performed(old(o.id), e) && err == e.error
      ensures err.None? && edit.items.Some? ==>
        && EditItems(old(o.View()), edit).Ok?
        && o.View().items == Replaced(old(o.View()).items, EditItems(old(o.View()), edit).value, now, history)
    {
      hide Views, ServiceOrder.View, EditItems, EditedInMemory, Edited, UpdateOrder, EditEntry, Effects.Commit;
      hide Replaced, TidyItems;
      ghost var before := o.View();
      assert before.deletedAt.None? by {
        InView(o);
      }
      var snapshot := o.CaptureState();
      EditsAgree(before, edit, ids, now);
      EditLeads(before, edit, ids, f);
      var modified;
      modified, err := EditLoaded(o, edit, now);
      if err.Some? {
        assert saga.orders.rows[before.id := before] == saga.orders.rows;
        return;
      }
      err := SaveEdit(o, snapshot, before, edit, modified, history, ids, now, f);
    }

    /** The edit of the copy in memory. */
    method EditLoaded(o: ServiceOrder, edit: Edit, now: Time) returns (modified: bool, err: Option<Error>)
      requires o.Valid() && Tidy(o.View())
      modifies o, o.items
      ensures o.Valid() && forall i | 0 <= i < |o.items| :: o.items[i] in old(o.items) || fresh(o.items[i])
      ensures match EditedInMemory(old(o.View()), edit, now)
              case Ok(edited) => err.None? && o.View() == edited && modified == edit.items.Some?
              case Err(e) => err == Some(e)
    {
      hide Views, EditItems, Effects.EditFields, Retired;
      ghost var before := o.View();
      assert forall i | 0 <= i < |o.items| :: o.items[i].View() == before.items[i];
      modified := false;
      err := EditFields(o, edit);
      if err.Some? {
        return;
      }
      FieldsKept(before, edit);
      modified, err := UpdateItems(o, edit, now);
    }

    /** Records whether the items have changed, tags the retired ones, and stores the order. */
    method SaveEdit(o: ServiceOrder, snapshot: ServiceOrder, ghost before: Order, ghost edit: Edit, modified: bool,
                    history: string, ids: seq<string>, ghost now: Time, f: Faults)
      returns (err: Option<Error>)
      requires Valid() && o.Valid() && history != ""
      requires before.id in saga.orders.rows && saga.orders.rows[before.id] == before
      requires snapshot.View() == before && modified == edit.items.Some?
      requires EditedInMemory(before, edit, now) == Ok(o.View())
      requires forall i | 0 <= i < |ids| :: ids[i] != ""
      requires modified ==> |ids| >= |edit.items.value|
      modifies saga.orders, saga.history, o.items
      ensures Valid()
      ensures EditItems(before, edit).Ok? && Edited(before, edit, ids).Ok?
      ensures var e := Commit(before, Edited(before, edit, ids).value,
        EditEntry(before, edit, EditItems(before, edit).value), f);
        saga.Performed(before.id, e) && err == e.error
      ensures err.None? && modified ==>
        o.View().items == Replaced(before.items, EditItems(before, edit).value, now, history)
    {
      hide Views, EditItems, EditedInMemory, Edited, EditEntry, Replaced, TidyItems;
      EditKeeps(before, edit, ids, now);
      var changed := CompareEdit(o, snapshot, before, edit, modified, now);
      err := saga.history.Save(Entry(o.id, o.status, None, None, None, None, None, changed), f.historyOk);
      if err.Some? {
        return;
      }
      err := StoreEdit(o, before, edit, modified, history, ids, now, f.saveOk);
    }

    /** Whether the items have changed, as the history records it. */
    method CompareEdit(o: ServiceOrder, snapshot: ServiceOrder, ghost before: Order, ghost edit: Edit, modified: bool,
                       ghost now: Time)
      returns (changed: bool)
      requires Tidy(before) && snapshot.View() == before && modified == edit.items.Some?
      requires EditedInMemory(before, edit, now) == Ok(o.View())
      ensures EditItems(before, edit).Ok?
      ensures EditEntry(before, edit, EditItems(before, edit).value) ==
        Entry(o.id, o.status, None, None, None, None, None, changed)
    {
      hide EditItems, Effects.EditFields, ItemsChanged, TidyItems;
      FieldsKept(before, edit);
      changed := false;
      if modified {
        changed := HasItemsChanged(snapshot.items, o.items);
        EditComparison(before, EditItems(before, edit).value, edit, [], now, "");
      }
    }

    /** Tags the retired items with the history record and stores the order. */
    method StoreEdit(o: ServiceOrder, ghost before: Order, ghost edit: Edit, modified: bool, history: string,
                     ids: seq<string>, ghost now: Time, ok: bool)
      returns (err: Option<Error>)
      requires Valid() && o.Valid() && history != ""
      requires before.id in saga.orders.rows && saga.orders.rows[before.id] == before && modified == edit.items.Some?
      requires EditedInMemory(before, edit, now) == Ok(o.View())
      requires forall i | 0 <= i < |ids| :: ids[i] != ""
      requires modified ==> |ids| >= |edit.items.value|
      modifies saga.orders, o.items
      ensures Valid() && err == if ok then None else Some(WriteFailed)
      ensures EditItems(before, edit).Ok? && Edited(before, edit, ids).Ok?
      ensures saga.orders.rows ==
        if ok then old(saga.orders.rows)[before.id := Edited(before, edit, ids).value] else old(saga.orders.rows)
      ensures modified ==> o.View().items == Replaced(before.items, EditItems(before, edit).value, now, history)
    {
      hide Identified, Active, EditItems, ProductLines, Effects.EditFields;
      FieldsKept(before, edit);
      ghost var fields := Effects.EditFields(before, edit).value;
      ghost var items := EditItems(before, edit).value;
      EditIsTidy(before, items, edit, ids);
      if modified {
        EditComparison(before, items, edit, ids, now, history);
        TagRetired(o, history);
      } else {
        UneditedItems(before, items, edit, ids);
      }
      assert Stored(o.View(), ids) == fields.(items := Identified(items, ids));
      err := saga.orders.Save(o, ids, ok);
    }
  }

  /** The fields that the handlers look at. */
  lemma InView(o: ServiceOrder)
    ensures o.View().id == o.id && o.View().status == o.status && o.View().deletedAt == o.deletedAt
  {
  }

  /** An edit of an order that is not deleted fails, or is recorded and stored. */
  lemma EditLeads(o: Order, edit: Edit, ids: seq<string>, f: Faults)
    requires o.deletedAt.None?
    ensures match Edited(o, edit, ids)
            case Err(e) => UpdateOrder(o, edit, ids, f) == Refused(o, e)
            case Ok(after) =>
              && EditItems(o, edit).Ok?
              && UpdateOrder(o, edit, ids, f) == Commit(o, after, EditEntry(o, edit, EditItems(o, edit).value), f)
  {
  }

  /** The copy in memory is still of the same order. */
  lemma EditKeeps(o: Order, edit: Edit, ids: seq<string>, now: Time)
    requires EditedInMemory(o, edit, now).Ok?
    ensures EditItems(o, edit).Ok? && Edited(o, edit, ids).Ok?
    ensures var copy := EditedInMemory(o, edit, now).value;
      copy.id == o.id && copy.status == o.status && Edited(o, edit, ids).value.id == o.id
  {
  }

  /** Editing the fields touches neither identity, status nor items, so the items can be edited afterwards. */
  lemma FieldsKept(o: Order, edit: Edit)
    requires Effects.EditFields(o, edit).Ok?
    ensures var after := Effects.EditFields(o, edit).value;
      && after.id == o.id && after.status == o.status && after.items == o.items
      && EditItems(after, edit) == EditItems(o, edit)
  {
  }

  lemma UneditedItems(before: Order, items: seq<Item>, edit: Edit, ids: seq<string>)
    requires Tidy(before) && edit.items.None? && EditItems(before, edit) == Ok(items)
    ensures items == before.items
      && Active(Identified(before.items, ids)) == before.items == Identified(before.items, ids)
  {
    TidyItemsStay(before.items, ids);
  }

  /** Neither the comparison nor the stored order sees the retired items. */
  lemma EditComparison(before: Order, items: seq<Item>, edit: Edit, ids: seq<string>, now: Time, history: string)
    requires Tidy(before) && edit.items.Some? && EditItems(before, edit) == Ok(items)
    ensures ItemsChanged(before.items, Retired(before.items, now) + items) == ItemsChanged(before.items, items)
    ensures Active(Identified(Replaced(before.items, items, now, history), ids)) == Active(Identified(items, ids))
  {
    EditedItemsAreLive(before, items, edit);
    ReplacementMeaning(before.items, items, now, history, ids);
    var gone := Retired(before.items, now);
    ActiveOfUniform(gone);
    ActiveOfUniform(items);
    ActiveOfConcat(gone, items);
    ComparisonSeesLiveItems(before.items, gone + items, items);
  }

  lemma EditedItemsAreLive(before: Order, items: seq<Item>, edit: Edit)
    requires edit.items.Some? && EditItems(before, edit) == Ok(items)
    ensures AllLive(items) && |items| <= |edit.items.value|
  {
    var built := Items.BuildItems(before.id, edit.items.value).value;
    BuiltItemsAreSellable(before.id, edit.items.value);
    AddAllOfLive([], built);
  }

  lemma EditIsTidy(before: Order, items: seq<Item>, edit: Edit, ids: seq<string>)
    requires Tidy(before) && EditItems(before, edit) == Ok(items)
    requires forall i | 0 <= i < |ids| :: ids[i] != ""
    requires edit.items.Some? ==> |ids| >= |edit.items.value|
    ensures forall i | 0 <= i < |Identified(items, ids)| ::
      !Identified(items, ids)[i].Deleted() && Identified(items, ids)[i].id != ""
    ensures Active(Identified(items, ids)) == Identified(items, ids)
  {
    if edit.items.None? {
      TidyItemsStay(items, ids);
    } else {
      EditedItemsAreLive(before, items, edit);
      IdentifiedIsTidy(items, ids);
      ActiveOfUniform(Identified(items, ids));
    }
  }

  lemma AddItemIsAddOne(o: Order, item: Item)
    requires o.CanModifyItems()
    ensures o.AddItem(item) == match AddOne(o.items, item) case Ok(r) => Ok(o.(items := r)) case Err(e) => Err(e)
  {
  }

  lemma AddAllStep(items: seq<Item>, adds: seq<Item>)
    ensures adds == [] ==> AddAll(items, adds) == Ok(items)
    ensures adds != [] ==>
      AddAll(items, adds) == match AddOne(items, adds[0]) case Ok(r) => AddAll(r, adds[1..]) case Err(e) => Err(e)
  {
  }

  lemma CancelNeverRefunds(o: Order, notes: Option<string>, saga: string, now: Time, f: Faults)
    ensures CancelOrder(o, notes, saga, now, f).refunds == []
  {
  }
}
