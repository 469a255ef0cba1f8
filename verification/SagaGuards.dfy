/** What exactly a step does to the saga in flight, to its messages and to the payment: conditions on the stored order
    and on the call, such as can be looked at before the step. */
module SagaGuards {
  import opened Prelude
  import opened OrderStatus
  import opened Items
  import opened Orders
  import opened Effects
  import opened Moves
  import opened SagaSystem
  import opened SagaInvariants
  import opened SagaTheorems

  /** The writes to the history and to the order go through. */
  predicate Stores(f: Faults) { f.historyOk && f.saveOk }

  /** The provider has created an order that the service order can wait for. */
  predicate Usable(provider: Option<PaymentOrder>) {
    provider.Some? && provider.value.id != "" && provider.value.url != ""
  }

  // --- How a saga ends ---

  /** A payment step that drops the saga in flight: a notice that settles the payment waited for, or the creation of a
      provider order. */
  predicate DropsSaga(o: Order, step: Step) {
    && o.InFlight() && Stores(step.faults)
    && match step.event
       case WebhookReceived(payment, reported) =>
         && o.status == AwaitingPayment
         && (reported in {Rejected, PaymentStatus.Cancelled} || (reported == Approved && payment != ""))
       case RetryCalled(provider) => o.status == PaymentRejected && Usable(provider)
       case AdvanceCalled(_, provider) => o.status == Completed && Usable(provider)
       case _ => false
  }

  /** How the saga in flight ends with the step, if it does. */
  function EndingOf(o: Order, step: Step): Option<Outcome> {
    if !o.InFlight() then None
    else if step.event.AnswerDelivered? then
      if !o.CanProcessSaga(step.event.answer.sagaId) || !Stores(step.faults) then None
      else if step.event.answer.Failed? then
        if step.event.answer.reason == "" then None else Some(Declined)
      else if o.target.Some? && Stuck(o.status, o.target.value) then None
      else Some(Applied)
    else if DropsSaga(o, step) then Some(Abandoned)
    else None
  }

  /** A saga ends with a step exactly as the stored order and the call tell beforehand. */
  lemma SagaEndsExactly(s: Slice, step: Step)
    requires Reachable(s) && Enabled(s, step)
    ensures Do(s, step).resolutions == s.resolutions +
      if s.current.Some? && EndingOf(s.order, step).Some?
      then [Resolution(s.current.value, EndingOf(s.order, step).value)] else []
  {
    hide Reachable, EffectOf, EndingOf;
    ReachableInv(s);
    if s.current.Some? {
      if step.event.AnswerDelivered? {
        AnswerEnds(s.order, step);
      } else {
        OthersEnd(s.order, step);
      }
    }
    ResolutionsAfter(s, EffectOf(s.order, step), step.event);
  }

  lemma ResolutionsAfter(s: Slice, e: Effect, event: Event)
    ensures After(s, e, event).resolutions == s.resolutions +
      if s.current.Some? && e.order.Current() != s.order.Current()
      then [Resolution(s.current.value, OutcomeOf(event))] else []
  {
    assert s.resolutions + [] == s.resolutions;
  }

  lemma AnswerEnds(o: Order, step: Step)
    requires Coherent(o) && PairOk(o) && o.InFlight() && step.event.AnswerDelivered?
    ensures EffectOf(o, step).order.Current() != o.Current() <==> EndingOf(o, step).Some?
    ensures EndingOf(o, step).Some? ==> EndingOf(o, step).value == OutcomeOf(step.event)
  {
    hide ProductLines, SagaEntry;
  }

  lemma OthersEnd(o: Order, step: Step)
    requires Coherent(o) && PairOk(o) && o.InFlight() && !step.event.AnswerDelivered?
    ensures EffectOf(o, step).order.Current() != o.Current() <==> DropsSaga(o, step)
    ensures EndingOf(o, step).Some? <==> DropsSaga(o, step)
    ensures EndingOf(o, step).Some? ==> EndingOf(o, step).value == OutcomeOf(step.event)
  {
    hide ProductLines, Advance, Respond, Delete, Webhook, RetryPayment, UpdateOrder, Recover;
    var now, f := step.now, step.faults;
    match step.event
    case AdvanceCalled(saga, provider) => AdvanceDrops(o, saga, provider, now, f);
    case AuthorizationAnswered(caller, approved, observation, saga) =>
      RespondDropsNothing(o, caller, approved, observation, saga, now, f);
    case DeleteCalled(notes, saga, _, refundOk) => DeleteDropsNothing(o, notes, saga, refundOk, now, f);
    case WebhookReceived(payment, reported) => WebhookDrops(o, payment, reported, now, f);
    case RetryCalled(provider) => RetryDrops(o, provider, now, f);
    case OrderEdited(edit, ids) => EditDropsNothing(o, edit, ids, f);
    case ServiceRestarted => RecoverDropsNothing(o, f);
    case _ =>
  }

  lemma AdvanceDrops(o: Order, saga: string, provider: Option<PaymentOrder>, now: Time, f: Faults)
    requires Coherent(o) && o.InFlight()
    ensures Advance(o, saga, provider, now, f).order.Current() != o.Current()
      <==> o.status == Completed && Usable(provider) && Stores(f)
  {
    hide ProductLines;
  }

  lemma RespondDropsNothing(o: Order, caller: Caller, approved: bool, observation: Option<string>, saga: string,
                            now: Time, f: Faults)
    requires o.InFlight()
    ensures Respond(o, caller, approved, observation, saga, now, f).order.Current() == o.Current()
  {
    hide ProductLines;
  }

  lemma DeleteDropsNothing(o: Order, notes: Option<string>, saga: string, refundOk: bool, now: Time, f: Faults)
    requires o.InFlight()
    ensures Delete(o, notes, saga, refundOk, now, f).order == o
  {
    hide ProductLines, StartSaga, TransitionLocal;
  }

  lemma WebhookDrops(o: Order, payment: string, reported: PaymentStatus, now: Time, f: Faults)
    requires Coherent(o) && o.InFlight()
    ensures Webhook(o, payment, reported, now, f).order.Current() != o.Current()
      <==> o.status == AwaitingPayment && Stores(f)
           && (reported in {Rejected, PaymentStatus.Cancelled} || (reported == Approved && payment != ""))
  {
    hide ProductLines;
  }

  lemma RetryDrops(o: Order, provider: Option<PaymentOrder>, now: Time, f: Faults)
    requires Coherent(o) && o.InFlight()
    ensures RetryPayment(o, provider, now, f).order.Current() != o.Current()
      <==> o.status == PaymentRejected && Usable(provider) && Stores(f)
  {
    hide ProductLines;
  }

  lemma EditDropsNothing(o: Order, edit: Edit, ids: seq<string>, f: Faults)
    ensures UpdateOrder(o, edit, ids, f).order.Current() == o.Current()
  {
    hide ProductLines, EditItems, Identified;
  }

  lemma RecoverDropsNothing(o: Order, f: Faults)
    ensures Recover(o, f).order == o
  {
    hide ProductLines, InferOperation;
  }

  // --- What is published, and what is asked for wrongly ---

  /** A step publishes exactly if it stores a started saga, or is a restart that finds the order in flight, and the
      publication goes through. So for an order in flight only a restart publishes. */
  lemma PublishesExactly(s: Slice, step: Step)
    requires Reachable(s) && Enabled(s, step)
    ensures var e := EffectOf(s.order, step);
      && (e.published != [] <==>
            (e.begun.Some? || (step.event.ServiceRestarted? && s.order.InFlight())) && step.faults.publishOk)
      && (s.order.InFlight() ==> e.begun.None?)
  {
    hide Reachable;
    ReachableInv(s);
    EffectPublishes(s.order, step);
    var m := StepRecords(s, step);
    MoveFacts(s, m, Do(s, step).order, step.now);
  }

  lemma EffectPublishes(o: Order, step: Step)
    requires SagaFields(o) && PairOk(o)
    ensures var e := EffectOf(o, step);
      e.published != [] <==>
        (e.begun.Some? || (step.event.ServiceRestarted? && o.InFlight())) && step.faults.publishOk
  {
    hide ProductLines, StartSaga, CancelOrder, StartPayment, Commit, Consume, Edited, Recover;
    var now, f := step.now, step.faults;
    match step.event
    case AdvanceCalled(saga, provider) =>
      if NextStatus(o.status).Ok? {
        var to := NextStatus(o.status).value;
        StartPublishes(o, DetermineInventoryOperation(o.status, to), to, None, saga, now, f);
      }
      PaymentPublishesNothing(o, provider, now, f);
      CommitPublishesNothing();
    case AuthorizationAnswered(caller, approved, observation, saga) =>
      StartPublishes(o, CancelReserved, AuthorizationDenied, observation, saga, now, f);
      CommitPublishesNothing();
    case DeleteCalled(notes, saga, _, _) => CancelPublishes(o, notes, saga, now, f);
    case CustomerRemoved(notes, saga, _) => CancelPublishes(o, notes, saga, now, f);
    case WebhookReceived(_, _) => CommitPublishesNothing();
    case RetryCalled(provider) => PaymentPublishesNothing(o, provider, now, f);
    case OrderEdited(_, _) => CommitPublishesNothing();
    case AnswerDelivered(answer, _) => ConsumePublishesNothing(o, answer, now, f);
    case ServiceRestarted => RecoverPublishesExactly(o, f);
    case _ =>
  }

  lemma CommitPublishesNothing()
    ensures forall before, after, entry, f ::
      Commit(before, after, entry, f).published == [] && Commit(before, after, entry, f).begun.None?
  {
  }

  lemma PaymentPublishesNothing(o: Order, provider: Option<PaymentOrder>, now: Time, f: Faults)
    ensures StartPayment(o, provider, now, f).published == [] && StartPayment(o, provider, now, f).begun.None?
  {
  }

  lemma ConsumePublishesNothing(o: Order, answer: Answer, now: Time, f: Faults)
    ensures Consume(o, answer, now, f).published == [] && Consume(o, answer, now, f).begun.None?
  {
  }

  lemma StartPublishes(o: Order, op: Operation, to: Status, notes: Option<string>, saga: string, now: Time, f: Faults)
    ensures var e := StartSaga(o, op, to, notes, saga, now, f);
      e.published != [] <==> e.begun.Some? && f.publishOk
  {
    hide ProductLines, TransitionLocal, Launch;
    LocalPublishesNothing(o, to, op, notes, now, f);
    LaunchLeaves(o, op, to, notes, saga, f);
  }

  lemma LocalPublishesNothing(o: Order, to: Status, op: Operation, notes: Option<string>, now: Time, f: Faults)
    ensures var e := TransitionLocal(o, to, op, notes, now, f);
      e.published == [] && e.begun.None?
  {
    hide Finish, SagaEntry;
  }

  lemma CancelPublishes(o: Order, notes: Option<string>, saga: string, now: Time, f: Faults)
    ensures var e := CancelOrder(o, notes, saga, now, f);
      e.published != [] <==> e.begun.Some? && f.publishOk
  {
    hide ProductLines, StartSaga, TransitionLocal;
    LocalPublishesNothing(o, Canceled, OpNone, notes, now, f);
    StartPublishes(o, CancelReserved, Canceled, notes, saga, now, f);
    StartPublishes(o, CancelConfirmed, Canceled, notes, saga, now, f);
  }

  lemma RecoverPublishesExactly(o: Order, f: Faults)
    requires SagaFields(o) && PairOk(o)
    ensures Recover(o, f).published != [] <==> o.InFlight() && f.publishOk
    ensures Recover(o, f).begun.None?
  {
    hide ProductLines;
  }

  /** Recovery asks for another operation than was started exactly if it republishes for a saga in flight in one of the
      four statuses. */
  lemma MisaskedExactly(s: Slice, step: Step)
    requires Reachable(s) && Enabled(s, step)
    ensures Do(s, step).misasked == s.misasked +
      if step.event.ServiceRestarted? && step.faults.publishOk && s.order.InFlight() && s.order.sagaId.Some?
         && RecoveryErrs(s.order.status)
      then {s.order.sagaId.value} else {}
  {
    hide Reachable, EffectOf, After;
    ReachableInv(s);
    PublishesExactly(s, step);
    var e := EffectOf(s.order, step);
    MisaskedAfter(s, e, step.event);
    if step.event.ServiceRestarted? {
      RecoveredRequest(s.order, step);
      assert e.published != [] ==> (set r | r in e.published :: r.sagaId) == {s.order.sagaId.value} by {
        if e.published != [] {
          assert e.published == [e.published[0]];
        }
      }
    }
    assert e.begun.None? && !step.event.ServiceRestarted? ==> e.published == [];
  }

  lemma MisaskedAfter(s: Slice, e: Effect, event: Event)
    ensures After(s, e, event).misasked == s.misasked +
      if e.begun.None? && RecoveryErrs(s.order.status) then set r | r in e.published :: r.sagaId else {}
  {
  }

  lemma RecoveredRequest(o: Order, step: Step)
    requires SagaFields(o) && PairOk(o) && step.event.ServiceRestarted?
    ensures var e := EffectOf(o, step);
      && e.begun.None?
      && (e.published == [] || (o.sagaId.Some? && |e.published| == 1 && e.published[0].sagaId == o.sagaId.value))
  {
    hide ProductLines;
  }

  // --- Payment and delivery ---

  /** An order is delivered exactly by advancing it from PAID, when the writes go through. Neither a refund nor a saga
      in flight stands in the way. */
  lemma DeliveredExactly(s: Slice, step: Step)
    requires Reachable(s) && Enabled(s, step) && s.order.status != OrderStatus.Delivered
    ensures Do(s, step).order.status == OrderStatus.Delivered
      <==> step.event.AdvanceCalled? && s.order.status == Paid && Stores(step.faults)
  {
    hide Reachable;
    ReachableInv(s);
    var m := StepRecords(s, step);
    MovesToDelivered(s.order, m, Do(s, step).order, step.now);
    if step.event.AdvanceCalled? && s.order.status == Paid {
      AdvanceOfPaid(s.order, step);
    }
  }

  lemma MovesToDelivered(o: Order, m: Move, o': Order, now: Time)
    requires Coherent(o) && PairOk(o) && Moved(o, m, o', now) && o.status != OrderStatus.Delivered
    ensures o'.status == OrderStatus.Delivered ==> o.status == Paid && m == Shift(OrderStatus.Delivered)
  {
    hide ProductLines, Sound;
  }

  lemma AdvanceOfPaid(o: Order, step: Step)
    requires Coherent(o) && o.status == Paid && step.event.AdvanceCalled?
    ensures EffectOf(o, step).order.status == if Stores(step.faults) then OrderStatus.Delivered else Paid
  {
    hide ProductLines, StartSaga;
  }

  /** Deletion leaves the status of an unfinished order as it is exactly if a saga is in flight already, one is started
      now, a write fails, or a refund is refused; otherwise the order is CANCELED. */
  lemma DeletionLeavesStatus(s: Slice, step: Step)
    requires Reachable(s) && Enabled(s, step) && step.event.DeleteCalled? && !IsFinal(s.order.status)
    ensures var o, o' := s.order, Do(s, step).order;
      && (o'.status == o.status || o'.status == Canceled)
      && (o'.status == o.status <==>
            || o.InFlight()
            || (o.status !in {Received, Diagnosing} && o.Lines() != [])
            || !Stores(step.faults)
            || (o.status == Paid && o.paymentId.Some? && !step.event.refundOk))
  {
    hide Reachable, ProductLines, Order.Lines;
    ReachableInv(s);
    var notes, saga := step.event.notes, step.event.saga;
    CancellationLeavesStatus(s.order, notes, saga, step.now, step.faults);
    assert s.order.deletedAt.None?;
  }

  lemma CancellationLeavesStatus(o: Order, notes: Option<string>, saga: string, now: Time, f: Faults)
    requires o.deletedAt.None? && !IsFinal(o.status)
    ensures var o' := CancelOrder(o, notes, saga, now, f).order;
      && (o'.status == o.status || o'.status == Canceled)
      && (o'.status == o.status <==>
            || o.InFlight()
            || (o.status !in {Received, Diagnosing} && o.Lines() != [])
            || !Stores(f))
  {
    hide ProductLines, SagaEntry;
  }

  /** A refund, and then an advance: the refunded order is delivered exactly if its deletion left it PAID, because a
      saga is in flight, one was started, or a write failed, and the writes of the advance go through. */
  lemma RefundedThenDelivered(s: Slice, deletion: Step, advance: Step)
    requires Reachable(s) && Enabled(s, deletion) && Enabled(Do(s, deletion), advance)
    requires deletion.event.DeleteCalled? && deletion.event.refundOk && advance.event.AdvanceCalled?
    requires s.order.status == Paid && s.order.paymentId.Some?
    ensures var t := Do(Do(s, deletion), advance);
      && t.refunds == s.refunds + [s.order.paymentId.value]
      && (t.order.status == OrderStatus.Delivered <==>
            && Stores(advance.faults)
            && (s.order.InFlight() || s.order.Lines() != [] || !Stores(deletion.faults)))
  {
    hide Reachable, Do, Enabled;
    ReachableStep(s, deletion);
    RefundsExactly(s, deletion);
    DeletionLeavesStatus(s, deletion);
    RefundsExactly(Do(s, deletion), advance);
    DeliveredExactly(Do(s, deletion), advance);
    assert s.refunds + [s.order.paymentId.value] + [] == s.refunds + [s.order.paymentId.value];
  }

  /** A deletion that has the provider order of an awaited payment cancelled leaves the service order waiting for that
      payment exactly if a saga is in flight already, one is started now, or a write fails. */
  lemma LeftWaitingExactly(s: Slice, step: Step)
    requires Reachable(s) && Enabled(s, step) && step.event.DeleteCalled? && step.event.cancelOk
    requires s.order.status == AwaitingPayment
    ensures s.order.preferenceId.Some?
    ensures var t := Do(s, step);
      && t.withdrawn == s.withdrawn + [s.order.preferenceId.value]
      && (t.order.status == AwaitingPayment <==>
            s.order.InFlight() || s.order.Lines() != [] || !Stores(step.faults))
  {
    hide Reachable;
    ReachableInv(s);
    DeletionLeavesStatus(s, step);
  }

  /** Provider orders are cancelled by deletions of unpaid orders only, one each time the provider goes along. */
  lemma WithdrawnExactly(s: Slice, step: Step)
    requires Reachable(s) && Enabled(s, step)
    ensures Do(s, step).withdrawn == s.withdrawn +
      if step.event.DeleteCalled? && step.event.cancelOk && s.order.preferenceId.Some?
         && s.order.status in {AwaitingPayment, PaymentRejected}
      then [s.order.preferenceId.value] else []
  {
    hide Reachable, EffectOf;
    ReachableInv(s);
  }

  // --- Items ---

  /** The edit passes its checks: customer and vehicle are found and belong together, neither is emptied, and items are
      given only while they may be modified, each of them one that can be built. */
  predicate EditPasses(o: Order, edit: Edit) {
    && o.deletedAt.None? && edit.lookup.None? && edit.customerId != Some("") && edit.vehicleId != Some("")
    && (edit.items.Some? ==> o.status in {Received, Diagnosing} && AllOrderable(edit.items.value))
  }

  /** The call replaces the items. */
  predicate ReplacesItems(o: Order, step: Step) {
    step.event.OrderEdited? && step.event.edit.items.Some? && EditPasses(o, step.event.edit) && Stores(step.faults)
  }

  /** The quantity of a product or service changes only by such a call, and then it is the one asked for in all; what
      the order has of it then is the one asked for first, under the catalogue's name and at its price. */
  lemma QuantityExactly(s: Slice, step: Step, k: Key)
    requires Reachable(s) && Enabled(s, step)
    ensures var items, items' := s.order.items, Do(s, step).order.items;
      if ReplacesItems(s.order, step) then
        var inputs := step.event.edit.items.value;
        QuantityOf(items', k) == QuantityAsked(inputs, k) && KeptAsAsked(FirstOf(items', k), FirstAsked(inputs, k))
      else
        QuantityOf(items', k) == QuantityOf(items, k) && SameButIdentity(FirstOf(items', k), FirstOf(items, k))
  {
    hide Reachable, EffectOf, QuantityOf, FirstOf, KeptAsAsked, AllOrderable;
    ReachableInv(s);
    if step.event.OrderEdited? {
      EditedItems(s.order, step, k);
    } else {
      OthersKeepItems(s, step);
    }
  }

  /** The same item, possibly identified now. */
  predicate SameButIdentity(a: Option<Item>, b: Option<Item>) {
    match (a, b)
    case (None, None) => true
    case (Some(x), Some(y)) => x.(id := "") == y.(id := "")
    case _ => false
  }

  lemma OthersKeepItems(s: Slice, step: Step)
    requires Inv(s) && Enabled(s, step) && !step.event.OrderEdited?
    ensures Do(s, step).order.items == s.order.items
  {
    hide EffectOf;
    var m := StepRecords(s, step);
    MoveFacts(s, m, Do(s, step).order, step.now);
  }

  lemma EditedItems(o: Order, step: Step, k: Key)
    requires step.event.OrderEdited?
    ensures var items, items' := o.items, EffectOf(o, step).order.items;
      if ReplacesItems(o, step) then
        var inputs := step.event.edit.items.value;
        QuantityOf(items', k) == QuantityAsked(inputs, k) && KeptAsAsked(FirstOf(items', k), FirstAsked(inputs, k))
      else
        QuantityOf(items', k) == QuantityOf(items, k) && SameButIdentity(FirstOf(items', k), FirstOf(items, k))
  {
    hide AddAll, QuantityOf, QuantityAsked, FirstOf, FirstAsked, AllOrderable, EditEntry;
    hide Items.BuildItems, Identified;
    var edit, ids := step.event.edit, step.event.ids;
    SameIdentified(o.items, ids, k);
    if edit.items.Some? {
      BuildsExactly(o.id, edit.items.value);
      if BuildItems(o.id, edit.items.value).Ok? {
        MergedInputs(o.id, edit.items.value, k);
        SameIdentified(AddAll([], BuildItems(o.id, edit.items.value).value).value, ids, k);
      }
    }
  }

  lemma MergedInputs(orderId: string, inputs: seq<ItemInput>, k: Key)
    requires BuildItems(orderId, inputs).Ok?
    ensures var merged := AddAll([], BuildItems(orderId, inputs).value);
      && merged.Ok? && QuantityOf(merged.value, k) == QuantityAsked(inputs, k)
      && KeptAsAsked(FirstOf(merged.value, k), FirstAsked(inputs, k))
  {
    BuiltItemsAreSellable(orderId, inputs);
    BuiltQuantity(orderId, inputs, k);
    AddAllMeaning([], BuildItems(orderId, inputs).value, k);
  }

  lemma {:induction false} SameIdentified(items: seq<Item>, ids: seq<string>, k: Key)
    ensures QuantityOf(Identified(items, ids), k) == QuantityOf(items, k)
    ensures SameButIdentity(FirstOf(Identified(items, ids), k), FirstOf(items, k))
  {
    if items != [] {
      SameIdentified(items[1..], if items[0].id == "" && ids != [] then ids[1..] else ids, k);
    }
  }
}
