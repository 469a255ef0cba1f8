/** The handlers follow the tables. */
module Handlers {
  import opened Prelude
  import opened OrderStatus
  import opened Items
  import opened Orders
  import opened Effects
  import opened Signatures
  import opened Moves
  import opened SagaSystem
  import opened SagaInvariants
  import opened SagaTheorems
  import opened SagaGuards
  import opened Tables

  /** The call is one that leaves everything as it is. */
  predicate Idle(o: Order, event: Event) {
    && Arrival(o, event).None? && StockStep(o, event).None? && !Declines(o, event)
    && (event.OrderEdited? ==> !EditPasses(o, event.edit)) && !event.ServiceRestarted?
  }

  lemma RefusedTabled(o: Order, step: Step, e: Error, refunds: seq<string>)
    requires Idle(o, step.event)
    requires if step.event.OrderEdited? then RefusesEdit(o, step.event.edit, e) else Refusal(o, step.event) == Some(e)
    ensures Tabled(o, step, Refused(o, e).(refunds := refunds))
  {
    hide ProductLines, Refusal, EditPasses, RefusesEdit;
  }

  lemma IgnoredTabled(o: Order, step: Step)
    requires Idle(o, step.event) && Refusal(o, step.event).None? && !step.event.OrderEdited?
    ensures Tabled(o, step, Ignored(o))
  {
    hide ProductLines, Refusal;
  }

  /** If all writes go through, the order and the entry are those of the tables. */
  ghost predicate Makes(o: Order, step: Step, o': Order, entry: Entry) {
    && MakesOf(o, step.(faults := Faults(true, true, true)), Effect(o', [entry], None, [], [], None))
    && Told(o, step.event, entry.itemsChanged) == Some(entry)
    && (step.event.OrderEdited? ==> EditPasses(o, step.event.edit))
    && Refusal(o, step.event).None? && !step.event.ServiceRestarted?
  }

  ghost predicate MakesOf(o: Order, sure: Step, e: Effect) {
    StatusTabled(o, sure, e) && FieldsTabled(o, sure, e) && (StockStep(o, sure.event).Some? ==> !StartsSaga(o, sure))
    && (StockStep(o, sure.event).Some? ==> Arrival(o, sure.event).Some?)
  }

  lemma CommitTabled(o: Order, step: Step, o': Order, entry: Entry, refunds: seq<string>)
    requires Makes(o, step, o', entry)
    ensures Tabled(o, step, Commit(o, o', entry, step.faults).(refunds := refunds))
  {
    hide ProductLines, Refusal, StockStep, PlainStep, PaymentStep, Settles, Declines, EditPasses, TakesStock;
  }

  /** A call that aims at a step with the stock service, with the operation and the remark that go with it. */
  predicate Aims(o: Order, event: Event, to: Status, op: Operation, notes: Option<string>) {
    && StockStep(o, event) == Some(to) && OperationTold(o, event) == Some(op) && Remark(event) == notes
    && Refusal(o, event).None?
  }

  lemma LocalTabled(o: Order, step: Step, to: Status, op: Operation, notes: Option<string>, refunds: seq<string>)
    requires Coherent(o) && Aims(o, step.event, to, op, notes) && !TakesStock(o, to)
    ensures Tabled(o, step, TransitionLocal(o, to, op, notes, step.now, step.faults).(refunds := refunds))
    ensures TransitionLocal(o, to, op, notes, step.now, step.faults).refunds == []
  {
    hide ProductLines, Tabled, Refusal;
    var o' := o.UpdateStatus(to, step.now).value.CompleteSaga();
    var entry := SagaEntry(o.id, o.status, to, op, "", None, notes);
    assert Makes(o, step, o', entry);
    CommitTabled(o, step, o', entry, refunds);
  }

  lemma LaunchTabled(o: Order, step: Step, to: Status, op: Operation, notes: Option<string>, refunds: seq<string>)
    requires Coherent(o) && Aims(o, step.event, to, op, notes) && TakesStock(o, to)
    ensures var e := Launch(o, op, to, notes, Offered(step.event).value, step.faults);
      e.refunds == [] && Tabled(o, step, e.(refunds := refunds))
  {
    hide ProductLines, Refusal, FieldsTabled;
    LaunchFields(o, step, to, op, notes);
  }

  lemma LaunchFields(o: Order, step: Step, to: Status, op: Operation, notes: Option<string>)
    requires Coherent(o) && Aims(o, step.event, to, op, notes) && TakesStock(o, to)
    ensures forall refunds ::
      FieldsTabled(o, step, Launch(o, op, to, notes, Offered(step.event).value, step.faults).(refunds := refunds))
  {
    hide ProductLines, Refusal, Told;
  }

  lemma AdvanceTabled(o: Order, step: Step)
    requires Coherent(o) && PairOk(o) && step.event.AdvanceCalled?
    ensures Tabled(o, step, EffectOf(o, step))
  {
    hide ProductLines, Tabled, Makes, Launch, TransitionLocal;
    var e := EffectOf(o, step);
    if Refusal(o, step.event).Some? {
      RefusedTabled(o, step, Refusal(o, step.event).value, []);
    } else if StockStep(o, step.event).Some? {
      var to := StockStep(o, step.event).value;
      var op := OperationTold(o, step.event).value;
      if TakesStock(o, to) {
        LaunchTabled(o, step, to, op, None, []);
      } else {
        LocalTabled(o, step, to, op, None, []);
      }
    } else {
      AdvanceCommits(o, step);
    }
  }

  lemma ArrivesByAdvance(o: Order, event: Event)
    requires event.AdvanceCalled? && Refusal(o, event).None? && StockStep(o, event).None?
    ensures Arrival(o, event).Some? && CanTransitionTo(o.status, Arrival(o, event).value)
    ensures Arrival(o, event) == Some(AwaitingPayment) <==> o.status == Completed
  {
    hide ProductLines;
  }

  lemma AdvanceCommits(o: Order, step: Step)
    requires Coherent(o) && PairOk(o) && step.event.AdvanceCalled?
    requires Refusal(o, step.event).None? && StockStep(o, step.event).None?
    ensures Tabled(o, step, EffectOf(o, step))
  {
    hide ProductLines, Tabled, Makes;
    ArrivesByAdvance(o, step.event);
    var to := Arrival(o, step.event).value;
    var entry := StatusEntry(o.id, o.status, to, None);
    if to == AwaitingPayment {
      var o' := o.AwaitPayment(step.event.provider.value.id, step.event.provider.value.url, step.now).value;
      MakesByAdvance(o, step, o', entry);
      CommitTabled(o, step, o', entry, []);
    } else {
      var o' := o.UpdateStatus(to, step.now).value;
      MakesByAdvance(o, step, o', entry);
      CommitTabled(o, step, o', entry, []);
    }
  }

  lemma MakesByAdvance(o: Order, step: Step, o': Order, entry: Entry)
    requires step.event.AdvanceCalled? && Refusal(o, step.event).None? && StockStep(o, step.event).None?
    requires Arrival(o, step.event).Some?
    requires var to := Arrival(o, step.event).value;
      && entry == StatusEntry(o.id, o.status, to, None)
      && Ok(o') == if to == AwaitingPayment && step.event.provider.Some?
                   then o.AwaitPayment(step.event.provider.value.id, step.event.provider.value.url, step.now)
                   else o.UpdateStatus(to, step.now)
    ensures Makes(o, step, o', entry)
  {
    hide ProductLines;
  }

  lemma RespondTabled(o: Order, step: Step)
    requires Coherent(o) && PairOk(o) && step.event.AuthorizationAnswered?
    ensures Tabled(o, step, EffectOf(o, step))
  {
    hide ProductLines, Tabled, Makes, Launch, TransitionLocal;
    if Refusal(o, step.event).Some? {
      RefusedTabled(o, step, Refusal(o, step.event).value, []);
    } else if StockStep(o, step.event).Some? {
      var notes := step.event.observation;
      if TakesStock(o, AuthorizationDenied) {
        LaunchTabled(o, step, AuthorizationDenied, CancelReserved, notes, []);
      } else {
        LocalTabled(o, step, AuthorizationDenied, CancelReserved, notes, []);
      }
    } else {
      var o' := o.UpdateStatus(Authorized, step.now).value;
      var entry := StatusEntry(o.id, o.status, Authorized, step.event.observation);
      MakesByApproval(o, step, o', entry);
      CommitTabled(o, step, o', entry, []);
    }
  }

  lemma MakesByApproval(o: Order, step: Step, o': Order, entry: Entry)
    requires step.event.AuthorizationAnswered? && Refusal(o, step.event).None? && step.event.approved
    requires Ok(o') == o.UpdateStatus(Authorized, step.now)
    requires entry == StatusEntry(o.id, o.status, Authorized, step.event.observation)
    ensures Makes(o, step, o', entry)
  {
    hide ProductLines;
  }

  lemma CancelTabled(o: Order, step: Step, notes: Option<string>, saga: string, refunds: seq<string>)
    requires Coherent(o) && (step.event.DeleteCalled? || step.event.CustomerRemoved?)
    requires StockStep(o, step.event) == Some(Canceled) && Refusal(o, step.event).None?
    requires Remark(step.event) == notes && Offered(step.event) == Some(saga)
    ensures Tabled(o, step, CancelOrder(o, notes, saga, step.now, step.faults).(refunds := refunds))
  {
    hide ProductLines, Tabled, Refusal, Launch, TransitionLocal;
    var op := OperationTold(o, step.event).value;
    if TakesStock(o, Canceled) {
      LaunchTabled(o, step, Canceled, op, notes, refunds);
    } else {
      LocalTabled(o, step, Canceled, op, notes, refunds);
    }
  }

  lemma DeleteTabled(o: Order, step: Step)
    requires Coherent(o) && PairOk(o) && step.event.DeleteCalled?
    ensures Tabled(o, step, EffectOf(o, step))
  {
    hide ProductLines, Tabled, StartSaga, TransitionLocal;
    if Refusal(o, step.event).Some? {
      RefusedTabled(o, step, Refusal(o, step.event).value, EffectOf(o, step).refunds);
    } else {
      CancelRefundsNothing(o, step.event.notes, step.event.saga, step.now, step.faults);
      CancelTabled(o, step, step.event.notes, step.event.saga, EffectOf(o, step).refunds);
    }
  }

  lemma RemovalTabled(o: Order, step: Step)
    requires Coherent(o) && PairOk(o) && step.event.CustomerRemoved?
    ensures Tabled(o, step, EffectOf(o, step))
  {
    hide ProductLines, Tabled, CancelOrder;
    if StockStep(o, step.event).None? {
      IgnoredTabled(o, step);
    } else {
      CancelRefundsNothing(o, step.event.notes, step.event.saga, step.now, step.faults);
      CancelTabled(o, step, step.event.notes, step.event.saga, []);
    }
  }

  lemma WebhookTabled(o: Order, step: Step)
    requires Coherent(o) && PairOk(o) && step.event.WebhookReceived?
    ensures Tabled(o, step, EffectOf(o, step))
  {
    hide ProductLines, Tabled, Makes;
    if Refusal(o, step.event).Some? {
      RefusedTabled(o, step, Refusal(o, step.event).value, []);
    } else if Arrival(o, step.event).None? {
      IgnoredTabled(o, step);
    } else {
      var to := Arrival(o, step.event).value;
      var o' := (match to
                 case Paid => o.ConfirmPayment(step.event.payment, step.now)
                 case PaymentRejected => o.RejectPayment(step.now)
                 case _ => o.UpdateStatus(to, step.now)).value;
      var entry := StatusEntry(o.id, o.status, to, None);
      MakesByNotice(o, step, to, o', entry);
      CommitTabled(o, step, o', entry, []);
    }
  }

  lemma MakesByNotice(o: Order, step: Step, to: Status, o': Order, entry: Entry)
    requires step.event.WebhookReceived? && Refusal(o, step.event).None? && Arrival(o, step.event) == Some(to)
    requires Ok(o') == match to
                       case Paid => o.ConfirmPayment(step.event.payment, step.now)
                       case PaymentRejected => o.RejectPayment(step.now)
                       case _ => o.UpdateStatus(to, step.now)
    requires entry == StatusEntry(o.id, o.status, to, None)
    ensures Makes(o, step, o', entry)
  {
    hide ProductLines;
  }

  lemma RetryTabled(o: Order, step: Step)
    requires Coherent(o) && PairOk(o) && step.event.RetryCalled?
    ensures Tabled(o, step, EffectOf(o, step))
  {
    hide ProductLines, Tabled, Makes;
    if Refusal(o, step.event).Some? {
      RefusedTabled(o, step, Refusal(o, step.event).value, []);
    } else {
      var p := step.event.provider.value;
      var o' := o.AwaitPayment(p.id, p.url, step.now).value;
      var entry := StatusEntry(o.id, o.status, AwaitingPayment, None);
      MakesByRetry(o, step, o', entry);
      CommitTabled(o, step, o', entry, []);
    }
  }

  lemma MakesByRetry(o: Order, step: Step, o': Order, entry: Entry)
    requires step.event.RetryCalled? && Refusal(o, step.event).None?
    requires Ok(o') == o.AwaitPayment(step.event.provider.value.id, step.event.provider.value.url, step.now)
    requires entry == StatusEntry(o.id, o.status, AwaitingPayment, None)
    ensures Makes(o, step, o', entry)
  {
    hide ProductLines;
  }

  lemma AnswerTabled(o: Order, step: Step)
    requires Coherent(o) && PairOk(o) && step.event.AnswerDelivered?
    ensures Tabled(o, step, EffectOf(o, step))
  {
    hide ProductLines, Tabled, Makes;
    var answer := step.event.answer;
    if Refusal(o, step.event).Some? {
      RefusedTabled(o, step, Refusal(o, step.event).value, []);
    } else if !o.CanProcessSaga(answer.sagaId) {
      IgnoredTabled(o, step);
    } else if answer.Succeeded? {
      var to := o.target.value;
      var o' := Finish(o, to, step.now).value;
      var entry := SagaEntry(o.id, o.status, to, answer.operation, answer.sagaId, None, o.notes);
      MakesByAnswer(o, step, o', entry);
      CommitTabled(o, step, o', entry, []);
    } else {
      var reason := Some(answer.reason);
      var entry := SagaEntry(o.id, o.status, o.status, answer.operation, answer.sagaId, reason, None);
      MakesByAnswer(o, step, o.FailSaga(), entry);
      CommitTabled(o, step, o.FailSaga(), entry, []);
    }
  }

  lemma MakesByAnswer(o: Order, step: Step, o': Order, entry: Entry)
    requires Coherent(o) && PairOk(o) && step.event.AnswerDelivered? && Refusal(o, step.event).None?
    requires o.CanProcessSaga(step.event.answer.sagaId)
    requires
      var answer := step.event.answer;
      if answer.Succeeded? then
        && Ok(o') == Finish(o, o.target.value, step.now)
        && entry == SagaEntry(o.id, o.status, o.target.value, answer.operation, answer.sagaId, None, o.notes)
      else
        && o' == o.FailSaga()
        && entry == SagaEntry(o.id, o.status, o.status, answer.operation, answer.sagaId, Some(answer.reason), None)
    ensures Makes(o, step, o', entry)
  {
    hide ProductLines;
  }

  lemma EditTabled(o: Order, step: Step)
    requires Coherent(o) && PairOk(o) && step.event.OrderEdited?
    ensures Tabled(o, step, EffectOf(o, step))
  {
    hide ProductLines, Tabled, Makes, BuildItems, AddAll, FailsAt, ItemsChanged;
    var edit := step.event.edit;
    if edit.items.Some? {
      BuildsExactly(o.id, edit.items.value);
      if BuildItems(o.id, edit.items.value).Ok? {
        MergedInputs(o.id, edit.items.value, (Product, ""));
      }
    }
    if EditPasses(o, edit) {
      var o' := Edited(o, edit, step.event.ids).value;
      var entry := EditEntry(o, edit, EditItems(o, edit).value);
      MakesByEdit(o, step, o', entry);
      CommitTabled(o, step, o', entry, []);
    } else {
      RefusedTabled(o, step, EffectOf(o, step).error.value, []);
    }
  }

  lemma MakesByEdit(o: Order, step: Step, o': Order, entry: Entry)
    requires step.event.OrderEdited? && EditPasses(o, step.event.edit)
      && Ok(o') == Edited(o, step.event.edit, step.event.ids)
    requires EditItems(o, step.event.edit).Ok?
      && entry == EditEntry(o, step.event.edit, EditItems(o, step.event.edit).value)
    ensures Makes(o, step, o', entry)
  {
    hide ProductLines, BuildItems, AddAll, AllOrderable, ItemsChanged, EditItems, Identified;
  }

  lemma RecoverTabled(o: Order, step: Step)
    requires Coherent(o) && PairOk(o) && step.event.ServiceRestarted?
    ensures Tabled(o, step, EffectOf(o, step))
  {
    hide ProductLines;
  }

  /** Every step does to the order, to the history and to the queue what the tables say. */
  lemma StepTabled(s: Slice, step: Step)
    requires Reachable(s) && Enabled(s, step)
    ensures Tabled(s.order, step, EffectOf(s.order, step))
  {
    hide Reachable, Tabled, EffectOf;
    ReachableInv(s);
    var o := s.order;
    match step.event
    case AdvanceCalled(_, _) => AdvanceTabled(o, step);
    case AuthorizationAnswered(_, _, _, _) => RespondTabled(o, step);
    case DeleteCalled(_, _, _, _) => DeleteTabled(o, step);
    case CustomerRemoved(_, _, _) => RemovalTabled(o, step);
    case WebhookReceived(_, _) => WebhookTabled(o, step);
    case RetryCalled(_) => RetryTabled(o, step);
    case OrderEdited(_, _) => EditTabled(o, step);
    case AnswerDelivered(_, _) => AnswerTabled(o, step);
    case ServiceRestarted => RecoverTabled(o, step);
    case StockAnswered(_, _, _) => NothingTabled(o, step);
    case AnswerRepeated(_) => NothingTabled(o, step);
  }

  lemma NothingTabled(o: Order, step: Step)
    requires step.event.StockAnswered? || step.event.AnswerRepeated?
    ensures Tabled(o, step, EffectOf(o, step))
  {
    hide Tabled;
    IgnoredTabled(o, step);
  }
}
