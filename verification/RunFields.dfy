/** What the fields of a stored order tell about the run that led to it: which step wrote each of them last. */
module RunFields {
  import opened Prelude
  import opened OrderStatus
  import opened Items
  import opened Orders
  import opened Effects
  import opened SagaSystem
  import opened SagaInvariants
  import opened SagaTheorems
  import opened SagaGuards
  import opened StockRuns
  import opened Tables
  import opened Handlers
  import opened Transitions

  lemma RunStep(states: seq<Slice>, run: seq<Step>, b: nat)
    requires Run(states, run) && b < |run|
    ensures Reachable(states[b]) && Enabled(states[b], run[b]) && states[b + 1] == Do(states[b], run[b])
  {
    hide Takes, Init, Reachable;
    StateIsReachable(states, run, b);
    StepTaken(states[b], run[b], states[b + 1]);
  }

  // --- The saga status ---

  /** Step b is the last of the first k that writes the saga fields. */
  ghost predicate WritesSagaLast(states: seq<Slice>, run: seq<Step>, k: nat, b: int)
    requires |states| > |run| >= k
  {
    && 0 <= b < k && SagaWritten(states[b].order, run[b]).Some?
    && forall c | b < c < k :: SagaWritten(states[c].order, run[c]).None?
  }

  /** No step before k has written the saga fields. */
  ghost predicate SagaUnwritten(states: seq<Slice>, run: seq<Step>, k: nat)
    requires |states| > |run| >= k
  {
    forall c | 0 <= c < k :: SagaWritten(states[c].order, run[c]).None?
  }

  /** The step that wrote the saga fields last, if any, tells the saga status. */
  lemma {:induction false} SagaLastWritten(states: seq<Slice>, run: seq<Step>, k: nat) returns (b: int)
    requires Run(states, run) && k <= |run|
    ensures if b == -1 then SagaUnwritten(states, run, k) && states[k].order.sagaStatus == SagaIdle
            else WritesSagaLast(states, run, k, b)
                 && SagaWritten(states[b].order, run[b]) == Some(states[k].order.sagaStatus)
  {
    hide Takes, Reachable, Do, SagaWritten;
    if k == 0 {
      b := -1;
    } else {
      RunStep(states, run, k - 1);
      SagaStatusExactly(states[k - 1], run[k - 1]);
      if SagaWritten(states[k - 1].order, run[k - 1]).Some? {
        b := k - 1;
      } else {
        b := SagaLastWritten(states, run, k - 1);
      }
    }
  }

  lemma OneWritesLast(states: seq<Slice>, run: seq<Step>, k: nat, b: int, c: int)
    requires |states| > |run| >= k && WritesSagaLast(states, run, k, b)
    requires WritesSagaLast(states, run, k, c) || SagaUnwritten(states, run, k)
    ensures WritesSagaLast(states, run, k, c) ==> b == c
    ensures !SagaUnwritten(states, run, k)
  {
    hide SagaWritten;
  }

  /** The step stored a saga as ended: by an answer, at once because stock had nothing to do, or by a settled payment.
      */
  predicate StoresIdle(o: Order, step: Step) {
    && Stores(step.faults)
    && (|| Settles(o, step.event)
        || (StockStep(o, step.event).Some? && !TakesStock(o, StockStep(o, step.event).value))
        || PaymentStep(o, step.event) in {Some(Paid), Some(PaymentRejected)})
  }

  /** What each saga status that a step can write stands for. */
  ghost predicate KindsTold(o: Order, step: Step) {
    && (SagaWritten(o, step) == Some(SagaAwaitingInventory) <==> StartsSaga(o, step))
    && (SagaWritten(o, step) == Some(SagaFailed) <==> Declines(o, step.event) && Stores(step.faults))
    && (SagaWritten(o, step) == Some(SagaAwaitingPayment) <==> ProviderStored(o, step).Some?)
    && (SagaWritten(o, step) == Some(SagaIdle) <==> StoresIdle(o, step))
  }

  lemma WrittenByKind(o: Order, step: Step)
    requires SagaFields(o)
    ensures KindsTold(o, step)
  {
    hide ProductLines;
  }

  /** The saga status, told by the run. It is FAILED exactly if the last step that wrote the saga fields stored a
      failure that the stock service gave a reason for; AWAITING_INVENTORY exactly if it started a saga;
      AWAITING_PAYMENT exactly if it stored a provider order to wait for; and IDLE exactly if it stored a saga as
      ended, or there was none. */
  lemma SagaStatusTells(states: seq<Slice>, run: seq<Step>, k: nat)
    requires Run(states, run) && k <= |run|
    ensures states[k].order.sagaStatus == SagaFailed <==>
      exists b :: WritesSagaLast(states, run, k, b) && Declines(states[b].order, run[b].event) && Stores(run[b].faults)
    ensures states[k].order.sagaStatus == SagaAwaitingInventory <==>
      exists b :: WritesSagaLast(states, run, k, b) && StartsSaga(states[b].order, run[b])
    ensures states[k].order.sagaStatus == SagaAwaitingPayment <==>
      exists b :: WritesSagaLast(states, run, k, b) && ProviderStored(states[b].order, run[b]).Some?
    ensures states[k].order.sagaStatus == SagaIdle <==>
      || SagaUnwritten(states, run, k)
      || exists b :: WritesSagaLast(states, run, k, b) && StoresIdle(states[b].order, run[b])
  {
    hide Reachable, Takes, Init, SagaWritten, StartsSaga, Declines, ProviderStored, StoresIdle;
    var b := SagaLastWritten(states, run, k);
    forall c | WritesSagaLast(states, run, k, c)
      ensures b == c && !SagaUnwritten(states, run, k) && KindsTold(states[c].order, run[c])
    {
      OneWritesLast(states, run, k, c, b);
      RunStep(states, run, c);
      ReachableInv(states[c]);
      WrittenByKind(states[c].order, run[c]);
    }
  }

  /** With the saga status FAILED, the saga that ended last was declined. */
  lemma {:induction false} FailedMeansDeclined(states: seq<Slice>, run: seq<Step>, k: nat)
    requires Run(states, run) && k <= |run| && states[k].order.sagaStatus == SagaFailed
    ensures states[k].resolutions != [] && states[k].resolutions[|states[k].resolutions| - 1].outcome == Declined
  {
    hide Takes, Reachable, Do, SagaWritten, EndingOf;
    if k > 0 {
      var s, step := states[k - 1], run[k - 1];
      RunStep(states, run, k - 1);
      SagaStatusExactly(s, step);
      SagaEndsExactly(s, step);
      FailingEnds(s, step);
      if s.order.sagaStatus == SagaFailed {
        FailedMeansDeclined(states, run, k - 1);
      }
    }
  }

  lemma FailingEnds(s: Slice, step: Step)
    requires Reachable(s)
    ensures s.current.Some? <==> s.order.InFlight()
    ensures SagaWritten(s.order, step) == Some(SagaFailed) ==>
      s.current.Some? && EndingOf(s.order, step) == Some(Declined)
  {
    hide Reachable, ProductLines;
    ReachableInv(s);
    WrittenByKind(s.order, step);
  }

  // --- The payment fields ---

  /** The provider order that the first k steps of the run stored last. */
  ghost function WaitedFor(states: seq<Slice>, run: seq<Step>, k: nat): Option<PaymentOrder>
    requires |states| > |run| >= k
  {
    if k == 0 then None
    else OrElse(ProviderStored(states[k - 1].order, run[k - 1]), WaitedFor(states, run, k - 1))
  }

  /** The payment that the order waits for, or has waited for, is the provider order stored last: its id, its address.
      */
  lemma {:induction false} PaymentFieldsTell(states: seq<Slice>, run: seq<Step>, k: nat)
    requires Run(states, run) && k <= |run|
    ensures var o, p := states[k].order, WaitedFor(states, run, k);
      && o.preferenceId == (if p.Some? then Some(p.value.id) else None)
      && o.paymentUrl == (if p.Some? then Some(p.value.url) else None)
  {
    hide Takes, Reachable, EffectOf, ProviderStored, SagaTabled, ValuesTabled, ClosingTabled;
    hide StatusTabled, RequestsTabled, HistoryTabled, ErrorTabled;
    if k > 0 {
      PaymentFieldsTell(states, run, k - 1);
      RunStep(states, run, k - 1);
      StepTabled(states[k - 1], run[k - 1]);
    }
  }

  /** What a deletion has the provider cancel is the provider order stored last. */
  lemma WithdrawsTheLast(states: seq<Slice>, run: seq<Step>, k: nat)
    requires Run(states, run) && k < |run|
    ensures var o, event, p := states[k].order, run[k].event, WaitedFor(states, run, k);
      states[k + 1].withdrawn == states[k].withdrawn +
        if event.DeleteCalled? && event.cancelOk && o.status in {AwaitingPayment, PaymentRejected} && p.Some?
        then [p.value.id] else []
  {
    hide Takes, Reachable, Do, WaitedFor;
    RunStep(states, run, k);
    PaymentFieldsTell(states, run, k);
    WithdrawnExactly(states[k], run[k]);
  }

  /** Whatever is cancelled at the provider, the provider has handed out during the run. */
  lemma {:induction false} WithdrawnWasHandedOut(states: seq<Slice>, run: seq<Step>, k: nat, id: string)
    requires Run(states, run) && k <= |run| && id in states[k].withdrawn
    ensures exists b | 0 <= b < k ::
      ProviderStored(states[b].order, run[b]).Some? && ProviderStored(states[b].order, run[b]).value.id == id
  {
    hide Takes, Reachable, Do, ProviderStored;
    if k > 0 {
      WithdrawsTheLast(states, run, k - 1);
      if id in states[k - 1].withdrawn {
        WithdrawnWasHandedOut(states, run, k - 1, id);
      } else {
        WaitedForWasStored(states, run, k - 1);
      }
    }
  }

  lemma {:induction false} WaitedForWasStored(states: seq<Slice>, run: seq<Step>, k: nat)
    requires |states| > |run| >= k && WaitedFor(states, run, k).Some?
    ensures exists b | 0 <= b < k :: ProviderStored(states[b].order, run[b]) == WaitedFor(states, run, k)
  {
    hide ProviderStored;
    if ProviderStored(states[k - 1].order, run[k - 1]).None? {
      WaitedForWasStored(states, run, k - 1);
    }
  }

  // --- Customer, vehicle and description ---

  /** Step b is the last of the first k that stores a value in the field. */
  ghost predicate StoresLast(states: seq<Slice>, run: seq<Step>, k: nat, field: Field, b: int)
    requires |states| > |run| >= k
  {
    && 0 <= b < k && ValueStored(states[b].order, run[b], field).Some?
    && forall c | b < c < k :: ValueStored(states[c].order, run[c], field).None?
  }

  /** Each of the fields has the value that the last stored edit naming one gave it, at step b, or else the one that the
      order was created with. */
  lemma {:induction false} FieldTells(states: seq<Slice>, run: seq<Step>, k: nat, field: Field) returns (b: int)
    requires Run(states, run) && k <= |run|
    ensures if b == -1 then
              && ValueOf(states[k].order, field) == ValueOf(states[0].order, field)
              && forall c | 0 <= c < k :: ValueStored(states[c].order, run[c], field).None?
            else
              && StoresLast(states, run, k, field, b)
              && ValueStored(states[b].order, run[b], field) == Some(ValueOf(states[k].order, field))
  {
    hide Takes, Reachable, Do, ValueStored, ValueOf;
    b := -1;
    if k > 0 {
      RunStep(states, run, k - 1);
      ValueExactly(states[k - 1], run[k - 1], field);
      if ValueStored(states[k - 1].order, run[k - 1], field).Some? {
        b := k - 1;
      } else {
        b := FieldTells(states, run, k - 1, field);
      }
    }
  }

  // --- The history ---

  /** The entry of an answer about this saga: with a reason exactly if it failed. */
  predicate Records(x: Entry, saga: string, failed: bool) {
    x.sagaId == Some(saga) && x.operation.Some? && (x.reason.Some? <==> failed)
  }

  /** The history has such an entry. */
  ghost predicate Recorded(log: seq<Entry>, r: Resolution) {
    exists x | x in log :: Records(x, r.request.sagaId, r.outcome == Declined)
  }

  /** Every saga that was not dropped has an entry in the history, with a reason exactly if it failed. */
  lemma {:induction false} EndingsAreRecorded(states: seq<Slice>, run: seq<Step>, k: nat)
    requires Run(states, run) && k <= |run|
    ensures forall r | r in states[k].resolutions && r.outcome != Abandoned :: Recorded(states[k].log, r)
  {
    hide Takes, Reachable, Do, EndingOf, EffectOf, Told, Recorded;
    if k > 0 {
      var s, t, step := states[k - 1], states[k], run[k - 1];
      EndingsAreRecorded(states, run, k - 1);
      RunStep(states, run, k - 1);
      SagaEndsExactly(s, step);
      HistoryExactly(s, step);
      forall r | r in t.resolutions && r.outcome != Abandoned ensures Recorded(t.log, r) {
        if r !in s.resolutions {
          EndingTold(s, step);
        }
        RecordedStays(s.log, EffectOf(s.order, step).entries, r);
      }
    }
  }

  lemma RecordedStays(log: seq<Entry>, more: seq<Entry>, r: Resolution)
    requires Recorded(log, r) || Recorded(more, r)
    ensures Recorded(log + more, r)
  {
    hide Records;
    assert forall x | x in log || x in more :: x in log + more;
  }

  lemma EndingTold(s: Slice, step: Step)
    requires Reachable(s) && Enabled(s, step) && s.current.Some?
    requires EndingOf(s.order, step).Some? && EndingOf(s.order, step).value != Abandoned
    ensures Recorded(EffectOf(s.order, step).entries, Resolution(s.current.value, EndingOf(s.order, step).value))
  {
    hide Reachable, EffectOf, EndingOf, Told;
    ReachableInv(s);
    HistoryExactly(s, step);
    var e := EffectOf(s.order, step);
    EndingToldBy(s.order, step, e.entries != [] && e.entries[0].itemsChanged);
    assert e.entries[0] in e.entries;
  }

  lemma EndingToldBy(o: Order, step: Step, changed: bool)
    requires SagaFields(o) && EndingOf(o, step).Some? && EndingOf(o, step).value != Abandoned
    ensures step.faults.historyOk && o.sagaId.Some?
    ensures Told(o, step.event, changed).Some?
    ensures Records(Told(o, step.event, changed).value, o.sagaId.value, EndingOf(o, step).value == Declined)
  {
    hide ProductLines;
  }
}
