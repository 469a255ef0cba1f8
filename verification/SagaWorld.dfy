/**
  All orders together, with the queues they share.

  Every message names the order it is for. This is why it is enough to look at one order at a time: whatever the
  whole service does is, seen from each of its orders, a run of that order's slice.
*/
module SagaWorld {
  import opened Prelude
  import opened OrderStatus
  import opened Items
  import opened Orders
  import opened Effects
  import opened Moves
  import opened SagaSystem
  import opened SagaInvariants
  import opened SagaTheorems

  /** `parts` holds each order with its history; the messages of all orders are in the shared queues, and the
      queues of the parts themselves are not used. */
  datatype World = World(
    parts: map<string, Slice>,
    requests: multiset<Request>,
    answers: multiset<Answer>,
    issued: set<Answer>)

  const EMPTY := World(map[], multiset{}, multiset{}, {})

  /** An order with everything that waits in the shared queues. */
  function InWorld(w: World, id: string): Slice
    requires id in w.parts
  {
    w.parts[id].(requests := w.requests, answers := w.answers, issued := w.issued)
  }

  /** An event is handled for the order its message names. */
  predicate IsFor(event: Event, id: string) {
    match event
    case AnswerDelivered(answer, _) => answer.orderId == id
    case StockAnswered(request, _, _) => request.orderId == id
    case AnswerRepeated(answer) => answer.orderId == id
    case _ => true
  }

  /** The saga id on offer is new to every order. */
  ghost predicate Fresh(w: World, event: Event) {
    Offered(event).Some? ==> forall k | k in w.parts :: Offered(event).value !in w.parts[k].used
  }

  datatype Action =
    | OrderCreated(order: Order)
    | OrderStep(id: string, step: Step)

  ghost predicate Possible(w: World, action: Action) {
    match action
    case OrderCreated(o) => o.id !in w.parts && Starting(o)
    case OrderStep(id, step) =>
      id in w.parts && IsFor(step.event, id) && Enabled(InWorld(w, id), step) && Fresh(w, step.event)
  }

  ghost function Act(w: World, action: Action): (w': World)
    requires Possible(w, action)
    ensures w'.parts.Keys == w.parts.Keys + {if action.OrderCreated? then action.order.id else action.id}
  {
    match action
    case OrderCreated(o) => w.(parts := w.parts[o.id := FirstSlice(o)])
    case OrderStep(id, step) =>
      var s := Do(InWorld(w, id), step);
      World(w.parts[id := s], s.requests, s.answers, s.issued)
  }

  ghost predicate Becomes(v: World, action: Action, w: World) {
    Possible(v, action) && w == Act(v, action)
  }

  /** The worlds passed through by the actions, one after the other, from no order at all. */
  ghost predicate Develops(worlds: seq<World>, actions: seq<Action>) {
    && |worlds| == |actions| + 1 && worlds[0] == EMPTY
    && forall i | 0 <= i < |actions| :: Becomes(worlds[i], actions[i], worlds[i + 1])
  }

  ghost predicate Arises(actions: seq<Action>, w: World) {
    exists worlds :: Develops(worlds, actions) && worlds[|actions|] == w
  }

  // What one order sees of the queues.

  ghost function RequestsOf(ms: multiset<Request>, id: string): (of: multiset<Request>)
    ensures forall r :: of[r] == if r.orderId == id then ms[r] else 0
    decreases |ms|
  {
    if ms == multiset{} then multiset{}
    else
      var r :| r in ms;
      RequestsOf(ms - multiset{r}, id) + if r.orderId == id then multiset{r} else multiset{}
  }

  ghost function AnswersOf(ms: multiset<Answer>, id: string): (of: multiset<Answer>)
    ensures forall a :: of[a] == if a.orderId == id then ms[a] else 0
    decreases |ms|
  {
    if ms == multiset{} then multiset{}
    else
      var a :| a in ms;
      AnswersOf(ms - multiset{a}, id) + if a.orderId == id then multiset{a} else multiset{}
  }

  function IssuedOf(issued: set<Answer>, id: string): set<Answer> {
    set a | a in issued && a.orderId == id
  }

  /** The order's own slice of the world. */
  ghost function SliceOf(w: World, id: string): Slice
    requires id in w.parts
  {
    w.parts[id].(requests := RequestsOf(w.requests, id), answers := AnswersOf(w.answers, id),
      issued := IssuedOf(w.issued, id))
  }

  /** Orders are stored under their ids, and messages name stored orders only. */
  ghost predicate Addressed(w: World) {
    && (forall k | k in w.parts :: w.parts[k].order.id == k)
    && (forall r | r in w.requests :: r.orderId in w.parts)
    && (forall a | a in w.answers :: a.orderId in w.parts)
    && (forall a | a in w.issued :: a.orderId in w.parts)
  }

  /** No saga id is used for two orders. */
  ghost predicate SagasApart(w: World) {
    forall j, k | j in w.parts && k in w.parts && j != k :: w.parts[j].used !! w.parts[k].used
  }

  ghost predicate Separated(w: World) {
    Addressed(w) && SagasApart(w) && forall k | k in w.parts :: Reachable(SliceOf(w, k))
  }

  /** What a step does to its order keeps the order's id, and it publishes under that id only. */
  lemma StepsStayWithTheirOrder(s: Slice, step: Step)
    requires Inv(s) && Enabled(s, step)
    ensures EffectOf(s.order, step).order.id == s.order.id
    ensures forall r | r in EffectOf(s.order, step).published :: r.orderId == s.order.id
    ensures Do(s, step).used <= s.used + (if Offered(step.event).Some? then {Offered(step.event).value} else {})
  {
    hide Advance, Respond, Delete, CustomerDeleted, Webhook, RetryPayment, UpdateOrder, Consume, Recover;
    var m := StepMoves(s, step);
    MovesKeepTheId(s.order, m, EffectOf(s.order, step).order, step.now);
  }

  lemma MovesKeepTheId(o: Order, m: Move, o': Order, now: Time)
    requires Moved(o, m, o', now)
    ensures o'.id == o.id
  {
    hide ProductLines, Sound;
  }

  lemma QueuesApart(s: Slice, e: Effect, event: Event)
    ensures After(s, e, event).requests == RequestsAfter(s.requests, e, event)
    ensures After(s, e, event).answers == AnswersAfter(s.answers, e, event)
    ensures After(s, e, event).issued == IssuedAfter(s.issued, event)
  {
  }

  /** Apart from the queues a step does the same whatever is in them. */
  lemma RestApart(s: Slice, t: Slice, e: Effect, event: Event)
    requires s == t.(requests := s.requests, answers := s.answers, issued := s.issued)
    ensures var s', t' := After(s, e, event), After(t, e, event);
      s' == t'.(requests := s'.requests, answers := s'.answers, issued := s'.issued)
  {
  }

  lemma RequestsOfSum(a: multiset<Request>, b: multiset<Request>, k: string)
    ensures RequestsOf(a + b, k) == RequestsOf(a, k) + RequestsOf(b, k)
  {
    hide RequestsOf;
  }

  lemma RequestsOfLess(a: multiset<Request>, r: Request, k: string)
    ensures RequestsOf(a - multiset{r}, k) == if r.orderId == k then RequestsOf(a, k) - multiset{r}
      else RequestsOf(a, k)
  {
    hide RequestsOf;
  }

  lemma RequestsOfOne(published: seq<Request>, id: string, k: string)
    requires forall r | r in published :: r.orderId == id
    ensures RequestsOf(multiset(published), k) == if k == id then multiset(published) else multiset{}
  {
    hide RequestsOf;
    forall r: Request | r.orderId != id ensures multiset(published)[r] == 0 {
      assert r !in published;
    }
  }

  /** The requests that concern an order, after a step for it or for another one. */
  lemma RequestsSeen(requests: multiset<Request>, id: string, event: Event, e: Effect, k: string)
    requires IsFor(event, id) && forall r | r in e.published :: r.orderId == id
    ensures RequestsOf(RequestsAfter(requests, e, event), k) ==
      if k == id then RequestsAfter(RequestsOf(requests, id), e, event) else RequestsOf(requests, k)
  {
    hide RequestsOf;
    if event.StockAnswered? {
      RequestsOfLess(requests, event.request, k);
    } else {
      RequestsOfSum(requests, multiset(e.published), k);
      RequestsOfOne(e.published, id, k);
    }
  }

  lemma AnswersOfMore(a: multiset<Answer>, answer: Answer, k: string)
    ensures AnswersOf(a + multiset{answer}, k) ==
      if answer.orderId == k then AnswersOf(a, k) + multiset{answer} else AnswersOf(a, k)
  {
    hide AnswersOf;
  }

  lemma AnswersOfLess(a: multiset<Answer>, answer: Answer, k: string)
    ensures AnswersOf(a - multiset{answer}, k) ==
      if answer.orderId == k then AnswersOf(a, k) - multiset{answer} else AnswersOf(a, k)
  {
    hide AnswersOf;
  }

  lemma AnswersSeen(answers: multiset<Answer>, id: string, event: Event, e: Effect, k: string)
    requires IsFor(event, id) && (event.StockAnswered? ==> Echoes(event.answer, event.request))
    ensures AnswersOf(AnswersAfter(answers, e, event), k) ==
      if k == id then AnswersAfter(AnswersOf(answers, id), e, event) else AnswersOf(answers, k)
  {
    hide AnswersOf;
    match event
    case AnswerDelivered(answer, _) => AnswersOfLess(answers, answer, k);
    case StockAnswered(_, answer, _) => AnswersOfMore(answers, answer, k);
    case AnswerRepeated(answer) => AnswersOfMore(answers, answer, k);
    case _ =>
  }

  lemma IssuedSeen(issued: set<Answer>, id: string, event: Event, k: string)
    requires IsFor(event, id) && (event.StockAnswered? ==> Echoes(event.answer, event.request))
    ensures IssuedOf(IssuedAfter(issued, event), k) == if k == id then IssuedAfter(IssuedOf(issued, id), event)
      else IssuedOf(issued, k)
  {
  }

  /** Seen from its own order, a step on the shared queues is the same step on the order's slice; the others see
      nothing of it. */
  lemma StepSeen(w: World, id: string, event: Event, e: Effect, k: string)
    requires id in w.parts && k in w.parts && IsFor(event, id)
    requires forall r | r in e.published :: r.orderId == id
    requires event.StockAnswered? ==> Echoes(event.answer, event.request)
    ensures var s := After(InWorld(w, id), e, event);
      var w' := World(w.parts[id := s], s.requests, s.answers, s.issued);
      SliceOf(w', k) == if k == id then After(SliceOf(w, id), e, event) else SliceOf(w, k)
  {
    hide After, RequestsAfter, AnswersAfter, IssuedAfter, IssuedOf, IsFor;
    RequestsSeen(w.requests, id, event, e, k);
    AnswersSeen(w.answers, id, event, e, k);
    IssuedSeen(w.issued, id, event, k);
    QueuesApart(InWorld(w, id), e, event);
    QueuesApart(SliceOf(w, id), e, event);
    RestApart(SliceOf(w, id), InWorld(w, id), e, event);
  }

  /** What a step on the shared queues may do for its order, it may do on the order's slice. */
  lemma OwnStepEnabled(w: World, id: string, step: Step)
    requires id in w.parts && IsFor(step.event, id) && Enabled(InWorld(w, id), step)
    ensures Enabled(SliceOf(w, id), step)
  {
  }

  /** The effect of a possible step stays with its order. */
  lemma StepIsOwn(w: World, id: string, step: Step)
    requires Separated(w) && Possible(w, OrderStep(id, step))
    ensures Enabled(SliceOf(w, id), step)
    ensures var e := EffectOf(w.parts[id].order, step);
      e.order.id == id && forall r | r in e.published :: r.orderId == id
    ensures Do(InWorld(w, id), step).used <= w.parts[id].used
      + (if Offered(step.event).Some? then {Offered(step.event).value} else {})
    ensures Do(InWorld(w, id), step).order == EffectOf(w.parts[id].order, step).order
    ensures step.event.StockAnswered? ==> Echoes(step.event.answer, step.event.request)
  {
    hide EffectOf, Reachable, Inv, After, SagasApart;
    OwnStepEnabled(w, id, step);
    ReachableInv(SliceOf(w, id));
    StepsStayWithTheirOrder(SliceOf(w, id), step);
    var e := EffectOf(w.parts[id].order, step);
    RestApart(SliceOf(w, id), InWorld(w, id), e, step.event);
    OrderAfter(InWorld(w, id), e, step.event);
  }

  lemma OrderAfter(s: Slice, e: Effect, event: Event)
    ensures After(s, e, event).order == e.order
  {
  }

  lemma StepKeepsAddressed(w: World, id: string, step: Step)
    requires Separated(w) && Possible(w, OrderStep(id, step))
    ensures Addressed(Act(w, OrderStep(id, step)))
  {
    hide EffectOf, Reachable, Separated, After;
    SeparatedIsAddressed(w);
    StepIsOwn(w, id, step);
    if step.event.AnswerRepeated? {
      RepeatedNamesAnOrder(w, id, step);
    }
    MessagesAfter(w, id, step, EffectOf(w.parts[id].order, step));
  }

  lemma RepeatedNamesAnOrder(w: World, id: string, step: Step)
    requires Addressed(w) && Possible(w, OrderStep(id, step)) && step.event.AnswerRepeated?
    ensures step.event.answer.orderId in w.parts
  {
  }

  lemma SeparatedIsAddressed(w: World)
    requires Separated(w)
    ensures Addressed(w) && SagasApart(w)
  {
  }

  lemma MessagesAfter(w: World, id: string, step: Step, e: Effect)
    requires Addressed(w) && id in w.parts && IsFor(step.event, id)
    requires forall r | r in e.published :: r.orderId == id
    requires step.event.StockAnswered? ==> Echoes(step.event.answer, step.event.request)
    requires step.event.AnswerRepeated? ==> step.event.answer.orderId in w.parts
    ensures var s := After(InWorld(w, id), e, step.event);
      && (forall r | r in s.requests :: r.orderId in w.parts)
      && (forall a | a in s.answers :: a.orderId in w.parts)
      && (forall a | a in s.issued :: a.orderId in w.parts)
  {
    hide After, Addressed, RequestsAfter, AnswersAfter, IssuedAfter;
    QueuesApart(InWorld(w, id), e, step.event);
    forall r | r in RequestsAfter(w.requests, e, step.event) ensures r.orderId in w.parts {
      RequestFrom(w, id, step.event, e, r);
    }
    AnswersFrom(w, id, step.event, e);
  }

  lemma RequestFrom(w: World, id: string, event: Event, e: Effect, r: Request)
    requires Addressed(w) && id in w.parts && (forall r | r in e.published :: r.orderId == id)
    requires r in RequestsAfter(w.requests, e, event)
    ensures r.orderId in w.parts
  {
    if r !in w.requests {
      assert r in e.published;
    }
  }

  lemma AnswersFrom(w: World, id: string, event: Event, e: Effect)
    requires Addressed(w) && id in w.parts && IsFor(event, id)
    requires event.StockAnswered? ==> Echoes(event.answer, event.request)
    requires event.AnswerRepeated? ==> event.answer.orderId in w.parts
    ensures forall a | a in AnswersAfter(w.answers, e, event) :: a.orderId in w.parts
    ensures forall a | a in IssuedAfter(w.issued, event) :: a.orderId in w.parts
  {
  }

  lemma StepKeepsSagasApart(w: World, id: string, step: Step)
    requires Separated(w) && Possible(w, OrderStep(id, step))
    ensures SagasApart(Act(w, OrderStep(id, step)))
  {
    hide EffectOf, Reachable, Enabled, After, SliceOf, InWorld, Separated;
    SeparatedIsAddressed(w);
    StepIsOwn(w, id, step);
    UsedStayApart(w, id, Do(InWorld(w, id), step), Offered(step.event));
  }

  lemma UsedStayApart(w: World, id: string, s: Slice, offered: Option<string>)
    requires SagasApart(w) && id in w.parts
    requires s.used <= w.parts[id].used + if offered.Some? then {offered.value} else {}
    requires offered.Some? ==> forall k | k in w.parts :: offered.value !in w.parts[k].used
    ensures SagasApart(w.(parts := w.parts[id := s]))
  {
  }

  lemma StepKeepsReachable(w: World, id: string, step: Step, k: string)
    requires Separated(w) && Possible(w, OrderStep(id, step)) && k in w.parts
    ensures Reachable(SliceOf(Act(w, OrderStep(id, step)), k))
    ensures k != id ==> SliceOf(Act(w, OrderStep(id, step)), k) == SliceOf(w, k)
  {
    hide EffectOf, Reachable, After;
    StepIsOwn(w, id, step);
    StepSeen(w, id, step.event, EffectOf(w.parts[id].order, step), k);
    if k == id {
      ReachableStep(SliceOf(w, id), step);
    }
  }

  lemma ActKeepsSeparated(w: World, action: Action)
    requires Separated(w) && Possible(w, action)
    ensures Separated(Act(w, action))
  {
    hide EffectOf, Reachable, After;
    match action
    case OrderCreated(o) => CreationKeepsSeparated(w, o);
    case OrderStep(id, step) =>
      StepKeepsAddressed(w, id, step);
      StepKeepsSagasApart(w, id, step);
      forall k | k in w.parts ensures Reachable(SliceOf(Act(w, action), k)) {
        StepKeepsReachable(w, id, step, k);
      }
  }

  lemma CreationKeepsSeparated(w: World, o: Order)
    requires Separated(w) && Possible(w, OrderCreated(o))
    ensures Separated(Act(w, OrderCreated(o)))
  {
    hide Reachable, SliceOf, Addressed, SagasApart;
    CreationKeepsOrdersApart(w, o);
    var w' := Act(w, OrderCreated(o));
    forall k | k in w'.parts ensures Reachable(SliceOf(w', k)) {
      if k == o.id {
        NewSliceIsReachable(w, o);
      } else {
        OldSliceStays(w, o, k);
      }
    }
  }

  lemma CreationKeepsOrdersApart(w: World, o: Order)
    requires Addressed(w) && SagasApart(w) && Possible(w, OrderCreated(o))
    ensures Addressed(Act(w, OrderCreated(o))) && SagasApart(Act(w, OrderCreated(o)))
  {
    hide Starting, FirstSlice, Addressed, SagasApart;
    FirstSliceIsEmpty(o);
    AddressedGrows(w, o.id, FirstSlice(o));
    UsedStayApartWithNone(w, o.id, FirstSlice(o));
  }

  lemma AddressedGrows(w: World, id: string, s: Slice)
    requires Addressed(w) && s.order.id == id
    ensures Addressed(w.(parts := w.parts[id := s]))
  {
  }

  lemma UsedStayApartWithNone(w: World, id: string, s: Slice)
    requires SagasApart(w) && s.used == {}
    ensures SagasApart(w.(parts := w.parts[id := s]))
  {
  }

  lemma FirstSliceIsEmpty(o: Order)
    ensures FirstSlice(o).order == o && FirstSlice(o).used == {}
  {
  }

  lemma OldSliceStays(w: World, o: Order, k: string)
    requires Possible(w, OrderCreated(o)) && k in w.parts
    ensures SliceOf(Act(w, OrderCreated(o)), k) == SliceOf(w, k)
  {
    hide Starting, RequestsOf, AnswersOf, IssuedOf;
  }

  lemma NewSliceIsReachable(w: World, o: Order)
    requires Addressed(w) && Possible(w, OrderCreated(o))
    ensures Reachable(SliceOf(Act(w, OrderCreated(o)), o.id))
  {
    hide Reachable, Starting, RequestsOf, AnswersOf, IssuedOf;
    NothingWaitsFor(w, o.id);
    FirstSliceIsReachable(o);
    assert SliceOf(Act(w, OrderCreated(o)), o.id) == FirstSlice(o);
  }

  lemma NothingWaitsFor(w: World, id: string)
    requires Addressed(w) && id !in w.parts
    ensures RequestsOf(w.requests, id) == multiset{} && AnswersOf(w.answers, id) == multiset{}
      && IssuedOf(w.issued, id) == {}
  {
  }

  lemma FirstSliceIsReachable(o: Order)
    requires Starting(o)
    ensures Reachable(FirstSlice(o))
  {
    hide Starting;
    var s := FirstSlice(o);
    NoSteps(s);
    assert Init(s) && Leads(s, [], s);
  }

  /** Locality: in every world that can arise, each order's slice is one that a run of that order alone leads to,
      so that everything shown for such runs holds of every order; and no saga id is shared by two orders. */
  lemma {:induction false} WorldIsSeparated(actions: seq<Action>, w: World)
    requires Arises(actions, w)
    ensures Separated(w)
    decreases |actions|
  {
    hide Separated, Possible, Act;
    if actions == [] {
      NothingIsSeparated();
    } else {
      var init, last := actions[..|actions| - 1], actions[|actions| - 1];
      var v := LastAction(actions, w);
      WorldIsSeparated(init, v);
      ActKeepsSeparated(v, last);
    }
  }

  lemma LastAction(actions: seq<Action>, w: World) returns (v: World)
    requires Arises(actions, w) && actions != []
    ensures Arises(actions[..|actions| - 1], v) && Becomes(v, actions[|actions| - 1], w)
  {
    hide Becomes;
    var worlds :| Develops(worlds, actions) && worlds[|actions|] == w;
    v := worlds[|actions| - 1];
    assert Develops(worlds[..|actions|], actions[..|actions| - 1]);
  }

  lemma NothingIsSeparated()
    ensures Separated(EMPTY)
  {
  }

  /** Whatever is done for one order, no other order changes, nor does what waits for it. */
  lemma OrdersDoNotInterfere(actions: seq<Action>, w: World, id: string, step: Step, k: string)
    requires Arises(actions, w) && Possible(w, OrderStep(id, step)) && k in w.parts && k != id
    ensures SliceOf(Act(w, OrderStep(id, step)), k) == SliceOf(w, k)
  {
    hide Separated, Possible;
    WorldIsSeparated(actions, w);
    StepKeepsReachable(w, id, step, k);
  }

  // --- A restart of the service ---

  function RestartStep(f: Faults, now: Time): Step { Step(ServiceRestarted, f, now) }

  /** Recovery of the given orders, one after the other, up to the first error. */
  ghost function Restarted(w: World, ids: seq<string>, faults: string -> Faults, now: Time): (w': World)
    requires forall id | id in ids :: id in w.parts
    ensures w'.parts.Keys == w.parts.Keys
    decreases |ids|
  {
    if ids == [] then w
    else
      var step := RestartStep(faults(ids[0]), now);
      var next := Act(w, OrderStep(ids[0], step));
      if EffectOf(w.parts[ids[0]].order, step).error.Some? then next
      else Restarted(next, ids[1..], faults, now)
  }

  /** A request for the saga in flight waits in the shared queue. */
  ghost predicate Waiting(w: World, id: string)
    requires id in w.parts
  {
    exists r | r in w.requests :: w.parts[id].order.sagaId == Some(r.sagaId) && r.orderId == id
  }

  lemma RecoverPublishes(o: Order, f: Faults)
    requires SagaFields(o) && PairOk(o)
    ensures var e := Recover(o, f);
      && e.order == o
      && (o.InFlight() && f.publishOk ==>
            && e.error.None? && |e.published| == 1
            && e.published[0].sagaId == o.sagaId.value && e.published[0].orderId == o.id)
      && (!o.InFlight() ==> e.error.None?)
  {
    hide ProductLines;
  }

  /** No order has changed, and no request is gone. */
  ghost predicate Recovered(w: World, w': World) {
    && w.requests <= w'.requests
    && (forall k | k in w.parts :: k in w'.parts && w'.parts[k].order == w.parts[k].order)
  }

  /** What recovery of one order does to the world. */
  lemma RestartActs(w: World, id: string, f: Faults, now: Time)
    requires id in w.parts
    ensures Possible(w, OrderStep(id, RestartStep(f, now)))
    ensures var w', e := Act(w, OrderStep(id, RestartStep(f, now))), Recover(w.parts[id].order, f);
      && w'.requests == w.requests + multiset(e.published)
      && w'.parts.Keys == w.parts.Keys && w'.parts[id].order == e.order
      && (forall k | k in w.parts && k != id :: w'.parts[k] == w.parts[k])
  {
    hide Recover, Absorb, After;
    var step, e := RestartStep(f, now), Recover(w.parts[id].order, f);
    QueuesApart(InWorld(w, id), e, step.event);
    OrderAfter(InWorld(w, id), e, step.event);
  }

  /** Recovery of one order. */
  lemma OneRestart(w: World, id: string, f: Faults, now: Time)
    requires Separated(w) && id in w.parts
    ensures Possible(w, OrderStep(id, RestartStep(f, now)))
    ensures var w' := Act(w, OrderStep(id, RestartStep(f, now)));
      && Separated(w') && Recovered(w, w') && w'.parts.Keys == w.parts.Keys
      && (f.publishOk ==> EffectOf(w.parts[id].order, RestartStep(f, now)).error.None?)
      && (f.publishOk && w.parts[id].order.InFlight() ==> Waiting(w', id))
  {
    hide Separated, Possible, Act, Recover, Addressed, Coherent, PairOk;
    RestartActs(w, id, f, now);
    ActKeepsSeparated(w, OrderStep(id, RestartStep(f, now)));
    OrdersAreCoherent(w, id);
    RecoverPublishes(w.parts[id].order, f);
    var e := Recover(w.parts[id].order, f);
    if f.publishOk && w.parts[id].order.InFlight() {
      IdIsKept(w, id);
      assert e.published[0] in multiset(e.published);
    }
  }

  lemma IdIsKept(w: World, id: string)
    requires Separated(w) && id in w.parts
    ensures w.parts[id].order.id == id
  {
    hide Reachable, SagasApart;
  }

  lemma OrdersAreCoherent(w: World, id: string)
    requires Separated(w) && id in w.parts
    ensures Coherent(w.parts[id].order) && SagaFields(w.parts[id].order) && PairOk(w.parts[id].order)
  {
    hide Reachable;
    ReachableInv(SliceOf(w, id));
  }

  /** A restart changes no order, whichever of its publications fail; and when they go through, a request waits for
      every order that it recovers, under the saga id the order has. */
  lemma {:induction false} RestartAsksForAll(w: World, ids: seq<string>, faults: string -> Faults, now: Time)
    requires Separated(w) && forall id | id in ids :: id in w.parts && w.parts[id].order.InFlight()
    ensures Separated(Restarted(w, ids, faults, now)) && Recovered(w, Restarted(w, ids, faults, now))
    ensures (forall id | id in ids :: faults(id).publishOk) ==>
      forall id | id in ids :: Waiting(Restarted(w, ids, faults, now), id)
    decreases |ids|
  {
    hide Separated, EffectOf, Act, Possible, Waiting, Recovered;
    if ids == [] {
      NothingRecovered(w);
    } else {
      var id, rest := ids[0], ids[1..];
      OneRestart(w, id, faults(id), now);
      var next := Act(w, OrderStep(id, RestartStep(faults(id), now)));
      var last := Restarted(w, ids, faults, now);
      StillInFlight(w, next, ids);
      RestartAsksForAll(next, rest, faults, now);
      RecoveredTwice(w, next, last);
      if faults(id).publishOk {
        WaitingStays(next, last, id);
        assert forall k | k in ids :: k == id || k in rest;
      }
    }
  }

  lemma NothingRecovered(w: World)
    ensures Recovered(w, w)
  {
  }

  lemma StillInFlight(w: World, w': World, ids: seq<string>)
    requires ids != [] && Recovered(w, w') && forall id | id in ids :: id in w.parts && w.parts[id].order.InFlight()
    ensures forall id | id in ids[1..] :: id in w'.parts && w'.parts[id].order.InFlight()
    ensures w.parts[ids[0]].order == w'.parts[ids[0]].order
  {
    assert forall id | id in ids[1..] :: id in ids;
  }

  lemma RecoveredTwice(w: World, w': World, w'': World)
    requires Recovered(w', w'') && (Recovered(w, w') || w == w')
    ensures Recovered(w, w'')
  {
  }

  lemma WaitingStays(w: World, w': World, id: string)
    requires id in w.parts && id in w'.parts && Waiting(w, id) && Recovered(w, w')
    ensures Waiting(w', id)
  {
    var r :| r in w.requests && w.parts[id].order.sagaId == Some(r.sagaId) && r.orderId == id;
    assert r in w'.requests;
  }

  /** Recovery at a restart, in every world that can arise: it goes through all orders in flight, in any sequence, and
      when every publication goes through a request waits for each of them. */
  lemma RestartLosesNoSaga(actions: seq<Action>, w: World, ids: seq<string>, faults: string -> Faults, now: Time)
    requires Arises(actions, w)
    requires forall id :: id in ids <==> id in w.parts && w.parts[id].order.InFlight()
    ensures var w' := Restarted(w, ids, faults, now);
      && Recovered(w, w')
      && ((forall id | id in ids :: faults(id).publishOk) ==>
            forall k | k in w'.parts && w'.parts[k].order.InFlight() :: Waiting(w', k))
  {
    hide Separated, Arises;
    WorldIsSeparated(actions, w);
    RestartAsksForAll(w, ids, faults, now);
  }
}
