/** The headline results about the event bus: what a subscriber receives, stated on the
    schedule alone, and that the bus always comes to rest with everything handled. */
module EventBusProgress {
  import opened Common
  import opened EventBus
  import opened EventBusDelivery

  /** The events a schedule publishes, in order. */
  function Publishes(steps: seq<Step>): seq<Event> {
    if steps == [] then []
    else (if steps[0].Publish? then [steps[0].event] else []) + Publishes(steps[1..])
  }

  lemma InitialInv()
    ensures Inv(INITIAL)
  {
  }

  /** At any moment of any run, only the dispatcher the bus holds is uncancelled, and no sleeping
      goroutine with work to do lacks a wake token. */
  lemma AlwaysSafe(steps: seq<Step>)
    requires Schedule(INITIAL, steps)
    ensures var b := Run(INITIAL, steps);
            && (forall g, h ::
                  (0 <= g < |b.dispatchers| && 0 <= h < |b.dispatchers| &&
                   !b.dispatchers[g].cancelled && !b.dispatchers[h].cancelled) ==> g == h)
            && NoLostWakeup(b)
            && (forall id :: 0 <= id < |b.subs| ==> b.subs[id].handled <= Owed(b, b.subs[id]))
  {
    InitialInv();
    RunKeeps(INITIAL, steps);
    var b := Run(INITIAL, steps);
    forall id | 0 <= id < |b.subs| ensures b.subs[id].handled <= Owed(b, b.subs[id]) {
      assert Accounted(b, id);
    }
  }

  /** While a subscription stays on the bus, its kind and starting point are fixed and the log
      grows by exactly what is published. */
  lemma {:induction false} LogFollowsPublishes(b: Bus, steps: seq<Step>, id: nat)
    requires Schedule(b, steps) && id in b.hub.subscribers && id < |b.subs|
    requires forall i :: 0 <= i < |steps| ==> steps[i] != Remove(id)
    ensures var c := Run(b, steps);
            && id in c.hub.subscribers && c.log == b.log + Publishes(steps)
            && id < |c.subs| && c.subs[id].kind == b.subs[id].kind && c.subs[id].from == b.subs[id].from
    decreases |steps|
  {
    if steps == [] {
      assert b.log + [] == b.log;
    } else {
      var step, rest, n := steps[0], steps[1..], Next(b, steps[0]);
      StaysSubscribed(b, step, id);
      LogFollowsPublishes(n, rest, id);
      var now := if step.Publish? then [step.event] else [];
      Associates(b.log, now, Publishes(rest));
    }
  }

  lemma StaysSubscribed(b: Bus, step: Step, id: nat)
    requires Enabled(b, step) && id in b.hub.subscribers && id < |b.subs| && step != Remove(id)
    ensures id in Next(b, step).hub.subscribers && id < |Next(b, step).subs|
    ensures Next(b, step).subs[id].kind == b.subs[id].kind && Next(b, step).subs[id].from == b.subs[id].from
    ensures Next(b, step).log == b.log + (if step.Publish? then [step.event] else [])
  {
    if step.Remove? {
      var i := IndexOf(b.hub.subscribers, step.id);
      if i < |b.hub.subscribers| {
        var k :| 0 <= k < |b.hub.subscribers| && b.hub.subscribers[k] == id;
        assert Without(b.hub.subscribers, i)[if k < i then k else k - 1] == id;
      }
    }
  }

  /** No goroutine of the bus has a step left to take. */
  predicate Quiescent(b: Bus) {
    && (forall g :: 0 <= g < |b.dispatchers| ==>
          !Enabled(b, Dispatch(g)) && !Enabled(b, Wake(g)) && !Enabled(b, Quit(g)))
    && (forall id :: 0 <= id < |b.subs| ==>
          !Enabled(b, Work(id)) && !Enabled(b, WorkerWake(id)) && !Enabled(b, WorkerQuit(id)))
  }

  /** The bus cannot fall asleep on undelivered events: at rest, a subscriber's handler has run
      on everything it is owed. */
  lemma RestMeansDelivered(b: Bus, id: nat)
    requires Inv(b) && Quiescent(b) && id in b.hub.subscribers
    ensures b.subs[id].handled == Owed(b, b.subs[id])
  {
    assert Accounted(b, id);
    var g, s := b.hub.live.value, b.subs[id];
    assert b.dispatchers[g].phase.Waiting? by { assert !Enabled(b, Dispatch(g)); }
    assert !b.dispatchers[g].token by { assert !Enabled(b, Wake(g)); }
    assert b.hub.incoming == [];
    assert s.worker.Parked? by { assert !Enabled(b, Work(id)); }
    assert !s.token by { assert !Enabled(b, WorkerWake(id)); }
    assert s.queue == [];
    assert Got(s) == s.handled;
  }

  /** A subscription receives the events of its own kind and, with the empty kind, all of them, in
      order. */
  lemma MatchingExactly(kind: string, before: seq<Event>, e: Event, after: seq<Event>)
    ensures Matching(kind, before + [e] + after)
            == Matching(kind, before) + (if kind == "" || kind == e.kind then [e] else []) + Matching(kind, after)
  {
    MatchingConcat(kind, before, [e]);
    MatchingConcat(kind, before + [e], after);
    assert [e][..0] == [];
  }

  /** Loss-free first-in first-out delivery. Take any moment a subscription is made and any
      schedule after it that does not unsubscribe it. Whenever the bus comes to rest, its handler
      has run on exactly the matching events that were still undispatched when it subscribed,
      followed by those published since, in publish order, once each. */
  lemma SubscriberReceivesEverything(before: seq<Step>, kind: string, after: seq<Step>)
    requires Schedule(INITIAL, before)
    requires var b := Next(Run(INITIAL, before), Subscribe(kind));
             && Schedule(b, after) && Quiescent(Run(b, after))
             && (forall i :: 0 <= i < |after| ==> after[i] != Remove(|Run(INITIAL, before).subs|))
    ensures var a := Run(INITIAL, before);
            var c := Run(Next(a, Subscribe(kind)), after);
            |a.subs| < |c.subs| && c.subs[|a.subs|].handled == Matching(kind, a.hub.incoming + Publishes(after))
  {
    var a := Run(INITIAL, before);
    assert Inv(a) by {
      InitialInv();
      RunKeeps(INITIAL, before);
    }
    SubscribeKeeps(a, kind);
    OwedSince(a, kind, after);
    RestMeansDelivered(Run(Next(a, Subscribe(kind)), after), |a.subs|) by {
      RunKeeps(Next(a, Subscribe(kind)), after);
    }
  }

  lemma OwedSince(a: Bus, kind: string, after: seq<Step>)
    requires |a.hub.incoming| <= |a.log| && a.hub.incoming == a.log[|a.log| - |a.hub.incoming|..]
    requires Schedule(Next(a, Subscribe(kind)), after)
    requires forall i :: 0 <= i < |after| ==> after[i] != Remove(|a.subs|)
    ensures var c := Run(Next(a, Subscribe(kind)), after);
            && |a.subs| in c.hub.subscribers && |a.subs| < |c.subs|
            && Owed(c, c.subs[|a.subs|]) == Matching(kind, a.hub.incoming + Publishes(after))
  {
    var b := Next(a, Subscribe(kind));
    assert b.hub.subscribers[|a.hub.subscribers|] == |a.subs|;
    LogFollowsPublishes(b, after, |a.subs|);
    SuffixGrows(a.log, |a.log| - |a.hub.incoming|, Publishes(after));
  }

  lemma SuffixGrows(log: seq<Event>, from: nat, more: seq<Event>)
    requires from <= |log|
    ensures (log + more)[from..] == log[from..] + more
  {
  }

  // ---------------------------------------------------------------------------
  // A run that does it
  // ---------------------------------------------------------------------------

  ghost predicate Leads(a: Bus, steps: seq<Step>, b: Bus) { Schedule(a, steps) && Run(a, steps) == b }

  lemma {:induction false} LeadsOn(a: Bus, steps: seq<Step>, b: Bus, step: Step, c: Bus)
    requires Leads(a, steps, b) && Enabled(b, step) && Next(b, step) == c
    ensures Leads(a, steps + [step], c)
    decreases |steps|
  {
    if steps == [] {
      assert steps + [step] == [step] && [step][1..] == [];
    } else {
      assert (steps + [step])[0] == steps[0] && (steps + [step])[1..] == steps[1..] + [step];
      LeadsOn(Next(a, steps[0]), steps[1..], b, step, c);
    }
  }

  /** One subscriber to everything, and one event published. */
  function OneSubscriber(incoming: seq<Event>, phase: Phase, token: bool, s: Subscription, log: seq<Event>): Bus {
    Bus(Hub([0], incoming, Some(0), 1), [Dispatcher(phase, false, token)], [s], log)
  }

  function Reader(queue: seq<Event>, token: bool, worker: Worker, handled: seq<Event>): Subscription {
    Subscription(ALL, false, queue, token, worker, 0, handled)
  }

  const COMING: seq<Step> := [Subscribe(ALL), Publish(Event("x", "1"))]
  const SPREADING: seq<Step> := [Dispatch(0), Dispatch(0), Dispatch(0), Dispatch(0), Wake(0), Dispatch(0)]
  const READING: seq<Step> := [Work(0), Work(0), Work(0), WorkerWake(0), Work(0)]

  lemma EventComes(e: Event)
    requires e == Event("x", "1")
    ensures Leads(INITIAL, COMING, OneSubscriber([e], Locking, true, Reader([], false, Looking, []), [e]))
  {
    var b1 := OneSubscriber([], Locking, false, Reader([], false, Looking, []), []);
    var b2 := OneSubscriber([e], Locking, true, Reader([], false, Looking, []), [e]);
    assert Leads(INITIAL, [], INITIAL);
    assert Next(INITIAL, Subscribe(ALL)) == b1;
    LeadsOn(INITIAL, [], INITIAL, Subscribe(ALL), b1);
    assert Next(b1, Publish(e)) == b2;
    LeadsOn(INITIAL, [] + [Subscribe(ALL)], b1, Publish(e), b2);
    assert [] + [Subscribe(ALL)] + [Publish(e)] == COMING;
  }

  lemma EventSpreads(e: Event)
    ensures Leads(OneSubscriber([e], Locking, true, Reader([], false, Looking, []), [e]), SPREADING,
                  OneSubscriber([], Waiting, false, Reader([e], true, Looking, []), [e]))
  {
    var b0 := OneSubscriber([e], Locking, true, Reader([], false, Looking, []), [e]);
    var b1 := OneSubscriber([], FanOut(e, [0]), true, Reader([], false, Looking, []), [e]);
    var after := Reader([e], true, Looking, []);
    var b2 := OneSubscriber([], FanOut(e, []), true, after, [e]);
    var b3 := OneSubscriber([], Locking, true, after, [e]);
    var b4 := OneSubscriber([], Waiting, true, after, [e]);
    var b5 := OneSubscriber([], Locking, false, after, [e]);
    var b6 := OneSubscriber([], Waiting, false, after, [e]);
    assert Leads(b0, [], b0);
    LeadsOn(b0, [], b0, Dispatch(0), b1);
    assert [0][1..] == [] && [] + [e] == [e];
    assert Next(b1, Dispatch(0)).subs == [after];
    LeadsOn(b0, [] + [Dispatch(0)], b1, Dispatch(0), b2);
    LeadsOn(b0, [] + [Dispatch(0)] + [Dispatch(0)], b2, Dispatch(0), b3);
    LeadsOn(b0, [] + [Dispatch(0)] + [Dispatch(0)] + [Dispatch(0)], b3, Dispatch(0), b4);
    var four := [] + [Dispatch(0)] + [Dispatch(0)] + [Dispatch(0)] + [Dispatch(0)];
    LeadsOn(b0, four, b4, Wake(0), b5);
    LeadsOn(b0, four + [Wake(0)], b5, Dispatch(0), b6);
    assert four + [Wake(0)] + [Dispatch(0)] == SPREADING;
  }

  lemma EventIsRead(e: Event)
    ensures Leads(OneSubscriber([], Waiting, false, Reader([e], true, Looking, []), [e]), READING,
                  OneSubscriber([], Waiting, false, Reader([], false, Parked, [e]), [e]))
  {
    var b0 := OneSubscriber([], Waiting, false, Reader([e], true, Looking, []), [e]);
    var b1 := OneSubscriber([], Waiting, false, Reader([], true, Handling(e), []), [e]);
    var b2 := OneSubscriber([], Waiting, false, Reader([], true, Looking, [e]), [e]);
    var b3 := OneSubscriber([], Waiting, false, Reader([], true, Parked, [e]), [e]);
    var b4 := OneSubscriber([], Waiting, false, Reader([], false, Looking, [e]), [e]);
    var b5 := OneSubscriber([], Waiting, false, Reader([], false, Parked, [e]), [e]);
    assert Leads(b0, [], b0) && [e][1..] == [] && [] + [e] == [e];
    LeadsOn(b0, [], b0, Work(0), b1);
    LeadsOn(b0, [] + [Work(0)], b1, Work(0), b2);
    LeadsOn(b0, [] + [Work(0)] + [Work(0)], b2, Work(0), b3);
    var three := [] + [Work(0)] + [Work(0)] + [Work(0)];
    LeadsOn(b0, three, b3, WorkerWake(0), b4);
    LeadsOn(b0, three + [WorkerWake(0)], b4, Work(0), b5);
    assert three + [WorkerWake(0)] + [Work(0)] == READING;
  }

  /** From the empty bus: one subscription, one event, and the steps that bring it to the handler and the
      bus to rest. */
  lemma OneEventIsDelivered()
    ensures var e := Event("x", "1"); var b := OneSubscriber([], Waiting, false, Reader([], false, Parked, [e]), [e]);
            Leads(INITIAL, COMING + SPREADING + READING, b) && Quiescent(b)
  {
    var e := Event("x", "1");
    var b1 := OneSubscriber([e], Locking, true, Reader([], false, Looking, []), [e]);
    var b2 := OneSubscriber([], Waiting, false, Reader([e], true, Looking, []), [e]);
    EventComes(e);
    EventSpreads(e);
    EventIsRead(e);
    LeadsBoth(INITIAL, COMING, b1, SPREADING, b2);
    LeadsBoth(INITIAL, COMING + SPREADING, b2, READING,
      OneSubscriber([], Waiting, false, Reader([], false, Parked, [e]), [e]));
    RestingBus(Reader([], false, Parked, [e]), [e]);
  }

  lemma RestingBus(s: Subscription, log: seq<Event>)
    requires s.worker.Parked? && !s.token && !s.cancelled
    ensures Quiescent(OneSubscriber([], Waiting, false, s, log))
  {
  }

  lemma {:induction false} LeadsBoth(a: Bus, x: seq<Step>, b: Bus, y: seq<Step>, c: Bus)
    requires Leads(a, x, b) && Leads(b, y, c)
    ensures Leads(a, x + y, c)
    decreases |x|
  {
    if x == [] {
      assert x + y == y;
    } else {
      assert (x + y)[0] == x[0] && (x + y)[1..] == x[1..] + y;
      LeadsBoth(Next(a, x[0]), x[1..], b, y, c);
    }
  }

  // ---------------------------------------------------------------------------
  // Unsubscribing is final
  // ---------------------------------------------------------------------------

  /** The event in the handler's hands, if any. */
  function InHand(s: Subscription): seq<Event> {
    if s.worker.Handling? then [s.worker.event] else []
  }

  lemma CancelledStep(b: Bus, step: Step, id: nat)
    requires Enabled(b, step) && id < |b.subs| && b.subs[id].cancelled
    ensures var c := Next(b, step);
            && id < |c.subs| && c.subs[id].cancelled && c.subs[id].queue == b.subs[id].queue
            && c.subs[id].handled + InHand(c.subs[id]) == b.subs[id].handled + InHand(b.subs[id])
  {
  }

  /** From its cancellation on, a subscription is given nothing more and starts nothing more: at most
      the handler call that was already under way still ends. */
  lemma {:induction false} CancellationStands(b: Bus, steps: seq<Step>, id: nat)
    requires Schedule(b, steps) && id < |b.subs| && b.subs[id].cancelled
    ensures var c := Run(b, steps);
            && id < |c.subs| && c.subs[id].cancelled && c.subs[id].queue == b.subs[id].queue
            && c.subs[id].handled + InHand(c.subs[id]) == b.subs[id].handled + InHand(b.subs[id])
            && c.subs[id].handled <= b.subs[id].handled + InHand(b.subs[id])
    decreases |steps|
  {
    if steps != [] {
      CancelledStep(b, steps[0], id);
      CancellationStands(Next(b, steps[0]), steps[1..], id);
    }
  }

  /** A subscription that has left the bus does not come back. */
  lemma {:induction false} RemovedForGood(b: Bus, steps: seq<Step>, id: nat)
    requires Inv(b) && Schedule(b, steps) && id < |b.subs| && id !in b.hub.subscribers
    ensures id < |Run(b, steps).subs| && id !in Run(b, steps).hub.subscribers
    decreases |steps|
  {
    if steps != [] {
      StepKeeps(b, steps[0]);
      OthersStayOut(b, steps[0], id);
      RemovedForGood(Next(b, steps[0]), steps[1..], id);
    }
  }

  lemma OthersStayOut(b: Bus, step: Step, id: nat)
    requires Inv(b) && Enabled(b, step) && id < |b.subs| && id !in b.hub.subscribers
    ensures id < |Next(b, step).subs| && id !in Next(b, step).hub.subscribers
  {
    if step.Remove? && step.id in b.hub.subscribers {
      WithoutMembers(b.hub.subscribers, IndexOf(b.hub.subscribers, step.id));
    }
  }

  /** The locked part of an unsubscription takes out exactly the one subscription. */
  lemma RemoveTakesOut(b: Bus, id: nat)
    requires Inv(b) && id < |b.subs|
    ensures forall k :: k in Next(b, Remove(id)).hub.subscribers <==> k in b.hub.subscribers && k != id
    ensures Next(b, Remove(id)).subs == b.subs
  {
    if id in b.hub.subscribers {
      WithoutMembers(b.hub.subscribers, IndexOf(b.hub.subscribers, id));
    }
  }

  /** Unsubscribing, on the schedule alone: once an unsubscription has returned, whatever else
      happens, its handler is never started again. */
  lemma UnsubscribedStaysQuiet(before: seq<Step>, between: seq<Step>, after: seq<Step>, id: nat)
    requires Schedule(INITIAL, before) && id < |Run(INITIAL, before).subs|
    requires var removed := Next(Run(INITIAL, before), Remove(id));
             && Schedule(removed, between) && Enabled(Run(removed, between), Cancel(id))
             && Schedule(Next(Run(removed, between), Cancel(id)), after)
    ensures var b := Run(Next(Run(INITIAL, before), Remove(id)), between);
            var c := Run(Next(b, Cancel(id)), after);
            && id < |b.subs| && id < |c.subs| && id !in c.hub.subscribers
            && c.subs[id].handled <= b.subs[id].handled + InHand(b.subs[id])
  {
    InitialInv();
    RunKeeps(INITIAL, before);
    var a := Run(INITIAL, before);
    StepKeeps(a, Remove(id));
    RemoveTakesOut(a, id);
    RunKeeps(Next(a, Remove(id)), between);
    RemovedForGood(Next(a, Remove(id)), between, id);
    var b := Run(Next(a, Remove(id)), between);
    StepKeeps(b, Cancel(id));
    RemovedForGood(Next(b, Cancel(id)), after, id);
    CancellationStands(Next(b, Cancel(id)), after, id);
  }

  // ---------------------------------------------------------------------------
  // Coming to rest
  // ---------------------------------------------------------------------------

  function DispatcherWork(d: Dispatcher): nat {
    (if d.token then 2 else 0) +
    match d.phase
    case Returned => 0
    case Waiting => 1
    case Locking => 2
    case FanOut(_, rest) => 3 + 5 * |rest|
  }

  function WorkerWork(s: Subscription): nat {
    (if s.token then 2 else 0) + 2 * |s.queue| +
    match s.worker
    case Exited => 0
    case Parked => 1
    case Looking => 2
    case Handling(_) => 3
  }

  /** An upper bound on the steps the bus can take by itself. */
  function Backlog(b: Bus): nat {
    Sum(DispatcherWork, b.dispatchers) + Sum(WorkerWork, b.subs) + |b.hub.incoming| * (2 + 5 * |b.hub.subscribers|)
  }

  lemma WakeWorks(b: Bus, step: Step)
    requires Enabled(b, step) && (step.Wake? || step.Quit?)
    ensures Backlog(Next(b, step)) < Backlog(b)
  {
    SumUpdate(DispatcherWork, b.dispatchers, step.gen, Next(b, step).dispatchers[step.gen]);
  }

  lemma WorkerWorks(b: Bus, step: Step)
    requires Enabled(b, step) && (step.Work? || step.WorkerWake? || step.WorkerQuit?)
    ensures Backlog(Next(b, step)) < Backlog(b)
  {
    SumUpdate(WorkerWork, b.subs, step.id, Next(b, step).subs[step.id]);
  }

  lemma StepWorks(b: Bus, step: Step)
    requires Inv(b) && Enabled(b, step) && Internal(step)
    ensures Backlog(Next(b, step)) < Backlog(b)
  {
    if step.Dispatch? {
      DispatchWorks(b, step.gen);
    } else if step.Wake? || step.Quit? {
      WakeWorks(b, step);
    } else {
      WorkerWorks(b, step);
    }
  }

  lemma DispatchWorks(b: Bus, g: nat)
    requires Inv(b) && Enabled(b, Dispatch(g))
    ensures Backlog(DispatchStep(b, g)) < Backlog(b)
  {
    if Visits(b, g) {
      VisitWorks(b, g);
    } else if Pops(b, g) {
      PopWorks(b, g);
    } else {
      PhaseWorks(b, g);
    }
  }

  lemma PhaseWorks(b: Bus, g: nat)
    requires Enabled(b, Dispatch(g)) && !Visits(b, g) && !Pops(b, g)
    ensures Backlog(DispatchStep(b, g)) < Backlog(b)
  {
    SumUpdate(DispatcherWork, b.dispatchers, g, DispatchStep(b, g).dispatchers[g]);
  }

  lemma PopWorks(b: Bus, g: nat)
    requires Pops(b, g)
    ensures Backlog(DispatchStep(b, g)) < Backlog(b)
  {
    var n, w := |b.hub.incoming|, 2 + 5 * |b.hub.subscribers|;
    SumUpdate(DispatcherWork, b.dispatchers, g, DispatchStep(b, g).dispatchers[g]);
    assert (n - 1) * w == n * w - w;
  }

  lemma VisitedWorks(b: Bus, g: nat)
    requires Inv(b) && Visits(b, g)
    ensures Sum(WorkerWork, DispatchStep(b, g).subs) <= Sum(WorkerWork, b.subs) + 4
  {
    var target := b.dispatchers[g].phase.rest[0];
    VisitShrinks(b, g);
    SumUpdate(WorkerWork, b.subs, target, DispatchStep(b, g).subs[target]);
    assert b.subs[target := b.subs[target]] == b.subs;
  }

  lemma VisitWorks(b: Bus, g: nat)
    requires Inv(b) && Visits(b, g)
    ensures Backlog(DispatchStep(b, g)) < Backlog(b)
  {
    VisitedWorks(b, g);
    OneVisitLess(b, g);
  }

  lemma OneVisitLess(b: Bus, g: nat)
    requires Enabled(b, Dispatch(g)) && Visits(b, g)
    ensures var c := DispatchStep(b, g);
            && Sum(DispatcherWork, c.dispatchers) + 5 == Sum(DispatcherWork, b.dispatchers)
            && c.hub == b.hub
  {
    var c, d := DispatchStep(b, g), b.dispatchers[g];
    assert c.dispatchers[g] == d.(phase := FanOut(d.phase.event, d.phase.rest[1..]));
    SumUpdate(DispatcherWork, b.dispatchers, g, c.dispatchers[g]);
  }

  /** However the dispatchers and workers are scheduled, they stop within `Backlog(b)` steps unless
      somebody publishes, subscribes or unsubscribes. */
  lemma {:induction false} AlwaysComesToRest(b: Bus, steps: seq<Step>)
    requires Inv(b) && Schedule(b, steps)
    requires forall i :: 0 <= i < |steps| ==> Internal(steps[i])
    ensures |steps| + Backlog(Run(b, steps)) <= Backlog(b)
    decreases |steps|
  {
    if steps != [] {
      StepKeeps(b, steps[0]);
      StepWorks(b, steps[0]);
      AlwaysComesToRest(Next(b, steps[0]), steps[1..]);
    }
  }
}
