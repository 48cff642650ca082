/** What the event bus promises over every interleaving: loss-free first-in first-out delivery,
    one dispatcher, no lost wakeup, and quiescence only once everything has been handled. */
module EventBusDelivery {
  import opened Common
  import opened EventBus

  lemma {:induction false} MatchingConcat(kind: string, a: seq<Event>, b: seq<Event>)
    ensures Matching(kind, a + b) == Matching(kind, a) + Matching(kind, b)
  {
    if b == [] {
      assert a + b == a;
    } else {
      assert (a + b)[..|a + b| - 1] == a + b[..|b| - 1];
      MatchingConcat(kind, a, b[..|b| - 1]);
    }
  }

  lemma MatchingOne(kind: string, e: Event)
    ensures Matching(kind, [e]) == if Matches(kind, e) then [e] else []
  {
    assert [e][..0] == [];
  }

  /** Only phases and cancellations matter to the dispatcher invariant. */
  lemma SamePhases(b: Bus, c: Bus)
    requires DispatchersOk(b)
    requires |c.dispatchers| == |b.dispatchers| && c.hub.live == b.hub.live
    requires |b.subs| <= |c.subs|
    requires forall id :: id in c.hub.subscribers ==> id in b.hub.subscribers || id >= |b.subs|
    requires forall g :: 0 <= g < |b.dispatchers| ==>
               c.dispatchers[g].phase == b.dispatchers[g].phase
                 && c.dispatchers[g].cancelled == b.dispatchers[g].cancelled
    ensures DispatchersOk(c)
  {
    forall g, id: nat | 0 <= g < |c.dispatchers| && id in Rest(c.dispatchers[g])
      ensures id < |c.subs| && (id in c.hub.subscribers ==> c.hub.live == Some(g))
    {
      assert id in Rest(b.dispatchers[g]);
    }
  }

  /** A step that leaves a subscription's own events, the log, and its place in every fan-out
      alone leaves its account in order. */
  lemma SameAccount(b: Bus, c: Bus, id: nat)
    requires id < |b.subs| && id < |c.subs| && Accounted(b, id)
    requires c.subs[id].kind == b.subs[id].kind && c.subs[id].from == b.subs[id].from
    requires Got(c.subs[id]) == Got(b.subs[id]) && c.log == b.log
    requires forall g :: 0 <= g < |c.dispatchers| && id in Rest(c.dispatchers[g]) ==>
               g < |b.dispatchers| && id in Rest(b.dispatchers[g])
                 && c.dispatchers[g].phase.event == b.dispatchers[g].phase.event
    requires id in c.hub.subscribers ==>
               && id in b.hub.subscribers && c.hub.live == b.hub.live && c.hub.incoming == b.hub.incoming
               && (c.hub.live.Some? ==>
                     && |c.dispatchers| == |b.dispatchers| && c.hub.live.value < |c.dispatchers|
                     && InFanOut(c.dispatchers[c.hub.live.value], id, c.subs[id].kind)
                        == InFanOut(b.dispatchers[b.hub.live.value], id, b.subs[id].kind))
    ensures Accounted(c, id)
  {
  }

  // --- publish ---------------------------------------------------------------

  lemma PrefixExtends<T>(x: seq<T>, o: seq<T>, m: seq<T>)
    requires x <= o
    ensures x <= o + m
  {
  }

  lemma PublishOwed(b: Bus, e: Event, s: Subscription)
    requires b.hub.subscribers != [] && s.from <= |b.log|
    ensures Owed(PublishStep(b, e), s) == Owed(b, s) + Matching(s.kind, [e])
    ensures Matching(s.kind, b.hub.incoming + [e]) == Matching(s.kind, b.hub.incoming) + Matching(s.kind, [e])
  {
    assert PublishStep(b, e).log[s.from..] == b.log[s.from..] + [e];
    MatchingConcat(s.kind, b.log[s.from..], [e]);
    MatchingConcat(s.kind, b.hub.incoming, [e]);
  }

  lemma PublishAccount(b: Bus, e: Event, id: nat)
    requires Inv(b) && b.hub.subscribers != [] && id < |b.subs|
    ensures Accounted(PublishStep(b, e), id)
  {
    var c, s := PublishStep(b, e), b.subs[id];
    assert Accounted(b, id);
    var more := Matching(s.kind, [e]);
    PublishOwed(b, e, s);
    PrefixExtends(Got(s), Owed(b, s), more);
    assert forall g :: 0 <= g < |c.dispatchers| ==> c.dispatchers[g].phase == b.dispatchers[g].phase;
    forall g | 0 <= g < |c.dispatchers| && id in Rest(c.dispatchers[g])
      ensures Got(s) + InFanOut(c.dispatchers[g], id, s.kind) <= Owed(c, s)
    {
      PrefixExtends(Got(s) + InFanOut(b.dispatchers[g], id, s.kind), Owed(b, s), more);
    }
    Associates(Got(s) + InFanOut(b.dispatchers[b.hub.live.value], id, s.kind), Matching(s.kind, b.hub.incoming), more);
  }

  lemma PublishKeeps(b: Bus, e: Event)
    requires Inv(b)
    ensures Inv(PublishStep(b, e))
  {
    var c := PublishStep(b, e);
    if b.hub.subscribers != [] {
      SamePhases(b, c);
      forall id | 0 <= id < |c.subs| ensures Accounted(c, id) {
        PublishAccount(b, e, id);
      }
    }
  }

  // --- subscribe -------------------------------------------------------------

  lemma SubscribeAccount(b: Bus, kind: string, id: nat)
    requires Inv(b) && id <= |b.subs|
    ensures Accounted(SubscribeStep(b, kind), id)
  {
    var c := SubscribeStep(b, kind);
    assert forall g :: 0 <= g < |c.dispatchers| && id in Rest(c.dispatchers[g]) ==>
             g < |b.dispatchers| && c.dispatchers[g] == b.dispatchers[g];
    if id < |b.subs| {
      SameAccount(b, c, id);
    } else {
      assert Got(c.subs[id]) == [];
      assert Owed(c, c.subs[id]) == Matching(kind, c.hub.incoming);
    }
  }

  /** A first subscriber starts a dispatcher that serves nobody yet. */
  lemma StartedDispatchers(b: Bus, kind: string)
    requires HubOk(b) && DispatchersOk(b) && b.hub.live.None?
    ensures DispatchersOk(SubscribeStep(b, kind))
  {
    var c := SubscribeStep(b, kind);
    assert c.hub.subscribers == [|b.subs|] && c.hub.live == Some(|b.dispatchers|);
    assert Rest(c.dispatchers[|b.dispatchers|]) == [];
    assert forall g :: 0 <= g < |b.dispatchers| ==> c.dispatchers[g] == b.dispatchers[g];
    forall g, id: nat | 0 <= g < |c.dispatchers| && id in Rest(c.dispatchers[g])
      ensures g < |b.dispatchers| && id < |b.subs|
    {
      assert g < |b.dispatchers| ==> id in Rest(b.dispatchers[g]);
    }
  }

  lemma SubscribeDispatchers(b: Bus, kind: string)
    requires Inv(b)
    ensures DispatchersOk(SubscribeStep(b, kind))
  {
    if b.hub.live.Some? {
      SamePhases(b, SubscribeStep(b, kind));
    } else {
      StartedDispatchers(b, kind);
    }
  }

  lemma SubscribeHub(b: Bus, kind: string)
    requires Inv(b)
    ensures HubOk(SubscribeStep(b, kind)) && NoLostWakeup(SubscribeStep(b, kind))
  {
    assert |b.subs| !in b.hub.subscribers;
    assert SubscribeStep(b, kind).hub.subscribers == b.hub.subscribers + [|b.subs|];
  }

  lemma SubscribeKeeps(b: Bus, kind: string)
    requires Inv(b)
    ensures Inv(SubscribeStep(b, kind))
  {
    SubscribeDispatchers(b, kind);
    SubscribeHub(b, kind);
    forall id | 0 <= id < |SubscribeStep(b, kind).subs| ensures Accounted(SubscribeStep(b, kind), id) {
      SubscribeAccount(b, kind, id);
    }
  }

  // --- unsubscribe -----------------------------------------------------------

  lemma RemoveHub(b: Bus, id: nat)
    requires Inv(b) && id in b.hub.subscribers
    ensures HubOk(RemoveStep(b, id)) && NoLostWakeup(RemoveStep(b, id))
    ensures forall k :: k in RemoveStep(b, id).hub.subscribers ==> k in b.hub.subscribers
  {
    WithoutMembers(b.hub.subscribers, IndexOf(b.hub.subscribers, id));
  }

  lemma RemovePhases(b: Bus, id: nat)
    requires Inv(b)
    ensures var c := RemoveStep(b, id);
            && |c.dispatchers| == |b.dispatchers| && c.subs == b.subs && c.log == b.log
            && (forall g :: 0 <= g < |c.dispatchers| ==> c.dispatchers[g].phase == b.dispatchers[g].phase)
            && ((c.hub.live == b.hub.live && c.hub.incoming == b.hub.incoming && c.dispatchers == b.dispatchers) ||
                (c.hub.live == None && c.hub.subscribers == [] && c.hub.incoming == [] &&
                 forall g :: 0 <= g < |c.dispatchers| ==> c.dispatchers[g].cancelled))
  {
  }

  lemma RemoveKeeps(b: Bus, id: nat)
    requires Inv(b) && id < |b.subs|
    ensures Inv(RemoveStep(b, id))
  {
    if id in b.hub.subscribers {
      var c := RemoveStep(b, id);
      RemoveHub(b, id);
      RemovePhases(b, id);
      FewerSubscribers(b, c);
      forall k | 0 <= k < |c.subs| ensures Accounted(c, k) {
        assert Accounted(b, k);
        assert forall g :: 0 <= g < |c.dispatchers| ==> Rest(c.dispatchers[g]) == Rest(b.dispatchers[g]);
        SameAccount(b, c, k);
      }
    }
  }

  lemma FewerSubscribers(b: Bus, c: Bus)
    requires DispatchersOk(b) && |c.dispatchers| == |b.dispatchers| && c.subs == b.subs
    requires forall g :: 0 <= g < |c.dispatchers| ==> c.dispatchers[g].phase == b.dispatchers[g].phase
    requires forall k :: k in c.hub.subscribers ==> k in b.hub.subscribers
    requires (c.hub.live == b.hub.live && c.dispatchers == b.dispatchers) ||
             (&& c.hub.live == None && c.hub.subscribers == []
              && forall g :: 0 <= g < |c.dispatchers| ==> c.dispatchers[g].cancelled)
    ensures DispatchersOk(c)
  {
    assert forall g :: 0 <= g < |c.dispatchers| ==> Rest(c.dispatchers[g]) == Rest(b.dispatchers[g]);
    forall g, id: nat | 0 <= g < |c.dispatchers| && id in Rest(c.dispatchers[g])
      ensures id < |c.subs| && (id in c.hub.subscribers ==> c.hub.live == Some(g))
    {
      assert id in Rest(b.dispatchers[g]);
    }
  }

  lemma CancelKeeps(b: Bus, id: nat)
    requires Inv(b) && Enabled(b, Cancel(id))
    ensures Inv(Next(b, Cancel(id)))
  {
    var c := Next(b, Cancel(id));
    SamePhases(b, c);
    forall k | 0 <= k < |c.subs| ensures Accounted(c, k) {
      SameAccount(b, c, k);
    }
  }

  // --- dispatcher steps ------------------------------------------------------

  predicate Pops(b: Bus, g: nat) {
    g < |b.dispatchers| && b.dispatchers[g].phase.Locking? && !b.dispatchers[g].cancelled && b.hub.incoming != []
  }

  lemma MatchingHead(kind: string, es: seq<Event>)
    requires es != []
    ensures Matching(kind, es) == (if Matches(kind, es[0]) then [es[0]] else []) + Matching(kind, es[1..])
  {
    assert es == [es[0]] + es[1..];
    MatchingConcat(kind, [es[0]], es[1..]);
    MatchingOne(kind, es[0]);
  }

  lemma Regroup(got: seq<Event>, fan: seq<Event>, tail: seq<Event>, owed: seq<Event>)
    requires got + [] + (fan + tail) == owed
    ensures got + fan + tail == owed && got + fan <= owed
  {
  }

  /** Popping, seen from a subscriber: the head of `incoming` is now in the fan-out. */
  lemma PopSubscribed(b: Bus, g: nat, id: nat)
    requires Inv(b) && Pops(b, g) && id < |b.subs| && id in b.hub.subscribers
    ensures Accounted(DispatchStep(b, g), id)
  {
    var c, s := DispatchStep(b, g), b.subs[id];
    assert Accounted(b, id) && b.hub.live == Some(g);
    assert Rest(b.dispatchers[g]) == [] && Rest(c.dispatchers[g]) == b.hub.subscribers;
    MatchingHead(s.kind, b.hub.incoming);
    Regroup(Got(s), InFanOut(c.dispatchers[g], id, s.kind), Matching(s.kind, b.hub.incoming[1..]), Owed(b, s));
    assert forall h :: 0 <= h < |c.dispatchers| && h != g ==> c.dispatchers[h] == b.dispatchers[h];
  }

  lemma PopAccount(b: Bus, g: nat, id: nat)
    requires Inv(b) && Pops(b, g) && id < |b.subs|
    ensures Accounted(DispatchStep(b, g), id)
  {
    if id in b.hub.subscribers {
      PopSubscribed(b, g, id);
    } else {
      assert Accounted(b, id) && Rest(DispatchStep(b, g).dispatchers[g]) == b.hub.subscribers;
      SameAccount(b, DispatchStep(b, g), id);
    }
  }

  /** Popping: the live dispatcher moves the head of `incoming` into a fan-out over the
      present subscribers. */
  lemma PopKeeps(b: Bus, g: nat)
    requires Inv(b) && Pops(b, g)
    ensures Inv(DispatchStep(b, g))
  {
    var c := DispatchStep(b, g);
    forall id | 0 <= id < |c.subs| ensures Accounted(c, id) {
      PopAccount(b, g, id);
    }
    PopDispatchers(b, g);
  }

  lemma PopDispatchers(b: Bus, g: nat)
    requires HubOk(b) && DispatchersOk(b) && Pops(b, g)
    ensures DispatchersOk(DispatchStep(b, g))
  {
    var c := DispatchStep(b, g);
    assert b.hub.live == Some(g);
    assert Rest(c.dispatchers[g]) == b.hub.subscribers;
    forall h, id: nat | 0 <= h < |c.dispatchers| && h != g && id in Rest(c.dispatchers[h])
      ensures id !in b.hub.subscribers
    {
      assert id in Rest(b.dispatchers[h]);
    }
  }

  predicate Visits(b: Bus, g: nat) {
    g < |b.dispatchers| && b.dispatchers[g].phase.FanOut? && b.dispatchers[g].phase.rest != []
  }

  lemma VisitShrinks(b: Bus, g: nat)
    requires Inv(b) && Visits(b, g)
    ensures var rest := b.dispatchers[g].phase.rest;
            && rest[0] < |b.subs| && rest[0] !in rest[1..] && Distinct(rest[1..])
            && (forall id: nat :: id in rest[1..] ==> id in rest)
            && (forall h :: 0 <= h < |b.dispatchers| && h != g ==> rest[0] !in Rest(b.dispatchers[h]))
  {
    var rest := b.dispatchers[g].phase.rest;
    assert rest[0] in Rest(b.dispatchers[g]);
  }

  lemma FanDone(got: seq<Event>, fan: seq<Event>, tail: seq<Event>)
    ensures got + fan + [] + tail == got + fan + tail
  {
    assert got + fan + [] == got + fan;
  }

  /** The subscription being visited. */
  lemma VisitedAccount(b: Bus, g: nat)
    requires Inv(b) && Visits(b, g)
    ensures var id := b.dispatchers[g].phase.rest[0]; id < |b.subs| && Accounted(DispatchStep(b, g), id)
  {
    var c, d := DispatchStep(b, g), b.dispatchers[g];
    var id := d.phase.rest[0];
    VisitShrinks(b, g);
    NobodyElseServes(b, g);
    assert Accounted(b, id) && id in Rest(d);
    var s := b.subs[id];
    assert Got(c.subs[id]) == if s.cancelled then Got(s) else Got(s) + InFanOut(d, id, s.kind);
    FanDone(Got(s), InFanOut(d, id, s.kind), Matching(s.kind, b.hub.incoming));
  }

  lemma NobodyElseServes(b: Bus, g: nat)
    requires Inv(b) && Visits(b, g)
    ensures var c, id := DispatchStep(b, g), b.dispatchers[g].phase.rest[0];
            && |c.dispatchers| == |b.dispatchers| && c.hub == b.hub && c.log == b.log
            && forall h :: 0 <= h < |c.dispatchers| ==> id !in Rest(c.dispatchers[h])
  {
    var c := DispatchStep(b, g);
    VisitShrinks(b, g);
    assert Rest(c.dispatchers[g]) == b.dispatchers[g].phase.rest[1..];
    assert forall h :: 0 <= h < |c.dispatchers| && h != g ==> c.dispatchers[h] == b.dispatchers[h];
  }

  lemma FanOutAccount(b: Bus, g: nat, id: nat)
    requires Inv(b) && Visits(b, g) && id < |b.subs|
    ensures Accounted(DispatchStep(b, g), id)
  {
    if id == b.dispatchers[g].phase.rest[0] {
      VisitedAccount(b, g);
    } else {
      var c := DispatchStep(b, g);
      assert Accounted(b, id);
      assert Rest(c.dispatchers[g]) == b.dispatchers[g].phase.rest[1..];
      assert id in Rest(b.dispatchers[g]) <==> id in Rest(c.dispatchers[g]);
      SameAccount(b, c, id);
    }
  }

  /** One round of a fan-out: the subscription at the head of the snapshot takes the event. */
  lemma FanOutKeeps(b: Bus, g: nat)
    requires Inv(b) && Visits(b, g)
    ensures Inv(DispatchStep(b, g))
  {
    var c := DispatchStep(b, g);
    VisitShrinks(b, g);
    assert Rest(c.dispatchers[g]) == b.dispatchers[g].phase.rest[1..];
    forall id | 0 <= id < |c.subs| ensures Accounted(c, id) {
      FanOutAccount(b, g, id);
    }
    FanOutDispatchers(b, g);
  }

  /** A fan-out that loses members, and nothing else. */
  lemma FewerServed(b: Bus, c: Bus)
    requires DispatchersOk(b) && c.hub == b.hub && |c.dispatchers| == |b.dispatchers| && |c.subs| == |b.subs|
    requires forall h :: 0 <= h < |c.dispatchers| ==> Distinct(Rest(c.dispatchers[h]))
    requires forall h, id: nat :: 0 <= h < |c.dispatchers| && id in Rest(c.dispatchers[h]) ==>
             id in Rest(b.dispatchers[h])
    requires forall h :: 0 <= h < |c.dispatchers| ==>
               c.dispatchers[h].cancelled == b.dispatchers[h].cancelled
                 && (c.dispatchers[h].phase.Returned? ==> b.dispatchers[h].phase.Returned?)
    ensures DispatchersOk(c)
  {
  }

  lemma FanOutDispatchers(b: Bus, g: nat)
    requires Inv(b) && Visits(b, g)
    ensures DispatchersOk(DispatchStep(b, g))
  {
    var c := DispatchStep(b, g);
    VisitShrinks(b, g);
    assert Rest(c.dispatchers[g]) == b.dispatchers[g].phase.rest[1..];
    FewerServed(b, c);
  }

  lemma DispatchKeeps(b: Bus, g: nat)
    requires Inv(b) && Enabled(b, Dispatch(g))
    ensures Inv(DispatchStep(b, g))
  {
    var d := b.dispatchers[g];
    if d.phase.FanOut? && d.phase.rest != [] {
      FanOutKeeps(b, g);
    } else if d.phase.Locking? && !d.cancelled && b.hub.incoming != [] {
      PopKeeps(b, g);
    } else {
      QuietPhaseKeeps(b, g, DispatchStep(b, g).dispatchers[g]);
    }
  }

  /** Dispatchers that serve whom they served. */
  lemma SameRests(b: Bus, c: Bus)
    requires DispatchersOk(b) && c.hub == b.hub && |c.dispatchers| == |b.dispatchers| && c.subs == b.subs
    requires forall h :: 0 <= h < |c.dispatchers| ==>
               && Rest(c.dispatchers[h]) == Rest(b.dispatchers[h])
                 && c.dispatchers[h].cancelled == b.dispatchers[h].cancelled
               && (c.dispatchers[h].phase.Returned? ==> c.dispatchers[h].cancelled)
    ensures DispatchersOk(c)
  {
    assert forall h, id: nat :: 0 <= h < |c.dispatchers| && id in Rest(c.dispatchers[h]) ==>
      id in Rest(b.dispatchers[h]);
  }

  /** A dispatcher that only changes phase, between phases that serve nobody. */
  lemma QuietPhaseKeeps(b: Bus, g: nat, d: Dispatcher)
    requires Inv(b) && g < |b.dispatchers|
    requires Rest(b.dispatchers[g]) == Rest(d) == []
    requires d.cancelled == b.dispatchers[g].cancelled
    requires d.phase.Returned? ==> d.cancelled
    requires d.phase.Waiting? && !d.cancelled && b.hub.incoming != [] ==> d.token
    ensures Inv(b.(dispatchers := b.dispatchers[g := d]))
  {
    var c := b.(dispatchers := b.dispatchers[g := d]);
    SameRests(b, c);
    forall id | 0 <= id < |c.subs| ensures Accounted(c, id) {
      QuietAccount(b, g, d, id);
    }
  }

  lemma QuietAccount(b: Bus, g: nat, d: Dispatcher, id: nat)
    requires Inv(b) && g < |b.dispatchers| && id < |b.subs| && Rest(b.dispatchers[g]) == Rest(d) == []
    ensures Accounted(b.(dispatchers := b.dispatchers[g := d]), id)
  {
    var c := b.(dispatchers := b.dispatchers[g := d]);
    assert forall h :: 0 <= h < |c.dispatchers| ==> Rest(c.dispatchers[h]) == Rest(b.dispatchers[h]);
    SameAccount(b, c, id);
  }

  // --- worker steps ----------------------------------------------------------

  /** A worker step moves events along its own subscription without changing what was given. */
  lemma WorkerKeeps(b: Bus, id: nat, t: Subscription)
    requires Inv(b) && id < |b.subs|
    requires t.kind == b.subs[id].kind && t.from == b.subs[id].from && t.cancelled == b.subs[id].cancelled
    requires Got(t) == Got(b.subs[id])
    requires t.worker.Parked? && t.queue != [] ==> t.token
    requires t.worker.Exited? ==> t.cancelled
    ensures Inv(b.(subs := b.subs[id := t]))
  {
    var c := b.(subs := b.subs[id := t]);
    SamePhases(b, c);
    forall k | 0 <= k < |c.subs| ensures Accounted(c, k) {
      SameAccount(b, c, k);
    }
  }

  lemma WorkerStepKeeps(b: Bus, step: Step)
    requires Inv(b) && Enabled(b, step) && (step.Work? || step.WorkerWake? || step.WorkerQuit?)
    ensures Inv(Next(b, step))
  {
    WorkerKeeps(b, step.id, Next(b, step).subs[step.id]);
  }

  lemma DispatcherStepKeeps(b: Bus, step: Step)
    requires Inv(b) && Enabled(b, step) && (step.Dispatch? || step.Wake? || step.Quit?)
    ensures Inv(Next(b, step))
  {
    match step
    case Dispatch(g) => DispatchKeeps(b, g);
    case Wake(g) => QuietPhaseKeeps(b, g, b.dispatchers[g].(phase := Locking, token := false));
    case Quit(g) => QuietPhaseKeeps(b, g, b.dispatchers[g].(phase := Returned));
    case _ =>
  }

  /** Every step of every interleaving keeps the invariant. */
  lemma StepKeeps(b: Bus, step: Step)
    requires Inv(b) && Enabled(b, step)
    ensures Inv(Next(b, step))
  {
    if step.Publish? {
      PublishKeeps(b, step.event);
    } else if step.Subscribe? {
      SubscribeKeeps(b, step.kind);
    } else if step.Remove? {
      RemoveKeeps(b, step.id);
    } else if step.Cancel? {
      CancelKeeps(b, step.id);
    } else if step.Dispatch? || step.Wake? || step.Quit? {
      DispatcherStepKeeps(b, step);
    } else {
      WorkerStepKeeps(b, step);
    }
  }

  lemma {:induction false} RunKeeps(b: Bus, steps: seq<Step>)
    requires Inv(b) && Schedule(b, steps)
    ensures Inv(Run(b, steps))
    decreases |steps|
  {
    if steps != [] {
      StepKeeps(b, steps[0]);
      RunKeeps(Next(b, steps[0]), steps[1..]);
    }
  }
}
