/** A Send that nothing interferes with, step by step, does what a Send of the broker as an object
    does in one call; and the journal over whole runs. */
module BrokerSends {
  import opened Common
  import opened Broker
  import opened BrokerMail
  import opened BrokerRuns
  import O = BrokerObjects

  // ---------------------------------------------------------------------------
  // The loop over the destinations
  // ---------------------------------------------------------------------------

  /** A mailbox that was offered a piece of mail. */
  function Given(b: Box, m: Mail): Box { Ticked(Filled(b, m), |b.queue| < CAPACITY) }

  function Filled(b: Box, m: Mail): Box { if |b.queue| < CAPACITY then b.(queue := b.queue + [m]) else b }

  function Ticked(b: Box, took: bool): Box {
    if took then b.(delivered := b.delivered + 1) else b.(dropped := b.dropped + 1)
  }

  ghost predicate HasRoom(s: State, b: nat)
    requires b < |s.boxes|
  {
    |s.boxes[b].queue| < CAPACITY
  }

  function OneStop(i: nat): seq<Step> { [Check(i), Push(i)] + [Count(i)] }

  function Stops(i: nat, n: nat): seq<Step> { if n == 0 then [] else OneStop(i) + Stops(i, n - 1) }

  /** The Send at the head of its loop, before an open mailbox. */
  ghost predicate AtDoor(s: State, i: nat) {
    && At(s, i, Choosing) && s.senders[i].todo != [] && s.senders[i].todo[0] < |s.boxes|
    && !s.boxes[s.senders[i].todo[0]].closed && !s.boxes[s.senders[i].todo[0]].shut
  }

  /** The Send past that mailbox. */
  function Stopped(s: State, i: nat): State
    requires AtDoor(s, i)
  {
    var x := s.senders[i];
    var b := x.todo[0];
    WithSender(WithBox(s, b, Given(s.boxes[b], Mail(i, x.message))), i, Tried(x, |s.boxes[b].queue| < CAPACITY))
  }

  lemma TwoSteps(s: State, a: Step, b: Step, t: State)
    requires Enabled(s, a) && Enabled(Next(s, a), b) && t == Next(Next(s, a), b)
    ensures Schedule(s, [a, b]) && Run(s, [a, b]) == t
  {
    RunCons(Next(s, a), b, []);
    RunCons(s, a, [b] + []);
    assert [a] + ([b] + []) == [a, b];
  }

  lemma PushedThrough(s: State, s1: State, t: State, i: nat)
    requires AtDoor(s, i) && s1 == WithSender(s, i, s.senders[i].(phase := Pushing))
    requires var x := s.senders[i]; var b := x.todo[0];
             t == WithSender(WithBox(s, b, Filled(s.boxes[b], Mail(i, x.message))), i,
                             x.(phase := Counting(HasRoom(s, b))))
    ensures Enabled(s1, Push(i)) && Next(s1, Push(i)) == t
  {
    assert PushStep(s1, i).boxes == t.boxes && PushStep(s1, i).senders == t.senders;
  }

  /** Past the flag and through the channel. */
  lemma Offering(s: State, i: nat)
    requires AtDoor(s, i)
    ensures var x := s.senders[i]; var b := x.todo[0];
            && Schedule(s, [Check(i), Push(i)])
            && Run(s, [Check(i), Push(i)]) ==
               WithSender(WithBox(s, b, Filled(s.boxes[b], Mail(i, x.message))), i,
                          x.(phase := Counting(HasRoom(s, b))))
  {
    var x := s.senders[i];
    var b := x.todo[0];
    var s1 := WithSender(s, i, x.(phase := Pushing));
    var t := WithSender(WithBox(s, b, Filled(s.boxes[b], Mail(i, x.message))), i,
                        x.(phase := Counting(HasRoom(s, b))));
    assert Next(s, Check(i)) == s1;
    PushedThrough(s, s1, t, i);
    TwoSteps(s, Check(i), Push(i), t);
  }

  lemma Alone(s: State, step: Step)
    requires Enabled(s, step)
    ensures Schedule(s, [step]) && Run(s, [step]) == Next(s, step)
  {
    RunCons(s, step, []);
    assert [step] + [] == [step];
  }

  lemma OneStopMade(s: State, i: nat)
    requires AtDoor(s, i)
    ensures Schedule(s, OneStop(i)) && Run(s, OneStop(i)) == Stopped(s, i)
  {
    var x := s.senders[i];
    var b := x.todo[0];
    Offering(s, i);
    var s2 := Run(s, [Check(i), Push(i)]);
    Alone(s2, Count(i));
    RunConcat(s, [Check(i), Push(i)], [Count(i)]);
    var t := Stopped(s, i);
    assert CountStep(s2, i).boxes == t.boxes && CountStep(s2, i).senders == t.senders;
  }

  /** The Send's destinations are open mailboxes, each once. */
  ghost predicate OpenDoors(s: State, i: nat) {
    && At(s, i, Choosing) && Distinct(s.senders[i].todo)
    && forall b :: b in s.senders[i].todo ==> b < |s.boxes| && !s.boxes[b].closed && !s.boxes[b].shut
  }

  ghost predicate AllRoom(s: State, bs: seq<nat>) {
    forall b :: b in bs ==> b < |s.boxes| && HasRoom(s, b)
  }

  /** `t` is `s` after Send `i` went round its destinations. */
  ghost predicate Toured(s: State, t: State, i: nat)
    requires i < |s.senders|
  {
    var x := s.senders[i];
    && |t.boxes| == |s.boxes| && |t.senders| == |s.senders|
    && t == s.(boxes := t.boxes, senders := s.senders[i := t.senders[i]])
    && (forall b: nat :: b < |s.boxes| ==>
          t.boxes[b] == if b in x.todo then Given(s.boxes[b], Mail(i, x.message)) else s.boxes[b])
    && t.senders[i] == x.(todo := [], done := x.done + x.todo, accepted := x.accepted && AllRoom(s, x.todo))
  }

  lemma TouredOneMore(s: State, u: State, t: State, i: nat)
    requires AtDoor(s, i) && OpenDoors(s, i) && u == Stopped(s, i) && Toured(u, t, i)
    ensures Toured(s, t, i)
  {
    var x := s.senders[i];
    var b, rest := x.todo[0], x.todo[1..];
    assert x.todo == [b] + rest && b !in rest;
    assert x.done + [b] + rest == x.done + x.todo;
    assert t.senders == s.senders[i := t.senders[i]];
    assert forall c :: c in x.todo <==> c == b || c in rest;
    assert AllRoom(s, x.todo) <==> HasRoom(s, b) && AllRoom(u, rest);
  }

  lemma DoorsStayOpen(s: State, i: nat)
    requires AtDoor(s, i) && OpenDoors(s, i)
    ensures OpenDoors(Stopped(s, i), i) && Stopped(s, i).senders[i].todo == s.senders[i].todo[1..]
  {
    var x := s.senders[i];
    assert forall b :: b in x.todo[1..] ==> b in x.todo && b != x.todo[0];
  }

  /** Going round: every destination is offered the message once, whatever room it has. */
  lemma {:induction false} Tour(s: State, i: nat)
    requires OpenDoors(s, i)
    ensures Schedule(s, Stops(i, |s.senders[i].todo|)) && Toured(s, Run(s, Stops(i, |s.senders[i].todo|)), i)
    decreases |s.senders[i].todo|
  {
    var x := s.senders[i];
    if x.todo == [] {
      assert s.senders == s.senders[i := s.senders[i]] && x.done + x.todo == x.done;
    } else {
      assert x.todo[0] in x.todo;
      OneStopMade(s, i);
      var u := Stopped(s, i);
      DoorsStayOpen(s, i);
      Tour(u, i);
      TouredOneMore(s, u, Run(u, Stops(i, |x.todo| - 1)), i);
      RunConcat(s, OneStop(i), Stops(i, |x.todo| - 1));
    }
  }

  // ---------------------------------------------------------------------------
  // A whole Send
  // ---------------------------------------------------------------------------

  function Bodies(mails: seq<Mail>): seq<Message> {
    seq(|mails|, k requires 0 <= k < |mails| => mails[k].message)
  }

  /** A mailbox as the object model has it. */
  function View(b: Box): O.Held { O.Held(Bodies(b.queue), b.delivered, b.dropped) }

  lemma ViewGiven(b: Box, m: Mail)
    ensures View(Given(b, m)) == O.Offered(View(b), m.message)
  {
    assert |b.queue| < CAPACITY ==> Bodies(b.queue + [m]) == Bodies(b.queue) + [m.message];
  }

  /** All steps of one Send with `n` destinations. */
  function SendSteps(m: Message, i: nat, order: seq<nat>, n: nat): seq<Step> {
    [Journal(m, true), Route(i, order)] + Stops(i, n) + [Check(i), Settle(i)]
  }

  function AfterRoute(s: State, m: Message, to: seq<nat>, found: bool): State {
    s.(journal := s.journal + [Entry(m, false)], sent := s.sent + 1,
    senders := s.senders + [Sender(|s.journal|, m, Choosing, to, [], found, found)])
  }

  lemma Routing(s: State, m: Message, order: seq<nat>)
    requires Free(s) && !s.closed && Lists(s, order) && Sendable(m)
    ensures var i := |s.senders|; var to := Destinations(s, m, order);
            && Schedule(s, [Journal(m, true), Route(i, order)])
            && Run(s, [Journal(m, true), Route(i, order)]) == AfterRoute(s, m, to, m.to == BROADCAST || to != [])
  {
    var i := |s.senders|;
    var s1 := s.(journal := s.journal + [Entry(m, false)], sent := s.sent + 1,
              senders := s.senders + [Sender(|s.journal|, m, Unrouted, [], [], false, false)]);
    assert Next(s, Journal(m, true)) == s1;
    RoutingOnly(s, s1, m, order);
    TwoSteps(s, Journal(m, true), Route(i, order), Next(s1, Route(i, order)));
  }

  lemma RoutingOnly(s: State, s1: State, m: Message, order: seq<nat>)
    requires s.writer.None? && Lists(s, order)
    requires s1 == s.(journal := s.journal + [Entry(m, false)], sent := s.sent + 1,
                   senders := s.senders + [Sender(|s.journal|, m, Unrouted, [], [], false, false)])
    ensures var i := |s.senders|; var to := Destinations(s, m, order);
            && Enabled(s1, Route(i, order))
            && Next(s1, Route(i, order)) == AfterRoute(s, m, to, m.to == BROADCAST || to != [])
  {
    assert forall b: nat :: Registered(s1, b) <==> Registered(s, b);
    var to := Destinations(s, m, order);
    var t := AfterRoute(s, m, to, m.to == BROADCAST || to != []);
    assert Destinations(s1, m, order) == to;
    assert RouteStep(s1, |s.senders|, order).senders == t.senders;
  }

  /** The end of the loop, and the verdict. */
  lemma Settling(s: State, i: nat)
    requires At(s, i, Choosing) && s.senders[i].todo == [] && s.writer.None?
    requires forall j :: 0 <= j < |s.senders| && j != i ==> !Reading(s.senders[j])
    ensures Schedule(s, [Check(i), Settle(i)])
    ensures Run(s, [Check(i), Settle(i)])
            == WithSender(s, i, s.senders[i].(phase := Finished)).
               (delivered := s.delivered + if s.senders[i].accepted then 1 else 0)
  {
    var s1 := WithSender(s, i, s.senders[i].(phase := Broker.Settling));
    assert Next(s, Check(i)) == s1;
    assert Next(s1, Settle(i)).senders == s.senders[i := s.senders[i].(phase := Finished)];
    TwoSteps(s, Check(i), Settle(i), Next(s1, Settle(i)));
  }

  /** What one call of Send makes of a broker with open mailboxes, in the words of the object. */
  ghost predicate SentInOneCall(s: State, t: State, m: Message) {
    && t.registry == s.registry && |t.boxes| == |s.boxes| && t.closed == s.closed && t.orphaned == s.orphaned
    && t.journal == s.journal + [Entry(m, false)] && t.sent == s.sent + 1
    && (forall b: nat :: b < |s.boxes| && Registered(s, b) ==>
          View(t.boxes[b]) == O.Handed(s.mainId, m, s.boxes[b].agent, View(s.boxes[b])))
    && (forall b: nat :: b < |s.boxes| && !Registered(s, b) ==> t.boxes[b] == s.boxes[b])
    && t.delivered == s.delivered + if Reaches(s, m) then 1 else 0
  }

  /** There is somebody to reach, and room at all of them. */
  ghost predicate Reaches(s: State, m: Message) {
    && (m.to == BROADCAST || exists b: nat :: Registered(s, b) && Addressed(s.mainId, m, s.boxes[b].agent))
    && (forall b: nat :: Registered(s, b) && Addressed(s.mainId, m, s.boxes[b].agent) ==> HasRoom(s, b))
  }

  lemma Destined(s: State, m: Message, order: seq<nat>)
    requires Locks(s) && Lists(s, order)
    ensures Distinct(Destinations(s, m, order))
    ensures forall b: nat :: b in Destinations(s, m, order) <==>
              Registered(s, b) && Addressed(s.mainId, m, s.boxes[b].agent)
  {
    assert forall b: nat :: b in order <==> Registered(s, b);
  }

  lemma Reached(s: State, m: Message, order: seq<nat>)
    requires Locks(s) && Lists(s, order)
    ensures var to := Destinations(s, m, order);
            ((m.to == BROADCAST || to != []) && AllRoom(s, to)) <==> Reaches(s, m)
  {
    var to := Destinations(s, m, order);
    Destined(s, m, order);
    if m.to != BROADCAST && to != [] {
      assert to[0] in to && Registered(s, to[0]);
    }
    forall b: nat | Registered(s, b) && Addressed(s.mainId, m, s.boxes[b].agent) ensures b in to {
    }
  }

  /** The steps one after the other. */
  lemma SendTour(s: State, m: Message, order: seq<nat>)
    requires Locks(s) && Free(s) && !s.closed && Lists(s, order) && Sendable(m)
    ensures var i, to := |s.senders|, Destinations(s, m, order); var found := m.to == BROADCAST || to != [];
            var s1 := AfterRoute(s, m, to, found);
            && Schedule(s, [Journal(m, true), Route(i, order)] + Stops(i, |to|))
            && Toured(s1, Run(s, [Journal(m, true), Route(i, order)] + Stops(i, |to|)), i)
  {
    var i, to := |s.senders|, Destinations(s, m, order);
    var s1 := AfterRoute(s, m, to, m.to == BROADCAST || to != []);
    Routing(s, m, order);
    Destined(s, m, order);
    assert OpenDoors(s1, i);
    Tour(s1, i);
    RunConcat(s, [Journal(m, true), Route(i, order)], Stops(i, |to|));
  }

  lemma SentByTour(s: State, m: Message, order: seq<nat>, s2: State)
    requires Locks(s) && Lists(s, order)
    requires var to := Destinations(s, m, order);
             Toured(AfterRoute(s, m, to, m.to == BROADCAST || to != []), s2, |s.senders|)
    ensures var i := |s.senders|;
            SentInOneCall(s, WithSender(s2, i, s2.senders[i].(phase := Finished)).
                          (delivered := s2.delivered + if s2.senders[i].accepted then 1 else 0), m)
  {
    var i, to := |s.senders|, Destinations(s, m, order);
    var s1 := AfterRoute(s, m, to, m.to == BROADCAST || to != []);
    Destined(s, m, order);
    assert AllRoom(s1, to) <==> AllRoom(s, to);
    Reached(s, m, order);
    forall b: nat | b < |s.boxes| && Registered(s, b)
      ensures View(s2.boxes[b]) == O.Handed(s.mainId, m, s.boxes[b].agent, View(s.boxes[b]))
    {
      ViewGiven(s.boxes[b], Mail(i, m));
    }
  }

  /** From any moment at which nobody holds the lock: a Send that runs through alone does exactly what
      the call does on the broker as an object, whatever other Sends have yet to be routed. */
  lemma SendAlone(s: State, m: Message, order: seq<nat>)
    requires Locks(s) && Free(s) && !s.closed && Lists(s, order) && Sendable(m)
    ensures var steps := SendSteps(m, |s.senders|, order, |Destinations(s, m, order)|);
            Schedule(s, steps) && SentInOneCall(s, Run(s, steps), m)
  {
    var i, to := |s.senders|, Destinations(s, m, order);
    var there := [Journal(m, true), Route(i, order)] + Stops(i, |to|);
    SendTour(s, m, order);
    SentByTour(s, m, order, Run(s, there));
    Settling(Run(s, there), i);
    RunConcat(s, there, [Check(i), Settle(i)]);
  }

  // ---------------------------------------------------------------------------
  // The journal
  // ---------------------------------------------------------------------------

  /** White space as Unicode has it, by code point. */
  ghost predicate SpaceCode(c: int) {
    || 9 <= c <= 13 || c == 32 || c == 0x85 || c == 0xA0 || c == 0x1680 || 0x2000 <= c <= 0x200A
    || c == 0x2028 || c == 0x2029 || c == 0x202F || c == 0x205F || c == 0x3000
  }

  /** A name is blank exactly when it is empty or every character of it is white space. */
  lemma BlankExactly(before: string, c: char, after: string)
    ensures Blank("") && (Blank(before + [c] + after) <==> Blank(before) && SpaceCode(c as int) && Blank(after))
  {
    var s := before + [c] + after;
    assert s[|before|] == c;
    assert forall k :: 0 <= k < |before| ==> s[k] == before[k];
    assert forall k :: 0 <= k < |after| ==> s[|before| + 1 + k] == after[k];
    if Blank(before) && SpaceCode(c as int) && Blank(after) {
      forall k | 0 <= k < |s| ensures IsSpace(s[k]) {
        assert k > |before| ==> s[k] == after[k - |before| - 1];
      }
    }
  }

  /** What a step files, if the broker is open. */
  function Files(step: Step, open: bool): seq<Entry> {
    if step.Journal? && step.ok && open && !Blank(step.message.sender) && !Blank(step.message.to)
       && !Blank(step.message.kind) then [Entry(step.message, false)]
    else if step.FileOrphans? && step.ok then Filed(step.messages)
    else []
  }

  function AllFiles(steps: seq<Step>, open: bool): seq<Entry> {
    if steps == [] then [] else Files(steps[0], open) + AllFiles(steps[1..], open && !steps[0].Close?)
  }

  lemma FiledByStep(s: State, step: Step)
    requires Enabled(s, step)
    ensures Next(s, step).journal == s.journal + Files(step, !s.closed)
    ensures Next(s, step).closed == (s.closed || step.Close?)
  {
    assert s.journal + [] == s.journal;
    match step
    case Journal(m, ok) =>
    case FileOrphans(ms, ok) => FiledByFiling(s, ms, ok);
    case _ =>
  }

  lemma FiledByFiling(s: State, ms: seq<Message>, ok: bool)
    ensures Next(s, FileOrphans(ms, ok)).journal == s.journal + Files(FileOrphans(ms, ok), !s.closed)
  {
    assert ms == [] ==> Filed(ms) == [];
  }

  /** Over every run the journal is what was sent, with the journal's consent and before the broker
      closed, and what was filed as orphaned, in the order of those calls. */
  lemma {:induction false} JournalIsCalls(s: State, steps: seq<Step>)
    requires Schedule(s, steps)
    ensures Run(s, steps).journal == s.journal + AllFiles(steps, !s.closed)
    decreases |steps|
  {
    if steps == [] {
      assert s.journal + [] == s.journal;
    } else {
      var t := Next(s, steps[0]);
      FiledByStep(s, steps[0]);
      JournalIsCalls(t, steps[1..]);
      Associates(s.journal, Files(steps[0], !s.closed), AllFiles(steps[1..], !t.closed));
    }
  }
}
