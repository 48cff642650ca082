/** Who is registered and which mailboxes are closed, over whole runs of module Broker. */
module BrokerClosing {
  import opened Common
  import opened Broker
  import opened BrokerRuns

  /** Every mailbox ever made is registered or somebody's to close. */
  ghost predicate Owned(s: State) {
    forall b: nat :: b < |s.boxes| ==> Registered(s, b) || HasCloser(s, b)
  }

  ghost predicate HasCloser(s: State, b: nat) {
    exists c :: 0 <= c < |s.closers| && s.closers[c].box == b
  }

  /** Agents have names that can be addressed, the main one aside. */
  ghost predicate Named(s: State) {
    forall agent :: agent in s.registry ==> agent == s.mainId || !Blank(agent)
  }

  lemma ClosersStay(s: State, step: Step, b: nat)
    requires Enabled(s, step) && HasCloser(s, b)
    ensures HasCloser(Next(s, step), b)
  {
    var t := Next(s, step);
    var c :| 0 <= c < |s.closers| && s.closers[c].box == b;
    assert c < |t.closers| && t.closers[c].box == b;
  }

  lemma StillOwned(s: State, t: State)
    requires Owned(s) && |t.boxes| == |s.boxes| && t.registry == s.registry
    requires forall b :: 0 <= b < |s.boxes| ==> t.boxes[b].agent == s.boxes[b].agent
    requires forall b: nat :: HasCloser(s, b) ==> HasCloser(t, b)
    ensures Owned(t)
  {
    forall b: nat | b < |t.boxes| ensures Registered(t, b) || HasCloser(t, b) {
      assert Registered(s, b) || HasCloser(s, b);
    }
  }

  ghost predicate SameAgents(s: State, t: State) {
    && |t.boxes| == |s.boxes| && t.registry == s.registry && t.mainId == s.mainId
    && forall b :: 0 <= b < |s.boxes| ==> t.boxes[b].agent == s.boxes[b].agent
  }

  lemma SameAgentsSending(s: State, step: Step)
    requires InRange(s, step) && (step.Check? || step.Push? || step.Count?)
    ensures SameAgents(s, Next(s, step))
  {
  }

  lemma SameAgentsOutside(s: State, step: Step)
    requires InRange(s, step) && (step.Mark? || step.Shut? || step.Receive? || step.FileOrphans?)
    ensures SameAgents(s, Next(s, step))
  {
  }

  /** Steps that neither make mailboxes nor touch the registry. */
  lemma SameRegistry(s: State, step: Step)
    requires Enabled(s, step) && !step.Register? && !step.Unregister? && !step.Close?
    ensures SameAgents(s, Next(s, step))
  {
    if step.Check? || step.Push? || step.Count? {
      SameAgentsSending(s, step);
    } else if step.Mark? || step.Shut? || step.Receive? || step.FileOrphans? {
      SameAgentsOutside(s, step);
    }
  }

  lemma RegisterOwned(s: State, agent: string)
    requires Locks(s) && Owned(s)
    ensures Owned(Next(s, Register(agent)))
  {
    var t := Next(s, Register(agent));
    if t != s {
      forall b: nat | b < |t.boxes| ensures Registered(t, b) || HasCloser(t, b) {
        if b < |s.boxes| && HasCloser(s, b) {
          var c :| 0 <= c < |s.closers| && s.closers[c].box == b;
          assert t.closers[c].box == b;
        }
      }
    }
  }

  lemma UnregisterOwned(s: State, agent: string)
    requires Locks(s) && Owned(s) && Enabled(s, Unregister(agent))
    ensures Owned(Next(s, Unregister(agent)))
  {
    var t := Next(s, Unregister(agent));
    if t != s {
      forall b: nat | b < |t.boxes| ensures Registered(t, b) || HasCloser(t, b) {
        if HasCloser(s, b) {
          ClosersStay(s, Unregister(agent), b);
        } else if b == s.registry[agent] {
          assert t.closers[|s.closers|].box == b;
        }
      }
    }
  }

  lemma CloseOwned(s: State, order: seq<nat>)
    requires Owned(s) && Enabled(s, Close(order))
    ensures Owned(Next(s, Close(order)))
  {
    var t := Next(s, Close(order));
    if t != s {
      forall b: nat | b < |t.boxes| ensures HasCloser(t, b) {
        if HasCloser(s, b) {
          ClosersStay(s, Close(order), b);
        } else {
          assert s.registry[s.boxes[b].agent] in order;
          var k :| 0 <= k < |order| && order[k] == b;
          assert t.closers[|s.closers| + k].box == b;
        }
      }
    }
  }

  lemma StepKeepsOwned(s: State, step: Step)
    requires Locks(s) && Owned(s) && Named(s) && Enabled(s, step)
    ensures Owned(Next(s, step)) && Named(Next(s, step))
  {
    match step
    case Register(agent) => RegisterOwned(s, agent);
    case Unregister(agent) => UnregisterOwned(s, agent);
    case Close(order) => CloseOwned(s, order);
    case _ =>
      SameRegistry(s, step);
      forall b: nat | HasCloser(s, b) ensures HasCloser(Next(s, step), b) {
        ClosersStay(s, step, b);
      }
      StillOwned(s, Next(s, step));
  }

  lemma {:induction false} RunKeepsOwned(s: State, steps: seq<Step>)
    requires Locks(s) && Owned(s) && Named(s) && Schedule(s, steps)
    ensures Locks(Run(s, steps)) && Owned(Run(s, steps)) && Named(Run(s, steps))
    decreases |steps|
  {
    if steps != [] {
      StepKeepsOwned(s, steps[0]);
      StepKeepsLocks(s, steps[0]);
      RunKeepsOwned(Next(s, steps[0]), steps[1..]);
    }
  }

  /** Over every run: once nobody is in the middle of closing one, a mailbox is closed, flag and
      channel, exactly when its agent has been taken out of the registry; and only agents that can be
      addressed are in it. */
  lemma ClosedIffLeft(mainId: string, steps: seq<Step>, b: nat)
    requires Schedule(Start(mainId), steps)
    requires var s := Run(Start(mainId), steps);
             b < |s.boxes| && forall c :: 0 <= c < |s.closers| ==> s.closers[c].stage == Broker.Stage.Done
    ensures var s := Run(Start(mainId), steps);
            (s.boxes[b].closed <==> !Registered(s, b)) && (s.boxes[b].shut <==> !Registered(s, b)) && Named(s)
  {
    StartLocks(mainId);
    assert Registered(Start(mainId), 0);
    RunKeepsOwned(Start(mainId), steps);
    var s := Run(Start(mainId), steps);
    if !Registered(s, b) {
      var c :| 0 <= c < |s.closers| && s.closers[c].box == b;
      assert CloserFits(s, s.closers[c]);
    }
  }

  /** Over every run: a Send that is about to look at a mailbox, or to send on its channel, finds it open,
      and nobody is about to close a channel that is closed. */
  lemma ChannelsOpen(mainId: string, steps: seq<Step>)
    requires Schedule(Start(mainId), steps)
    ensures var s := Run(Start(mainId), steps);
            && (forall i: nat :: Enabled(s, Push(i)) ==> !s.boxes[s.senders[i].todo[0]].shut)
            && (forall i: nat :: Enabled(s, Check(i)) && s.senders[i].todo != [] ==>
                  s.senders[i].todo[0] < |s.boxes| && !s.boxes[s.senders[i].todo[0]].closed)
            && (forall c: nat :: Enabled(s, Shut(c)) ==> !s.boxes[s.closers[c].box].shut)
  {
    NeverPanics(mainId, steps);
    var s := Run(Start(mainId), steps);
    forall i: nat | (Enabled(s, Push(i)) || Enabled(s, Check(i))) && s.senders[i].todo != []
      ensures Registered(s, s.senders[i].todo[0])
    {
      assert ReaderFits(s, s.senders[i]);
    }
    forall c: nat | Enabled(s, Shut(c)) ensures !s.boxes[s.closers[c].box].shut {
      assert CloserFits(s, s.closers[c]);
    }
  }

  lemma LockStays(s: State, step: Step, c: nat)
    requires Enabled(s, step) && c < |s.closers| && (s.writer == Some(c) || s.closers[c].stage == Broker.Stage.Done)
    ensures var t := Next(s, step);
            c < |t.closers| && (t.writer == Some(c) || t.closers[c].stage == Broker.Stage.Done)
  {
    if step.Mark? || step.Shut? {
      ClosersMove(s, step, c);
    }
  }

  lemma ClosersMove(s: State, step: Step, c: nat)
    requires Enabled(s, step) && c < |s.closers| && (step.Mark? || step.Shut?)
    ensures var t := Next(s, step);
            |t.closers| == |s.closers| && (step.closer != c ==> t.closers[c] == s.closers[c])
            && (t.writer == s.writer || t.closers[step.closer].stage == Broker.Stage.Done)
            && (t.writer != s.writer ==> s.writer == Some(step.closer))
  {
  }

  lemma {:induction false} LockedUntilClosed(s: State, steps: seq<Step>, c: nat)
    requires Schedule(s, steps) && c < |s.closers| && (s.writer == Some(c) || s.closers[c].stage == Broker.Stage.Done)
    ensures var t := Run(s, steps);
            c < |t.closers| && (t.writer == Some(c) || t.closers[c].stage == Broker.Stage.Done)
    decreases |steps|
  {
    if steps != [] {
      LockStays(s, steps[0], c);
      LockedUntilClosed(Next(s, steps[0]), steps[1..], c);
    }
  }

  /** An unregistration keeps the write lock, over any run, until its mailbox is closed: nobody is
      registered, routed or journaled in between. */
  lemma UnregisterHoldsLock(s: State, agent: string, rest: seq<Step>)
    requires Enabled(s, Unregister(agent)) && agent in s.registry && Schedule(Next(s, Unregister(agent)), rest)
    ensures var c, t := |s.closers|, Run(Next(s, Unregister(agent)), rest);
            && c < |t.closers|
            && (t.closers[c].stage != Broker.Stage.Done ==>
                  t.writer == Some(c) && !Free(t) && forall i, order :: !Enabled(t, Route(i, order)))
  {
    LockedUntilClosed(Next(s, Unregister(agent)), rest, |s.closers|);
  }

  lemma {:induction false} ClosedStays(s: State, steps: seq<Step>)
    requires Schedule(s, steps) && s.closed && s.registry == map[]
    ensures var t := Run(s, steps);
            t.closed && t.registry == map[] && |t.boxes| == |s.boxes| && |t.senders| == |s.senders|
    decreases |steps|
  {
    if steps != [] {
      if !steps[0].Register? && !steps[0].Unregister? && !steps[0].Close? {
        SameRegistry(s, steps[0]);
      }
      ClosedStays(Next(s, steps[0]), steps[1..]);
    }
  }

  /** A closed broker stays closed: over any run after it nobody is registered, no mailbox is made and
      no Send gets past the journal. */
  lemma CloseIsFinal(s: State, order: seq<nat>, rest: seq<Step>)
    requires !s.closed && Enabled(s, Close(order)) && Schedule(Next(s, Close(order)), rest)
    ensures var t := Run(Next(s, Close(order)), rest);
            t.closed && t.registry == map[] && |t.boxes| == |s.boxes| && |t.senders| == |s.senders|
  {
    ClosedStays(Next(s, Close(order)), rest);
  }

  /** Registering an agent on an open broker gives it an empty mailbox of its own, once. */
  lemma RegisterTwice(s: State, agent: string)
    requires Locks(s) && Free(s) && !s.closed && !Blank(agent)
    ensures var t := Next(s, Register(agent));
            && t.registry.Keys == s.registry.Keys + {agent} && t.boxes[t.registry[agent]].agent == agent
            && (agent !in s.registry ==> t.boxes == s.boxes + [Box(agent, [], [], 0, 0, false, false)])
            && Enabled(t, Register(agent)) && Next(t, Register(agent)) == t
  {
  }

  /** An unregistration that runs through alone: out of the registry, closed, nothing lost, and the
      lock free again. */
  lemma UnregisterAlone(s: State, agent: string)
    requires Locks(s) && Free(s) && agent in s.registry
    ensures var c := |s.closers|; var steps := [Unregister(agent), Mark(c), Shut(c)];
            && Schedule(s, steps)
            && var t := Run(s, steps); var b := s.registry[agent];
               && Free(t) && t.registry == s.registry - {agent}
               && t.boxes == s.boxes[b := s.boxes[b].(closed := true, shut := true)]
               && t.senders == s.senders && t.journal == s.journal
  {
    var c, b := |s.closers|, s.registry[agent];
    assert Registered(s, b);
    var s1 := Next(s, Unregister(agent));
    var s2 := Next(s1, Mark(c));
    var s3 := Next(s2, Shut(c));
    RunCons(s2, Shut(c), []);
    RunCons(s1, Mark(c), [Shut(c)] + []);
    RunCons(s, Unregister(agent), [Mark(c)] + ([Shut(c)] + []));
    assert [Unregister(agent)] + ([Mark(c)] + ([Shut(c)] + [])) == [Unregister(agent), Mark(c), Shut(c)];
    assert s3.boxes == s.boxes[b := s.boxes[b].(closed := true, shut := true)];
  }
}
