/** What mailboxes hold, over every run of module Broker: journaled first, at most once, within
    the capacity, and counted. */
module BrokerMail {
  import opened Common
  import opened Broker

  ghost predicate InLog(b: Box, i: nat) {
    exists k :: 0 <= k < |Log(b)| && Log(b)[k].send == i
  }

  /** A piece of mail was journaled by a Send before any mailbox saw it, and is for this agent. */
  ghost predicate Genuine(s: State, b: Box, m: Mail) {
    && m.send < |s.senders| && m.message == s.senders[m.send].message
    && Addressed(s.mainId, m.message, b.agent)
  }

  ghost predicate BoxFits(s: State, b: Box) {
    && |b.queue| <= CAPACITY
    && (forall k :: 0 <= k < |Log(b)| ==> Genuine(s, b, Log(b)[k]))
    && (forall j, k :: 0 <= j < k < |Log(b)| ==> Log(b)[j].send != Log(b)[k].send)
  }

  /** Whether this Send has already put its message into mailbox `b`. */
  predicate Pushed(x: Sender, b: nat) {
    x.phase == Counting(true) && x.todo != [] && x.todo[0] == b
  }

  /** The destinations of a Send are addressed and distinct; it is in the log of those, and only
      those, that took it; `accepted` says that all did. */
  ghost predicate SenderFits(s: State, i: nat)
    requires i < |s.senders|
  {
    var x := s.senders[i];
    && x.at < |s.journal| && s.journal[x.at] == Entry(x.message, false)
    && (x.phase.Unrouted? ==> x.todo == [] && x.done == [])
    && (x.phase.Settling? || x.phase.Finished? ==> x.todo == [])
    && Distinct(x.done + x.todo)
    && (forall b :: b in x.done + x.todo ==> b < |s.boxes| && Addressed(s.mainId, x.message, s.boxes[b].agent))
  }

  ghost predicate SenderLogged(s: State, i: nat, b: nat)
    requires i < |s.senders| && b < |s.boxes|
  {
    var x := s.senders[i];
    && (InLog(s.boxes[b], i) ==> b in x.done || Pushed(x, b))
    && (Pushed(x, b) ==> InLog(s.boxes[b], i))
    && (x.accepted && b in x.done ==> InLog(s.boxes[b], i))
  }

  ghost predicate Mailed(s: State) {
    && (forall b :: 0 <= b < |s.boxes| ==> BoxFits(s, s.boxes[b]))
    && (forall i :: 0 <= i < |s.senders| ==> SenderFits(s, i))
    && (forall i: nat, b: nat :: i < |s.senders| && b < |s.boxes| ==> SenderLogged(s, i, b))
  }

  /** Everything about mail that a step may leave alone. */
  ghost predicate SameMail(s: State, t: State) {
    && t.mainId == s.mainId && s.journal <= t.journal && s.senders <= t.senders && |s.boxes| <= |t.boxes|
    && (forall b :: 0 <= b < |s.boxes| ==>
          && t.boxes[b].agent == s.boxes[b].agent && Log(t.boxes[b]) == Log(s.boxes[b])
          && |t.boxes[b].queue| <= CAPACITY)
    && (forall b :: |s.boxes| <= b < |t.boxes| ==> Log(t.boxes[b]) == [] && |t.boxes[b].queue| <= CAPACITY)
    && (forall i :: |s.senders| <= i < |t.senders| ==> Fresh(t, t.senders[i]))
  }

  ghost predicate Fresh(t: State, x: Sender) {
    && x.phase.Unrouted? && x.todo == [] && x.done == []
    && x.at < |t.journal| && t.journal[x.at] == Entry(x.message, false)
  }

  lemma SameMailKept(s: State, t: State)
    requires Mailed(s) && SameMail(s, t)
    ensures Mailed(t)
  {
    forall b | 0 <= b < |t.boxes| ensures BoxFits(t, t.boxes[b]) {
      if b < |s.boxes| {
        assert BoxFits(s, s.boxes[b]);
        forall k | 0 <= k < |Log(t.boxes[b])| ensures Genuine(t, t.boxes[b], Log(t.boxes[b])[k]) {
          assert Genuine(s, s.boxes[b], Log(s.boxes[b])[k]);
        }
      }
    }
    forall i | 0 <= i < |t.senders| ensures SenderFits(t, i) {
      if i < |s.senders| {
        assert SenderFits(s, i) && t.senders[i] == s.senders[i];
      } else {
        assert Fresh(t, t.senders[i]);
      }
    }
    forall i: nat, b: nat | i < |t.senders| && b < |t.boxes| ensures SenderLogged(t, i, b) {
      if b < |s.boxes| {
        assert BoxFits(s, s.boxes[b]);
        assert forall k :: 0 <= k < |Log(s.boxes[b])| ==> Genuine(s, s.boxes[b], Log(s.boxes[b])[k]);
        if i < |s.senders| {
          assert SenderLogged(s, i, b);
        } else {
          assert Fresh(t, t.senders[i]);
        }
      } else if i < |s.senders| {
        assert SenderFits(s, i);
      } else {
        assert Fresh(t, t.senders[i]);
      }
    }
  }

  /** A step of one Send that leaves every log alone. */
  lemma SenderMoves(s: State, t: State, i: nat)
    requires Mailed(s) && i < |s.senders| && i < |t.senders| && t.senders == s.senders[i := t.senders[i]]
    requires t.mainId == s.mainId && t.journal == s.journal && |t.boxes| == |s.boxes|
    requires forall b :: 0 <= b < |s.boxes| ==>
               && t.boxes[b].agent == s.boxes[b].agent && Log(t.boxes[b]) == Log(s.boxes[b])
               && t.boxes[b].queue == s.boxes[b].queue
    requires t.senders[i].message == s.senders[i].message && SenderFits(t, i)
    requires forall b: nat :: b < |s.boxes| ==> SenderLogged(t, i, b)
    ensures Mailed(t)
  {
    forall b | 0 <= b < |t.boxes| ensures BoxFits(t, t.boxes[b]) {
      assert BoxFits(s, s.boxes[b]);
      forall k | 0 <= k < |Log(t.boxes[b])| ensures Genuine(t, t.boxes[b], Log(t.boxes[b])[k]) {
        assert Genuine(s, s.boxes[b], Log(s.boxes[b])[k]);
      }
    }
    forall j | 0 <= j < |t.senders| ensures SenderFits(t, j) {
      if j != i {
        assert SenderFits(s, j) && t.senders[j] == s.senders[j];
      }
    }
    forall j: nat, b: nat | j < |t.senders| && b < |t.boxes| ensures SenderLogged(t, j, b) {
      if j != i {
        assert SenderLogged(s, j, b) && t.senders[j] == s.senders[j];
      }
    }
  }

  lemma DestinationsFit(s: State, m: Message, order: seq<nat>)
    requires Locks(s) && Lists(s, order)
    ensures var to := Destinations(s, m, order);
            Distinct(to) && forall b :: b in to ==> b < |s.boxes| && Addressed(s.mainId, m, s.boxes[b].agent)
  {
    var to := Destinations(s, m, order);
    assert to == order || |to| <= 1;
    forall b | b in to ensures b < |s.boxes| && Addressed(s.mainId, m, s.boxes[b].agent) {
      var k :| 0 <= k < |to| && to[k] == b;
      assert m.to == BROADCAST ==> Registered(s, order[k]);
    }
  }

  lemma RouteMailed(s: State, i: nat, order: seq<nat>)
    requires Locks(s) && Mailed(s) && Enabled(s, Route(i, order))
    ensures Mailed(RouteStep(s, i, order))
  {
    var t, x := RouteStep(s, i, order), s.senders[i];
    assert SenderFits(s, i);
    DestinationsFit(s, x.message, order);
    assert t.senders[i].done + t.senders[i].todo == Destinations(s, x.message, order);
    forall b: nat | b < |s.boxes| ensures SenderLogged(t, i, b) {
      assert SenderLogged(s, i, b);
    }
    SenderMoves(s, t, i);
  }

  /** The head of the loop moves on without a delivery. */
  lemma CheckMailed(s: State, i: nat)
    requires Locks(s) && Mailed(s) && Enabled(s, Check(i))
    ensures Mailed(Next(s, Check(i)))
  {
    var t, x := Next(s, Check(i)), s.senders[i];
    var y := t.senders[i];
    assert SenderFits(s, i);
    if x.todo != [] {
      assert x.done + [x.todo[0]] + x.todo[1..] == x.done + x.todo;
    }
    assert y.done + y.todo == x.done + x.todo;
    forall b: nat | b < |s.boxes| ensures SenderLogged(t, i, b) {
      assert SenderLogged(s, i, b);
    }
    SenderMoves(s, t, i);
  }

  /** Trying the head moves it from what is to be tried to what has been. */
  lemma TriedMembers(x: Sender, took: bool)
    requires x.todo != []
    ensures var y := Tried(x, took);
            y.done + y.todo == x.done + x.todo && forall b :: b in y.done <==> b in x.done || b == x.todo[0]
  {
    var y := Tried(x, took);
    assert x.done + [x.todo[0]] + x.todo[1..] == x.done + x.todo;
  }

  lemma CountMailed(s: State, i: nat)
    requires Locks(s) && Mailed(s) && Enabled(s, Count(i))
    ensures Mailed(CountStep(s, i))
  {
    var t, x := CountStep(s, i), s.senders[i];
    assert SenderFits(s, i);
    TriedMembers(x, x.phase.took);
    forall b: nat | b < |s.boxes| ensures SenderLogged(t, i, b) {
      assert SenderLogged(s, i, b);
      assert Log(t.boxes[b]) == Log(s.boxes[b]);
    }
    SenderMoves(s, t, i);
  }

  /** The channel operation: the message enters one log, behind everything else. */
  lemma PushMailed(s: State, i: nat)
    requires Locks(s) && Mailed(s) && Enabled(s, Push(i))
    ensures Mailed(Next(s, Push(i)))
  {
    var t, x, at := Next(s, Push(i)), s.senders[i], s.senders[i].todo[0];
    assert ReaderFits(s, x) && Registered(s, at) && !s.boxes[at].shut;
    assert SenderFits(s, i) && at in x.done + x.todo;
    if |s.boxes[at].queue| >= CAPACITY {
      forall b: nat | b < |s.boxes| ensures SenderLogged(t, i, b) {
        assert SenderLogged(s, i, b);
      }
      SenderMoves(s, t, i);
    } else {
      PushedLog(s, i);
      PushedSenders(s, i);
      PushedBoxes(s, i);
    }
  }

  ghost predicate CanPush(s: State, i: nat) {
    && Locks(s) && Mailed(s) && Enabled(s, Push(i))
    && var at := s.senders[i].todo[0]; !s.boxes[at].shut && |s.boxes[at].queue| < CAPACITY
  }

  lemma PushedLog(s: State, i: nat)
    requires CanPush(s, i)
    ensures var t, at := Next(s, Push(i)), s.senders[i].todo[0];
            && Log(t.boxes[at]) == Log(s.boxes[at]) + [Mail(i, s.senders[i].message)]
            && !InLog(s.boxes[at], i)
            && (forall j: nat :: InLog(t.boxes[at], j) <==> InLog(s.boxes[at], j) || j == i)
  {
    var t, x, at := Next(s, Push(i)), s.senders[i], s.senders[i].todo[0];
    var before, after := Log(s.boxes[at]), Log(t.boxes[at]);
    assert after == before + [Mail(i, x.message)];
    assert SenderFits(s, i) && SenderLogged(s, i, at);
    assert (x.done + x.todo)[|x.done|] == at;
    assert forall k :: 0 <= k < |x.done| ==> x.done[k] == (x.done + x.todo)[k];
    assert at !in x.done;
    forall j: nat ensures InLog(t.boxes[at], j) <==> InLog(s.boxes[at], j) || j == i {
      if InLog(s.boxes[at], j) {
        var k :| 0 <= k < |before| && before[k].send == j;
        assert after[k].send == j;
      }
      if j == i {
        assert after[|before|].send == j;
      }
    }
  }

  lemma PushedSenders(s: State, i: nat)
    requires CanPush(s, i)
    ensures var t := Next(s, Push(i));
            && (forall j :: 0 <= j < |t.senders| ==> SenderFits(t, j))
            && (forall j: nat, b: nat :: j < |t.senders| && b < |t.boxes| ==> SenderLogged(t, j, b))
  {
    var t, at := Next(s, Push(i)), s.senders[i].todo[0];
    forall j | 0 <= j < |t.senders| ensures SenderFits(t, j) {
      assert SenderFits(s, j);
    }
    PushedLog(s, i);
    forall j: nat, b: nat | j < |t.senders| && b < |t.boxes| ensures SenderLogged(t, j, b) {
      assert SenderLogged(s, j, b);
      assert b != at ==> t.boxes[b] == s.boxes[b];
    }
  }

  /** A Send that moves keeps mail genuine. */
  lemma StillGenuine(s: State, t: State, b: Box, m: Mail)
    requires Genuine(s, b, m) && t.mainId == s.mainId && |t.senders| == |s.senders|
    requires t.senders[m.send].message == s.senders[m.send].message
    ensures Genuine(t, b, m)
  {
  }

  lemma PushedBox(s: State, i: nat)
    requires CanPush(s, i)
    ensures var t, at := Next(s, Push(i)), s.senders[i].todo[0]; at < |t.boxes| && BoxFits(t, t.boxes[at])
  {
    var t, x, at := Next(s, Push(i)), s.senders[i], s.senders[i].todo[0];
    PushedLog(s, i);
    assert SenderFits(s, i) && at in x.done + x.todo;
    assert BoxFits(s, s.boxes[at]);
    var before, after := Log(s.boxes[at]), Log(t.boxes[at]);
    forall k | 0 <= k < |before|
      ensures after[k] == before[k] && Genuine(t, s.boxes[at], before[k]) && before[k].send != i
    {
      StillGenuine(s, t, s.boxes[at], before[k]);
      assert InLog(s.boxes[at], before[k].send);
    }
    assert after[|before|] == Mail(i, x.message);
  }

  lemma PushedBoxes(s: State, i: nat)
    requires CanPush(s, i)
    ensures var t := Next(s, Push(i)); forall b :: 0 <= b < |t.boxes| ==> BoxFits(t, t.boxes[b])
  {
    var t, at := Next(s, Push(i)), s.senders[i].todo[0];
    forall b | 0 <= b < |t.boxes| ensures BoxFits(t, t.boxes[b]) {
      if b == at {
        PushedBox(s, i);
      } else {
        assert BoxFits(s, s.boxes[b]) && t.boxes[b] == s.boxes[b];
        forall k | 0 <= k < |Log(s.boxes[b])| ensures Genuine(t, t.boxes[b], Log(t.boxes[b])[k]) {
          StillGenuine(s, t, s.boxes[b], Log(s.boxes[b])[k]);
        }
      }
    }
  }

  lemma SettleMailed(s: State, i: nat)
    requires Locks(s) && Mailed(s) && Enabled(s, Settle(i))
    ensures Mailed(Next(s, Settle(i)))
  {
    var t := Next(s, Settle(i));
    assert SenderFits(s, i);
    forall b: nat | b < |s.boxes| ensures SenderLogged(t, i, b) {
      assert SenderLogged(s, i, b);
    }
    SenderMoves(s, t, i);
  }

  lemma ReceiveMailed(s: State, b: nat)
    requires Mailed(s) && Enabled(s, Receive(b))
    ensures Mailed(Next(s, Receive(b)))
  {
    var t, box := Next(s, Receive(b)), s.boxes[b];
    assert box.queue == [box.queue[0]] + box.queue[1..];
    assert Log(t.boxes[b]) == Log(box);
    KeepsBoxes(s, t);
  }

  lemma OtherMailed(s: State, step: Step)
    requires Mailed(s) && Enabled(s, step)
    requires step.Register? || step.Journal? || step.Unregister? || step.Close? || step.FileOrphans?
    ensures Mailed(Next(s, step))
  {
    KeepsBoxes(s, Next(s, step));
  }

  lemma ClosingMailed(s: State, step: Step)
    requires Mailed(s) && Enabled(s, step) && (step.Mark? || step.Shut?)
    ensures Mailed(Next(s, step))
  {
    KeepsBoxes(s, Next(s, step));
  }

  /** What each step keeps. */
  lemma StepKeepsMail(s: State, step: Step)
    requires Locks(s) && Mailed(s) && Enabled(s, step)
    ensures Mailed(Next(s, step))
  {
    if step.Route? {
      RouteMailed(s, step.send, step.order);
    } else if step.Check? {
      CheckMailed(s, step.send);
    } else if step.Push? {
      PushMailed(s, step.send);
    } else if step.Count? {
      CountMailed(s, step.send);
    } else if step.Settle? {
      SettleMailed(s, step.send);
    } else if step.Receive? {
      ReceiveMailed(s, step.box);
    } else if step.Mark? || step.Shut? {
      ClosingMailed(s, step);
    } else {
      OtherMailed(s, step);
    }
  }

  lemma KeepsBoxes(s: State, t: State)
    requires Mailed(s) && t.mainId == s.mainId && s.journal <= t.journal && s.senders <= t.senders
             && |s.boxes| <= |t.boxes|
    requires forall b :: 0 <= b < |s.boxes| ==>
               && t.boxes[b].agent == s.boxes[b].agent && Log(t.boxes[b]) == Log(s.boxes[b])
               && |t.boxes[b].queue| <= |s.boxes[b].queue|
    requires forall b :: |s.boxes| <= b < |t.boxes| ==> t.boxes[b].queue == t.boxes[b].received == []
    requires forall i :: |s.senders| <= i < |t.senders| ==> Fresh(t, t.senders[i])
    ensures Mailed(t)
  {
    assert forall b :: 0 <= b < |s.boxes| ==> BoxFits(s, s.boxes[b]);
    SameMailKept(s, t);
  }
}
