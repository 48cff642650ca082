/** The message guarantees of module Broker over whole runs: counters, verdicts and order. */
module BrokerRuns {
  import opened Common
  import opened Broker
  import opened BrokerMail

  // ---------------------------------------------------------------------------
  // Counters
  // ---------------------------------------------------------------------------

  /** A Send between a mailbox's channel and its counter. */
  function Uncounted(b: nat): Sender -> nat {
    (x: Sender) => if Pushed(x, b) then 1 else 0
  }

  function Succeeded(): Sender -> nat {
    (x: Sender) => if x.phase.Finished? && x.accepted then 1 else 0
  }

  ghost predicate BoxCounted(s: State, b: nat)
    requires b < |s.boxes|
  {
    s.boxes[b].delivered + Sum(Uncounted(b), s.senders) == |Log(s.boxes[b])|
  }

  ghost predicate Counted(s: State) {
    && (forall b :: 0 <= b < |s.boxes| ==> BoxCounted(s, b))
    && s.sent == |s.senders| && |s.journal| == s.sent + s.orphaned
    && s.delivered == Sum(Succeeded(), s.senders)
  }

  lemma SumOneMore(f: Sender -> nat, xs: seq<Sender>, x: Sender)
    ensures Sum(f, xs + [x]) == Sum(f, xs) + f(x)
  {
    assert (xs + [x])[..|xs|] == xs;
  }

  lemma {:induction false} NobodyThere(xs: seq<Sender>, b: nat)
    requires forall i :: 0 <= i < |xs| ==> !Pushed(xs[i], b)
    ensures Sum(Uncounted(b), xs) == 0
  {
    if xs != [] {
      NobodyThere(xs[..|xs| - 1], b);
    }
  }

  /** One Send moves from `x` to `y`. */
  lemma SenderCounted(s: State, i: nat, y: Sender, b: nat)
    requires i < |s.senders|
    ensures Sum(Uncounted(b), s.senders[i := y]) + Uncounted(b)(s.senders[i])
            == Sum(Uncounted(b), s.senders) + Uncounted(b)(y)
    ensures Sum(Succeeded(), s.senders[i := y]) + Succeeded()(s.senders[i])
            == Sum(Succeeded(), s.senders) + Succeeded()(y)
  {
    SumUpdate(Uncounted(b), s.senders, i, y);
    SumUpdate(Succeeded(), s.senders, i, y);
  }

  /** One Send moves, and one mailbox's log and counter may move with it. */
  lemma MovingCounted(s: State, t: State, i: nat)
    requires Counted(s) && i < |s.senders| && |t.senders| == |s.senders| && t.senders == s.senders[i := t.senders[i]]
    requires |t.boxes| == |s.boxes| && t.sent == s.sent && t.journal == s.journal && t.orphaned == s.orphaned
    requires t.delivered - Succeeded()(t.senders[i]) == s.delivered - Succeeded()(s.senders[i])
    requires forall b :: 0 <= b < |s.boxes| ==>
               t.boxes[b].delivered + Uncounted(b)(t.senders[i]) - |Log(t.boxes[b])|
               == s.boxes[b].delivered + Uncounted(b)(s.senders[i]) - |Log(s.boxes[b])|
    ensures Counted(t)
  {
    SenderCounted(s, i, t.senders[i], 0);
    forall b | 0 <= b < |t.boxes| ensures BoxCounted(t, b) {
      assert BoxCounted(s, b);
      SenderCounted(s, i, t.senders[i], b);
    }
  }

  lemma PushCounted(s: State, i: nat)
    requires Locks(s) && Mailed(s) && Counted(s) && Enabled(s, Push(i))
    ensures Counted(Next(s, Push(i)))
  {
    var t, at := Next(s, Push(i)), s.senders[i].todo[0];
    assert ReaderFits(s, s.senders[i]) && Registered(s, at);
    if |s.boxes[at].queue| < CAPACITY {
      PushedLog(s, i);
    }
    MovingCounted(s, t, i);
  }

  lemma SendingCounted(s: State, step: Step)
    requires Locks(s) && Mailed(s) && Counted(s) && Enabled(s, step)
    requires step.Route? || step.Check? || step.Count? || step.Settle?
    ensures Counted(Next(s, step))
  {
    MovingCounted(s, Next(s, step), step.send);
  }

  /** No Send has touched a mailbox that did not exist yet. */
  lemma NewBoxCounted(s: State, b: nat)
    requires Mailed(s) && |s.boxes| <= b
    ensures Sum(Uncounted(b), s.senders) == 0
  {
    forall i | 0 <= i < |s.senders| ensures !Pushed(s.senders[i], b) {
      var x := s.senders[i];
      assert SenderFits(s, i);
      assert x.todo != [] ==> x.todo[0] in x.done + x.todo;
    }
    NobodyThere(s.senders, b);
  }

  /** Steps outside Send: logs keep their length, and new mailboxes start empty. */
  lemma OtherCounted(s: State, t: State)
    requires Mailed(s) && Counted(s) && t.senders == s.senders && t.sent == s.sent && t.delivered == s.delivered
    requires |t.journal| - t.orphaned == |s.journal| - s.orphaned && |s.boxes| <= |t.boxes|
    requires forall b :: 0 <= b < |s.boxes| ==>
             t.boxes[b].delivered == s.boxes[b].delivered && |Log(t.boxes[b])| == |Log(s.boxes[b])|
    requires forall b :: |s.boxes| <= b < |t.boxes| ==> t.boxes[b].delivered == 0 && |Log(t.boxes[b])| == 0
    ensures Counted(t)
  {
    forall b | 0 <= b < |t.boxes| ensures BoxCounted(t, b) {
      if b < |s.boxes| {
        assert BoxCounted(s, b);
      } else {
        NewBoxCounted(s, b);
      }
    }
  }

  lemma JournalCounted(s: State, m: Message, ok: bool)
    requires Mailed(s) && Counted(s) && Enabled(s, Journal(m, ok))
    ensures Counted(Next(s, Journal(m, ok)))
  {
    var t := Next(s, Journal(m, ok));
    if t != s {
      var x := t.senders[|s.senders|];
      SumOneMore(Succeeded(), s.senders, x);
      forall b | 0 <= b < |t.boxes| ensures BoxCounted(t, b) {
        assert BoxCounted(s, b);
        SumOneMore(Uncounted(b), s.senders, x);
      }
    }
  }

  lemma RegistryCounted(s: State, step: Step)
    requires Mailed(s) && Counted(s) && InRange(s, step) && (step.Register? || step.Unregister? || step.Close?)
    ensures Counted(Next(s, step))
  {
    OtherCounted(s, Next(s, step));
  }

  lemma ClosingCounted(s: State, step: Step)
    requires Mailed(s) && Counted(s) && InRange(s, step) && (step.Mark? || step.Shut?)
    ensures Counted(Next(s, step))
  {
    OtherCounted(s, Next(s, step));
  }

  lemma OutsideCounted(s: State, step: Step)
    requires Mailed(s) && Counted(s) && InRange(s, step) && (step.Receive? || step.FileOrphans?)
    ensures Counted(Next(s, step))
  {
    OtherCounted(s, Next(s, step));
  }

  lemma StepKeepsCounts(s: State, step: Step)
    requires Locks(s) && Mailed(s) && Counted(s) && Enabled(s, step)
    ensures Counted(Next(s, step))
  {
    if step.Push? {
      PushCounted(s, step.send);
    } else if step.Route? || step.Check? || step.Count? || step.Settle? {
      SendingCounted(s, step);
    } else if step.Journal? {
      JournalCounted(s, step.message, step.ok);
    } else if step.Mark? || step.Shut? {
      ClosingCounted(s, step);
    } else if step.Receive? || step.FileOrphans? {
      OutsideCounted(s, step);
    } else {
      RegistryCounted(s, step);
    }
  }

  // ---------------------------------------------------------------------------
  // Verdicts
  // ---------------------------------------------------------------------------

  ghost predicate TookAll(s: State, done: seq<nat>, i: nat) {
    forall k :: 0 <= k < |done| ==> done[k] < |s.boxes| && InLog(s.boxes[done[k]], i)
  }

  /** A routed Send counts as accepted exactly when it had a destination and every mailbox it has
      tried holds its message. */
  ghost predicate Verdict(s: State, i: nat)
    requires i < |s.senders|
  {
    var x := s.senders[i];
    x.phase.Unrouted? || (x.accepted <==> x.found && TookAll(s, x.done, i))
  }

  ghost predicate Verdicts(s: State) {
    forall i :: 0 <= i < |s.senders| ==> Verdict(s, i)
  }

  /** Sends outside their channel operation touch no log. */
  lemma SendingLogs(s: State, step: Step)
    requires InRange(s, step) && (step.Journal? || step.Route? || step.Check? || step.Count? || step.Settle?)
    ensures |Next(s, step).boxes| == |s.boxes|
    ensures forall b :: 0 <= b < |s.boxes| ==> Log(Next(s, step).boxes[b]) == Log(s.boxes[b])
  {
  }

  /** Nor do registration, closing and filing. */
  lemma OtherLogs(s: State, step: Step)
    requires InRange(s, step)
    requires step.Register? || step.Unregister? || step.Close? || step.Mark? || step.Shut? || step.FileOrphans?
    ensures |s.boxes| <= |Next(s, step).boxes|
    ensures forall b :: 0 <= b < |s.boxes| ==> Log(Next(s, step).boxes[b]) == Log(s.boxes[b])
    ensures forall b :: |s.boxes| <= b < |Next(s, step).boxes| ==> Log(Next(s, step).boxes[b]) == []
  {
  }

  /** Receiving moves mail within its log. */
  lemma ReceiveLogs(s: State, b: nat)
    requires InRange(s, Receive(b))
    ensures |Next(s, Receive(b)).boxes| == |s.boxes|
    ensures forall c :: 0 <= c < |s.boxes| ==> Log(Next(s, Receive(b)).boxes[c]) == Log(s.boxes[c])
  {
    var box := s.boxes[b];
    assert box.queue == [box.queue[0]] + box.queue[1..];
  }

  /** No step but a channel operation touches a log. */
  lemma LogsAlone(s: State, step: Step)
    requires InRange(s, step) && !step.Push?
    ensures |s.boxes| <= |Next(s, step).boxes|
    ensures forall b :: 0 <= b < |s.boxes| ==> Log(Next(s, step).boxes[b]) == Log(s.boxes[b])
    ensures forall b :: |s.boxes| <= b < |Next(s, step).boxes| ==> Log(Next(s, step).boxes[b]) == []
  {
    if step.Receive? {
      ReceiveLogs(s, step.box);
    } else if step.Journal? || step.Route? || step.Check? || step.Count? || step.Settle? {
      SendingLogs(s, step);
    } else {
      OtherLogs(s, step);
    }
  }

  lemma PushLogs(s: State, j: nat, i: nat, b: nat)
    requires Locks(s) && Mailed(s) && Enabled(s, Push(j)) && b < |s.boxes| && (j == i ==> s.senders[i].todo[0] != b)
    ensures |Next(s, Push(j)).boxes| == |s.boxes| && (InLog(Next(s, Push(j)).boxes[b], i) <==> InLog(s.boxes[b], i))
  {
    assert ReaderFits(s, s.senders[j]) && Registered(s, s.senders[j].todo[0]);
    if |s.boxes[s.senders[j].todo[0]].queue| < CAPACITY {
      PushedLog(s, j);
    }
  }

  /** Only its own channel operation puts a Send into a log. */
  lemma LogsKept(s: State, step: Step, i: nat, b: nat)
    requires Locks(s) && Mailed(s) && Enabled(s, step) && i < |s.senders| && b < |s.boxes|
             && (step == Push(i) ==> s.senders[i].todo[0] != b)
    ensures |s.boxes| <= |Next(s, step).boxes| && (InLog(Next(s, step).boxes[b], i) <==> InLog(s.boxes[b], i))
  {
    if step.Push? {
      PushLogs(s, step.send, i, b);
    } else {
      LogsAlone(s, step);
    }
  }

  lemma HeadNotDone(s: State, i: nat)
    requires i < |s.senders| && SenderFits(s, i) && s.senders[i].todo != []
    ensures s.senders[i].todo[0] !in s.senders[i].done && s.senders[i].todo[0] < |s.boxes|
  {
    var x := s.senders[i];
    assert (x.done + x.todo)[|x.done|] == x.todo[0];
    assert forall k :: 0 <= k < |x.done| ==> x.done[k] == (x.done + x.todo)[k];
    assert x.todo[0] in x.done + x.todo;
  }

  /** What a Send has tried stays taken, or stays refused. */
  lemma TookAllKept(s: State, step: Step, i: nat)
    requires Locks(s) && Mailed(s) && Enabled(s, step) && i < |s.senders|
    ensures TookAll(Next(s, step), s.senders[i].done, i) <==> TookAll(s, s.senders[i].done, i)
  {
    var t, x := Next(s, step), s.senders[i];
    assert SenderFits(s, i);
    if x.todo != [] {
      HeadNotDone(s, i);
    }
    forall k | 0 <= k < |x.done|
      ensures x.done[k] < |s.boxes| <= |t.boxes| && (InLog(t.boxes[x.done[k]], i) <==> InLog(s.boxes[x.done[k]], i))
    {
      assert (x.done + x.todo)[k] == x.done[k] && x.done[k] in x.done + x.todo;
      LogsKept(s, step, i, x.done[k]);
    }
  }

  lemma TookOneMore(s: State, done: seq<nat>, b: nat, i: nat)
    ensures TookAll(s, done + [b], i) <==> TookAll(s, done, i) && b < |s.boxes| && InLog(s.boxes[b], i)
  {
    var more := done + [b];
    assert more[|done|] == b && forall k :: 0 <= k < |done| ==> more[k] == done[k];
  }

  /** The Send that moves. */
  lemma MoverVerdict(s: State, step: Step, i: nat)
    requires Locks(s) && Mailed(s) && Verdicts(s) && Enabled(s, step)
    requires step in {Check(i), Push(i), Count(i), Settle(i)} && i < |s.senders|
    ensures i < |Next(s, step).senders| && Verdict(Next(s, step), i)
  {
    var t, x := Next(s, step), s.senders[i];
    assert SenderFits(s, i) && Verdict(s, i);
    TookAllKept(s, step, i);
    if x.todo != [] {
      HeadNotDone(s, i);
      assert SenderLogged(s, i, x.todo[0]);
      TookOneMore(t, x.done, x.todo[0], i);
      if !step.Push? {
        LogsKept(s, step, i, x.todo[0]);
      }
    }
  }

  /** The other Sends stand where they stood. */
  lemma BystanderStands(s: State, step: Step, i: nat)
    requires Enabled(s, step) && step !in {Check(i), Push(i), Count(i), Settle(i)}
             && i < |s.senders| <= |Next(s, step).senders|
    ensures var x, y := s.senders[i], Next(s, step).senders[i];
            y == x || (step.Route? && x.phase.Unrouted? && y.accepted == y.found && y.done == x.done)
  {
    match step
    case Check(j) => assert j != i;
    case Push(j) => assert j != i;
    case Count(j) => assert j != i;
    case Settle(j) => assert j != i;
    case _ =>
  }

  lemma BystanderVerdict(s: State, step: Step, i: nat)
    requires Locks(s) && Mailed(s) && Verdicts(s) && Enabled(s, step)
    requires step !in {Check(i), Push(i), Count(i), Settle(i)} && i < |s.senders| <= |Next(s, step).senders|
    ensures Verdict(Next(s, step), i)
  {
    assert SenderFits(s, i) && Verdict(s, i);
    TookAllKept(s, step, i);
    BystanderStands(s, step, i);
  }

  lemma SendingCount(s: State, step: Step)
    requires InRange(s, step) && (step.Route? || step.Check? || step.Push? || step.Count? || step.Settle?)
    ensures |Next(s, step).senders| == |s.senders|
  {
  }

  lemma NewcomerUnrouted(s: State, step: Step)
    requires InRange(s, step)
    ensures |s.senders| <= |Next(s, step).senders|
    ensures forall i :: |s.senders| <= i < |Next(s, step).senders| ==> Next(s, step).senders[i].phase.Unrouted?
  {
    if step.Route? || step.Check? || step.Push? || step.Count? || step.Settle? {
      SendingCount(s, step);
    }
  }

  lemma StepKeepsVerdict(s: State, step: Step, i: nat)
    requires Locks(s) && Mailed(s) && Verdicts(s) && Enabled(s, step) && i < |Next(s, step).senders|
    ensures Verdict(Next(s, step), i)
  {
    NewcomerUnrouted(s, step);
    if i < |s.senders| {
      if step in {Check(i), Push(i), Count(i), Settle(i)} {
        MoverVerdict(s, step, i);
      } else {
        BystanderVerdict(s, step, i);
      }
    }
  }

  // ---------------------------------------------------------------------------
  // Every run
  // ---------------------------------------------------------------------------

  ghost predicate Inv(s: State) {
    Locks(s) && Mailed(s) && Verdicts(s) && Counted(s)
  }

  lemma StepKeeps(s: State, step: Step)
    requires Inv(s) && Enabled(s, step)
    ensures Inv(Next(s, step))
  {
    StepKeepsLocks(s, step);
    StepKeepsMail(s, step);
    StepKeepsCounts(s, step);
    forall i | 0 <= i < |Next(s, step).senders| ensures Verdict(Next(s, step), i) {
      StepKeepsVerdict(s, step, i);
    }
  }

  lemma {:induction false} RunKeeps(s: State, steps: seq<Step>)
    requires Inv(s) && Schedule(s, steps)
    ensures Inv(Run(s, steps))
    decreases |steps|
  {
    if steps != [] {
      StepKeeps(s, steps[0]);
      RunKeeps(Next(s, steps[0]), steps[1..]);
    }
  }

  lemma StartInv(mainId: string)
    ensures Inv(Start(mainId))
  {
    var s := Start(mainId);
    assert Log(s.boxes[0]) == [];
    assert Sum(Uncounted(0), s.senders) == 0;
    assert BoxCounted(s, 0);
  }

  /** Whatever a mailbox ever held was journaled by a Send, is no orphan, was meant for that agent,
      and arrived there once; no mailbox ever holds more than its capacity. */
  lemma MailIsJournaledOnce(mainId: string, steps: seq<Step>, b: nat, k: nat)
    requires Schedule(Start(mainId), steps)
    requires var s := Run(Start(mainId), steps); b < |s.boxes| && k < |Log(s.boxes[b])|
    ensures var s := Run(Start(mainId), steps);
            var box, m := s.boxes[b], Log(s.boxes[b])[k];
            && m.send < |s.senders| && s.senders[m.send].at < |s.journal|
            && s.journal[s.senders[m.send].at] == Entry(m.message, false)
            && Addressed(s.mainId, m.message, box.agent)
            && |box.queue| <= CAPACITY
            && forall j :: 0 <= j < |Log(box)| && Log(box)[j].send == m.send ==> j == k
  {
    var s := Run(Start(mainId), steps);
    StartInv(mainId);
    RunKeeps(Start(mainId), steps);
    assert BoxFits(s, s.boxes[b]) && Genuine(s, s.boxes[b], Log(s.boxes[b])[k]);
    assert SenderFits(s, Log(s.boxes[b])[k].send);
  }

  /** Once no Send is between a mailbox's channel and its counter, the counter is what was received
      plus what is waiting. */
  lemma CountersSettle(mainId: string, steps: seq<Step>, b: nat)
    requires Schedule(Start(mainId), steps)
    requires var s := Run(Start(mainId), steps);
             b < |s.boxes| && forall i :: 0 <= i < |s.senders| ==> !s.senders[i].phase.Counting?
    ensures var box := Run(Start(mainId), steps).boxes[b]; box.delivered == |box.received| + |box.queue|
  {
    var s := Run(Start(mainId), steps);
    StartInv(mainId);
    RunKeeps(Start(mainId), steps);
    assert BoxCounted(s, b);
    NobodyThere(s.senders, b);
  }

  /** The broker's own counters: journaled sends, filed orphans, and finished sends that every
      destination took. */
  lemma BrokerCounters(mainId: string, steps: seq<Step>, i: nat)
    requires Schedule(Start(mainId), steps) && i < |Run(Start(mainId), steps).senders|
    ensures var s := Run(Start(mainId), steps);
            && s.sent == |s.senders| && |s.journal| == s.sent + s.orphaned
            && s.delivered == Sum(Succeeded(), s.senders)
            && (s.senders[i].phase.Finished? ==>
                  (Succeeded()(s.senders[i]) == 1 <==> s.senders[i].found && TookAll(s, s.senders[i].done, i)))
  {
    var s := Run(Start(mainId), steps);
    StartInv(mainId);
    RunKeeps(Start(mainId), steps);
    assert Verdict(s, i);
  }

  // ---------------------------------------------------------------------------
  // Order
  // ---------------------------------------------------------------------------

  /** A Send that will not touch a mailbox any more. */
  predicate Over(x: Sender) { x.phase.Settling? || x.phase.Finished? }

  function Underway(): Sender -> nat {
    (x: Sender) => if Over(x) then 0 else 1
  }

  /** At no moment of the run are more than `n` Sends underway. */
  ghost predicate Within(n: nat, s: State, steps: seq<Step>)
    requires Schedule(s, steps)
    decreases |steps|
  {
    Sum(Underway(), s.senders) <= n && (steps != [] ==> Within(n, Next(s, steps[0]), steps[1..]))
  }

  ghost predicate InJournalOrder(b: Box) {
    forall j, k :: 0 <= j < k < |Log(b)| ==> Log(b)[j].send < Log(b)[k].send
  }

  ghost predicate Ordered(s: State) {
    && (forall b :: 0 <= b < |s.boxes| ==> InJournalOrder(s.boxes[b]))
    && (forall i :: 0 <= i < |s.senders| - 1 ==> Over(s.senders[i]))
  }

  /** The last Send is behind everything already in a log. */
  lemma LastIsBehind(s: State, i: nat)
    requires CanPush(s, i) && Ordered(s) && i == |s.senders| - 1
    ensures InJournalOrder(Next(s, Push(i)).boxes[s.senders[i].todo[0]])
  {
    var at := s.senders[i].todo[0];
    PushedLog(s, i);
    assert BoxFits(s, s.boxes[at]) && InJournalOrder(s.boxes[at]);
    var log := Log(s.boxes[at]);
    forall j | 0 <= j < |log| ensures log[j].send < i {
      assert Genuine(s, s.boxes[at], log[j]) && InLog(s.boxes[at], log[j].send);
    }
  }

  lemma PushOrdered(s: State, i: nat)
    requires Inv(s) && Ordered(s) && Enabled(s, Push(i))
    ensures Ordered(Next(s, Push(i)))
  {
    var at := s.senders[i].todo[0];
    assert i == |s.senders| - 1;
    assert ReaderFits(s, s.senders[i]) && Registered(s, at);
    if |s.boxes[at].queue| < CAPACITY {
      LastIsBehind(s, i);
    }
    assert forall b :: 0 <= b < |s.boxes| ==> InJournalOrder(s.boxes[b]);
  }

  /** Steps that leave every log alone. */
  lemma StillOrdered(s: State, t: State)
    requires Ordered(s) && |s.boxes| <= |t.boxes|
    requires forall b :: 0 <= b < |s.boxes| ==> Log(t.boxes[b]) == Log(s.boxes[b])
    requires forall b :: |s.boxes| <= b < |t.boxes| ==> Log(t.boxes[b]) == []
    requires forall i :: 0 <= i < |t.senders| - 1 ==> Over(t.senders[i])
    ensures Ordered(t)
  {
    assert forall b :: 0 <= b < |s.boxes| ==> InJournalOrder(s.boxes[b]);
  }

  lemma {:induction false} NobodyUnderway(xs: seq<Sender>)
    requires Sum(Underway(), xs) == 0
    ensures forall i :: 0 <= i < |xs| ==> Over(xs[i])
  {
    if xs != [] {
      NobodyUnderway(xs[..|xs| - 1]);
    }
  }

  /** A Send that is over stays over; a new one is last. */
  lemma OversStay(s: State, step: Step)
    requires Ordered(s) && Enabled(s, step)
    requires Sum(Underway(), Next(s, step).senders) <= 1
    ensures forall i :: 0 <= i < |Next(s, step).senders| - 1 ==> Over(Next(s, step).senders[i])
  {
    NewcomerUnrouted(s, step);
    var t := Next(s, step);
    if step.Journal? {
      if t.senders != s.senders {
        assert t.senders == s.senders + [t.senders[|s.senders|]];
        SumOneMore(Underway(), s.senders, t.senders[|s.senders|]);
        NobodyUnderway(s.senders);
      }
    } else {
      SendersStay(s, step);
    }
  }

  /** Without a new Send: nobody returns from being over. */
  lemma SendersStay(s: State, step: Step)
    requires Enabled(s, step) && !step.Journal?
    ensures |Next(s, step).senders| == |s.senders|
    ensures forall i :: 0 <= i < |s.senders| && Over(s.senders[i]) ==> Over(Next(s, step).senders[i])
  {
    if step.Route? || step.Check? || step.Push? || step.Count? || step.Settle? {
      MoverStays(s, step);
    }
  }

  lemma MoverStays(s: State, step: Step)
    requires Enabled(s, step) && (step.Route? || step.Check? || step.Push? || step.Count? || step.Settle?)
    ensures |Next(s, step).senders| == |s.senders|
    ensures forall i :: 0 <= i < |s.senders| && Over(s.senders[i]) ==> Over(Next(s, step).senders[i])
  {
    if step.Push? || step.Count? {
      DeliveryStays(s, step);
    }
  }

  lemma DeliveryStays(s: State, step: Step)
    requires Enabled(s, step) && (step.Push? || step.Count?)
    ensures |Next(s, step).senders| == |s.senders|
    ensures forall i :: 0 <= i < |s.senders| && Over(s.senders[i]) ==> Over(Next(s, step).senders[i])
  {
  }

  lemma SerialStep(s: State, step: Step)
    requires Inv(s) && Ordered(s) && Enabled(s, step) && Sum(Underway(), Next(s, step).senders) <= 1
    ensures Ordered(Next(s, step))
  {
    if step.Push? {
      PushOrdered(s, step.send);
    } else {
      OversStay(s, step);
      LogsAlone(s, step);
      StillOrdered(s, Next(s, step));
    }
  }

  lemma {:induction false} SerialRunsKeepOrder(s: State, steps: seq<Step>)
    requires Inv(s) && Ordered(s) && Schedule(s, steps) && Within(1, s, steps)
    ensures Ordered(Run(s, steps))
    decreases |steps|
  {
    if steps != [] {
      SerialStep(s, steps[0]);
      StepKeeps(s, steps[0]);
      SerialRunsKeepOrder(Next(s, steps[0]), steps[1..]);
    }
  }

  lemma RunCons(s: State, step: Step, rest: seq<Step>)
    requires Enabled(s, step) && Schedule(Next(s, step), rest)
    ensures Schedule(s, [step] + rest) && Run(s, [step] + rest) == Run(Next(s, step), rest)
  {
    assert ([step] + rest)[1..] == rest;
  }

  function Note(body: string): Message { Message("worker", "main", "note", body) }

  /** Two Sends on their way at once: journaled in one order, routed in the other. */
  function Overtaking(mainId: string): State {
    var s := Start(mainId);
    var x := Sender(0, Note("1"), Counting(true), [0], [], true, true);
    var y := Sender(1, Note("2"), Counting(true), [0], [], true, true);
    s.(journal := [Entry(Note("1"), false), Entry(Note("2"), false)], senders := [x, y], sent := 2,
    boxes := [NewBox(mainId).(queue := [Mail(1, Note("2")), Mail(0, Note("1"))])])
  }

  /** Both journaled, neither routed. */
  function Waiting(mainId: string): State {
    Start(mainId).(journal := [Entry(Note("1"), false), Entry(Note("2"), false)], sent := 2,
    senders := [Sender(0, Note("1"), Unrouted, [], [], false, false),
                Sender(1, Note("2"), Unrouted, [], [], false, false)])
  }

  lemma NoteSendable(body: string)
    ensures Sendable(Note(body))
  {
    assert "worker"[0] == 'w' && "main"[0] == 'm' && "note"[0] == 'n';
  }

  const JOURNALED: seq<Step> := [Journal(Note("1"), true), Journal(Note("2"), true)]
  const ROUTED: seq<Step> := [Route(1, [0]), Check(1), Push(1)] + [Route(0, [0]), Check(0), Push(0)]

  lemma BothJournaled(mainId: string)
    ensures Schedule(Start(mainId), JOURNALED) && Run(Start(mainId), JOURNALED) == Waiting(mainId)
  {
    var first, second := Note("1"), Note("2");
    NoteSendable("1");
    NoteSendable("2");
    var s0 := Start(mainId);
    var s1 := Next(s0, Journal(first, true));
    RunCons(s1, Journal(second, true), []);
    RunCons(s0, Journal(first, true), [Journal(second, true)] + []);
    assert [Journal(first, true)] + ([Journal(second, true)] + []) == JOURNALED;
  }

  lemma BothRouted(mainId: string)
    ensures Schedule(Waiting(mainId), ROUTED) && Run(Waiting(mainId), ROUTED) == Overtaking(mainId)
  {
    var s0 := Waiting(mainId);
    DeliveredNow(s0, 1);
    var s1 := Run(s0, [Route(1, [0]), Check(1), Push(1)]);
    DeliveredNow(s1, 0);
    var s2, o := Run(s1, [Route(0, [0]), Check(0), Push(0)]), Overtaking(mainId);
    assert s2.boxes[0].queue == [Mail(1, Note("2")), Mail(0, Note("1"))];
    assert s2.senders == o.senders && s2.boxes == o.boxes;
    RunConcat(s0, [Route(1, [0]), Check(1), Push(1)], [Route(0, [0]), Check(0), Push(0)]);
  }

  /** Two Sends underway are enough for a mailbox to hold messages in another order than the
      journal. */
  lemma MailboxMayReorder(mainId: string)
    ensures Schedule(Start(mainId), JOURNALED + ROUTED) && Run(Start(mainId), JOURNALED + ROUTED) == Overtaking(mainId)
    ensures !InJournalOrder(Overtaking(mainId).boxes[0])
  {
    BothJournaled(mainId);
    BothRouted(mainId);
    RunConcat(Start(mainId), JOURNALED, ROUTED);
    var log := Log(Overtaking(mainId).boxes[0]);
    assert log == [Mail(1, Note("2")), Mail(0, Note("1"))];
    assert log[0].send == 1 && log[1].send == 0;
  }

  lemma {:induction false} UnderwayAtMost(xs: seq<Sender>)
    ensures Sum(Underway(), xs) <= |xs|
  {
    if xs != [] {
      UnderwayAtMost(xs[..|xs| - 1]);
    }
  }

  /** No more Sends are underway than there ever were. */
  lemma {:induction false} FewSends(n: nat, s: State, steps: seq<Step>)
    requires Schedule(s, steps) && |Run(s, steps).senders| <= n
    ensures |s.senders| <= n && Within(n, s, steps)
    decreases |steps|
  {
    if steps != [] {
      FewSends(n, Next(s, steps[0]), steps[1..]);
      NewcomerUnrouted(s, steps[0]);
    }
    UnderwayAtMost(s.senders);
  }

  /** With at most `n` Sends underway at any moment, every mailbox receives in journal order over all
      runs exactly when `n` is one. */
  lemma OrderedIffSerial(mainId: string, n: nat)
    requires n >= 1
    ensures (forall steps :: Schedule(Start(mainId), steps) && Within(n, Start(mainId), steps) ==>
               forall b :: 0 <= b < |Run(Start(mainId), steps).boxes| ==>
                 InJournalOrder(Run(Start(mainId), steps).boxes[b]))
            <==> n == 1
  {
    var s := Start(mainId);
    if n == 1 {
      StartInv(mainId);
      forall steps | Schedule(s, steps) && Within(n, s, steps) ensures Ordered(Run(s, steps)) {
        SerialRunsKeepOrder(s, steps);
      }
    } else {
      MailboxMayReorder(mainId);
      FewSends(n, s, JOURNALED + ROUTED);
    }
  }

  lemma {:induction false} RunConcat(s: State, a: seq<Step>, b: seq<Step>)
    requires Schedule(s, a) && Schedule(Run(s, a), b)
    ensures Schedule(s, a + b) && Run(s, a + b) == Run(Run(s, a), b)
    decreases |a|
  {
    if a == [] {
      assert a + b == b;
    } else {
      assert (a + b)[0] == a[0] && (a + b)[1..] == a[1..] + b;
      RunConcat(Next(s, a[0]), a[1..], b);
    }
  }

  /** One mailbox, open and with room, for a message to the main agent. */
  ghost predicate Ready(s: State, i: nat) {
    && At(s, i, Unrouted) && s.writer.None? && Lists(s, [0]) && |s.boxes| == 1
    && s.mainId in s.registry && s.registry[s.mainId] == 0 && s.senders[i].message.to == MAIN
    && !s.boxes[0].closed && !s.boxes[0].shut && |s.boxes[0].queue| < CAPACITY
  }

  function Routed(s: State, i: nat, phase: Phase): State
    requires i < |s.senders|
  {
    WithSender(s, i, s.senders[i].(phase := phase, todo := [0], found := true, accepted := true))
  }

  function Arrived(s: State, i: nat): State
    requires i < |s.senders| && s.boxes != []
  {
    var box := s.boxes[0];
    Routed(s, i, Counting(true)).(boxes := [box.(queue := box.queue + [Mail(i, s.senders[i].message)])])
  }

  lemma RoutedNow(s: State, i: nat)
    requires Ready(s, i)
    ensures Next(s, Route(i, [0])) == Routed(s, i, Choosing)
    ensures Enabled(Routed(s, i, Choosing), Check(i)) && Next(Routed(s, i, Choosing), Check(i)) == Routed(s, i, Pushing)
  {
    assert Destinations(s, s.senders[i].message, [0]) == [0];
  }

  lemma PushedNow(s: State, i: nat)
    requires Ready(s, i)
    ensures Enabled(Routed(s, i, Pushing), Push(i))
    ensures Next(Routed(s, i, Pushing), Push(i))
            == Arrived(s, i)
  {
    var t := Next(Routed(s, i, Pushing), Push(i));
    assert t.boxes == [s.boxes[0].(queue := s.boxes[0].queue + [Mail(i, s.senders[i].message)])];
    assert t.senders == Routed(s, i, Counting(true)).senders;
  }

  /** Routing one Send to the only mailbox, up to the channel operation. */
  lemma DeliveredNow(s: State, i: nat)
    requires Ready(s, i)
    ensures var steps := [Route(i, [0]), Check(i), Push(i)];
            Schedule(s, steps) && Run(s, steps) == Arrived(s, i)
  {
    RoutedNow(s, i);
    PushedNow(s, i);
    RunCons(Routed(s, i, Pushing), Push(i), []);
    RunCons(Routed(s, i, Choosing), Check(i), [Push(i)] + []);
    RunCons(s, Route(i, [0]), [Check(i)] + ([Push(i)] + []));
    assert [Route(i, [0])] + ([Check(i)] + ([Push(i)] + [])) == [Route(i, [0]), Check(i), Push(i)];
  }
}
