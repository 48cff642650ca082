/** Messaging between agents (internal/engine/subagent/broker.go, message.go) as a protocol of
    atomic steps: one critical section, one channel operation or one acquisition of the read lock. */
module Broker {
  import opened Common

  datatype Message = Message(sender: string, to: string, kind: string, body: string)

  const BROADCAST := "broadcast"
  const MAIN := "main"
  const CAPACITY: nat := 64

  /** White space as Unicode has it. */
  predicate IsSpace(c: char) {
    || c == ' ' || '\t' <= c <= '\r' || c == '\U{85}' || c == '\U{A0}' || c == '\U{1680}'
    || '\U{2000}' <= c <= '\U{200A}'
    || c == '\U{2028}' || c == '\U{2029}' || c == '\U{202F}' || c == '\U{205F}' || c == '\U{3000}'
  }

  /** White space only: an identifier nobody can address. */
  predicate Blank(s: string) {
    forall k :: 0 <= k < |s| ==> IsSpace(s[k])
  }

  predicate Sendable(m: Message) { !Blank(m.sender) && !Blank(m.to) && !Blank(m.kind) }

  predicate Addressed(mainId: string, m: Message, agent: string) {
    if m.to == BROADCAST then true else if m.to == MAIN then agent == mainId else agent == m.to
  }

  /** A message as a mailbox holds it: which send put it there. */
  datatype Mail = Mail(send: nat, message: Message)

  /** `closed` is the flag `deliver` reads, `shut` whether the channel is closed. `received` is
      history. */
  datatype Box = Box(agent: string, queue: seq<Mail>, received: seq<Mail>, delivered: nat, dropped: nat,
                     closed: bool, shut: bool)

  function NewBox(agent: string): Box { Box(agent, [], [], 0, 0, false, false) }

  /** Everything the mailbox ever took, in order. */
  function Log(b: Box): seq<Mail> { b.received + b.queue }

  /** Where a Send stands: journaled and not yet routed; holding the read lock at the head of its
      loop, past the flag check, or past the channel operation; or having released it. */
  datatype Phase = Unrouted | Choosing | Pushing | Counting(took: bool) | Settling | Finished

  /** `todo` are the mailboxes still to be tried, `done` those already tried (history), and `found`
      whether there was a destination at all. */
  datatype Sender = Sender(at: nat, message: Message, phase: Phase, todo: seq<nat>, done: seq<nat>, found: bool,
                           accepted: bool)

  /** One mailbox being closed: by Unregister, inside the write lock, or by Close, outside it. */
  datatype Stage = Starting | Marked | Done
  datatype Closer = Closer(box: nat, stage: Stage)

  datatype Entry = Entry(message: Message, orphan: bool)

  /** `panicked` stands for a send on a closed channel or a second close of one. */
  datatype State = State(
    mainId: string, registry: map<string, nat>, boxes: seq<Box>, journal: seq<Entry>, senders: seq<Sender>,
    closers: seq<Closer>, writer: Option<nat>, sent: nat, delivered: nat, orphaned: nat, closed: bool, panicked: bool)

  function Start(mainId: string): State {
    State(mainId, map[mainId := 0], [NewBox(mainId)], [], [], [], None, 0, 0, 0, false, false)
  }

  datatype Step =
    | Register(agent: string)
    | Journal(message: Message, ok: bool)        // the first locked part of Send; `ok`: the journal took it
    | Route(send: nat, order: seq<nat>)          // takes the read lock; `order`: map iteration order
    | Check(send: nat)                           // deliver reads the closed flag, or the loop ends
    | Push(send: nat)                            // the channel operation
    | Count(send: nat)                           // the mailbox counter
    | Settle(send: nat)                          // the last locked part of Send
    | Unregister(agent: string)                  // takes the write lock
    | Close(order: seq<nat>)
    | Mark(closer: nat)                          // close sets the flag
    | Shut(closer: nat)                          // close closes the channel
    | Receive(box: nat)
    | FileOrphans(messages: seq<Message>, ok: bool)

  predicate Reading(x: Sender) { x.phase.Choosing? || x.phase.Pushing? || x.phase.Counting? }

  predicate NoReaders(s: State) { forall i :: 0 <= i < |s.senders| ==> !Reading(s.senders[i]) }

  /** Nobody holds the lock in either way. */
  predicate Free(s: State) { s.writer.None? && NoReaders(s) }

  predicate Registered(s: State, b: nat) {
    b < |s.boxes| && s.boxes[b].agent in s.registry && s.registry[s.boxes[b].agent] == b
  }

  /** `order` lists the registered mailboxes, each once. */
  predicate Lists(s: State, order: seq<nat>) {
    && (forall a, b :: 0 <= a < b < |order| ==> order[a] != order[b])
    && (forall k :: 0 <= k < |order| ==> Registered(s, order[k]))
    && (forall agent :: agent in s.registry ==> s.registry[agent] in order)
  }

  predicate At(s: State, i: nat, phase: Phase) { i < |s.senders| && s.senders[i].phase == phase }

  /** The step names things that exist. */
  predicate InRange(s: State, step: Step) {
    match step
    case Route(i, _) => i < |s.senders|
    case Check(i) => i < |s.senders|
    case Push(i) => i < |s.senders| && s.senders[i].todo != [] && s.senders[i].todo[0] < |s.boxes|
    case Count(i) =>
      i < |s.senders| && s.senders[i].phase.Counting? && s.senders[i].todo != [] && s.senders[i].todo[0] < |s.boxes|
    case Settle(i) => i < |s.senders|
    case Mark(c) => c < |s.closers| && s.closers[c].box < |s.boxes|
    case Shut(c) => c < |s.closers| && s.closers[c].box < |s.boxes|
    case Receive(b) => b < |s.boxes| && s.boxes[b].queue != []
    case _ => true
  }

  predicate Enabled(s: State, step: Step) {
    InRange(s, step) &&
    match step
    case Register(_) => Free(s)
    case Journal(_, _) => Free(s)
    case Route(i, order) => At(s, i, Unrouted) && s.writer.None? && Lists(s, order)
    case Check(i) => At(s, i, Choosing)
    case Push(i) => At(s, i, Pushing)
    case Settle(i) => At(s, i, Settling) && (s.senders[i].accepted ==> Free(s))
    case Unregister(_) => Free(s)
    case Close(order) => Free(s) && Lists(s, order)
    case Mark(c) => s.closers[c].stage.Starting?
    case Shut(c) => s.closers[c].stage.Marked?
    case _ => true
  }

  function WithSender(s: State, i: nat, x: Sender): State
    requires i < |s.senders|
  {
    s.(senders := s.senders[i := x])
  }

  function WithBox(s: State, b: nat, x: Box): State
    requires b < |s.boxes|
  {
    s.(boxes := s.boxes[b := x])
  }

  function Destinations(s: State, m: Message, order: seq<nat>): seq<nat> {
    if m.to == BROADCAST then order
    else
      var agent := if m.to == MAIN then s.mainId else m.to;
      if agent in s.registry then [s.registry[agent]] else []
  }

  function RouteStep(s: State, i: nat, order: seq<nat>): State
    requires i < |s.senders|
  {
    var x := s.senders[i];
    var to := Destinations(s, x.message, order);
    var found := x.message.to == BROADCAST || to != [];
    WithSender(s, i, x.(phase := Choosing, todo := to, found := found, accepted := found))
  }

  /** The destination at the head of the loop has been tried. */
  function Tried(x: Sender, took: bool): Sender
    requires x.todo != []
  {
    x.(phase := Choosing, todo := x.todo[1..], done := x.done + [x.todo[0]], accepted := x.accepted && took)
  }

  function CheckStep(s: State, i: nat): State
    requires i < |s.senders|
  {
    var x := s.senders[i];
    if x.todo == [] then WithSender(s, i, x.(phase := Settling))
    else if x.todo[0] < |s.boxes| && s.boxes[x.todo[0]].closed then WithSender(s, i, Tried(x, false))
    else WithSender(s, i, x.(phase := Pushing))
  }

  function PushStep(s: State, i: nat): State
    requires i < |s.senders| && s.senders[i].todo != [] && s.senders[i].todo[0] < |s.boxes|
  {
    var x, b := s.senders[i], s.senders[i].todo[0];
    var box := s.boxes[b];
    if box.shut then s.(panicked := true)
    else if |box.queue| < CAPACITY then
      WithSender(WithBox(s, b, box.(queue := box.queue + [Mail(i, x.message)])), i, x.(phase := Counting(true)))
    else WithSender(s, i, x.(phase := Counting(false)))
  }

  function CountStep(s: State, i: nat): State
    requires i < |s.senders| && s.senders[i].phase.Counting? && s.senders[i].todo != []
             && s.senders[i].todo[0] < |s.boxes|
  {
    var x, b := s.senders[i], s.senders[i].todo[0];
    var box := s.boxes[b];
    var counted := if x.phase.took then box.(delivered := box.delivered + 1) else box.(dropped := box.dropped + 1);
    WithSender(WithBox(s, b, counted), i, Tried(x, x.phase.took))
  }

  function SettleStep(s: State, i: nat): State
    requires i < |s.senders|
  {
    var x := s.senders[i];
    WithSender(s, i, x.(phase := Finished)).(delivered := s.delivered + if x.accepted then 1 else 0)
  }

  function CloseStep(s: State, order: seq<nat>): State {
    if s.closed then s
    else s.(closed := true, registry := map[],
         closers := s.closers + seq(|order|, k requires 0 <= k < |order| => Closer(order[k], Starting)))
  }

  /** The end of one closer; Unregister then releases the write lock. */
  function Ended(s: State, c: nat): State
    requires c < |s.closers|
  {
    s.(closers := s.closers[c := s.closers[c].(stage := Done)],
       writer := if s.writer == Some(c) then None else s.writer)
  }

  function MarkStep(s: State, c: nat): State
    requires c < |s.closers| && s.closers[c].box < |s.boxes|
  {
    var b := s.closers[c].box;
    if s.boxes[b].closed then Ended(s, c)
    else WithBox(s, b, s.boxes[b].(closed := true)).(closers := s.closers[c := Closer(b, Marked)])
  }

  function ShutStep(s: State, c: nat): State
    requires c < |s.closers| && s.closers[c].box < |s.boxes|
  {
    var b := s.closers[c].box;
    if s.boxes[b].shut then s.(panicked := true)
    else Ended(WithBox(s, b, s.boxes[b].(shut := true)), c)
  }

  function Filed(ms: seq<Message>): seq<Entry> {
    seq(|ms|, k requires 0 <= k < |ms| => Entry(ms[k], true))
  }

  function Next(s: State, step: Step): State
    requires InRange(s, step)
  {
    match step
    case Register(agent) =>
      if Blank(agent) || s.closed || agent in s.registry then s
      else s.(boxes := s.boxes + [NewBox(agent)], registry := s.registry[agent := |s.boxes|])
    case Journal(m, ok) =>
      if !Sendable(m) || s.closed || !ok then s
      else s.(journal := s.journal + [Entry(m, false)], sent := s.sent + 1,
           senders := s.senders + [Sender(|s.journal|, m, Unrouted, [], [], false, false)])
    case Route(i, order) => RouteStep(s, i, order)
    case Check(i) => CheckStep(s, i)
    case Push(i) => PushStep(s, i)
    case Count(i) => CountStep(s, i)
    case Settle(i) => SettleStep(s, i)
    case Unregister(agent) =>
      if agent !in s.registry then s
      else s.(registry := s.registry - {agent}, writer := Some(|s.closers|),
           closers := s.closers + [Closer(s.registry[agent], Starting)])
    case Close(order) => CloseStep(s, order)
    case Mark(c) => MarkStep(s, c)
    case Shut(c) => ShutStep(s, c)
    case Receive(b) =>
      var box := s.boxes[b];
      WithBox(s, b, box.(queue := box.queue[1..], received := box.received + [box.queue[0]]))
    case FileOrphans(ms, ok) =>
      if ms == [] || !ok then s
      else s.(journal := s.journal + Filed(ms), orphaned := s.orphaned + |ms|)
  }

  ghost predicate Schedule(s: State, steps: seq<Step>)
    decreases |steps|
  {
    steps == [] || (Enabled(s, steps[0]) && Schedule(Next(s, steps[0]), steps[1..]))
  }

  ghost function Run(s: State, steps: seq<Step>): State
    requires Schedule(s, steps)
    decreases |steps|
  {
    if steps == [] then s else Run(Next(s, steps[0]), steps[1..])
  }

  // ---------------------------------------------------------------------------
  // Lock discipline
  // ---------------------------------------------------------------------------

  ghost predicate Located(s: State) {
    forall agent :: agent in s.registry ==> s.registry[agent] < |s.boxes| && s.boxes[s.registry[agent]].agent == agent
  }

  ghost predicate OpenWhileRegistered(s: State) {
    forall b :: 0 <= b < |s.boxes| && Registered(s, b) ==> !s.boxes[b].closed && !s.boxes[b].shut
  }

  ghost predicate CloserFits(s: State, k: Closer) {
    && k.box < |s.boxes| && !Registered(s, k.box)
    && s.boxes[k.box].closed == !k.stage.Starting?
    && s.boxes[k.box].shut == k.stage.Done?
  }

  /** A mailbox is closed by at most one closer, never while it is registered. */
  ghost predicate ClosersFit(s: State) {
    && (forall c :: 0 <= c < |s.closers| ==> CloserFits(s, s.closers[c]))
    && (forall c, d :: 0 <= c < d < |s.closers| ==> s.closers[c].box != s.closers[d].box)
  }

  /** A Send in its loop tries registered mailboxes, each once. */
  ghost predicate ReaderFits(s: State, x: Sender) {
    Reading(x) ==>
      && s.writer.None?
      && (forall k :: 0 <= k < |x.todo| ==> Registered(s, x.todo[k]))
      && (!x.phase.Choosing? ==> x.todo != [])
  }

  ghost predicate ReadersFit(s: State) {
    forall i :: 0 <= i < |s.senders| ==> ReaderFits(s, s.senders[i])
  }

  ghost predicate Locks(s: State) {
    Located(s) && OpenWhileRegistered(s) && ClosersFit(s) && ReadersFit(s) && !s.panicked
  }

  lemma StartLocks(mainId: string)
    ensures Locks(Start(mainId))
  {
  }

  /** Steps that leave the registry and the mailboxes' flags alone keep the lock discipline of
      every Send but the one that moved. */
  lemma SameFlags(s: State, t: State)
    requires Locks(s) && t.registry == s.registry && |t.boxes| == |s.boxes| && t.closers == s.closers
             && t.panicked == s.panicked
    requires forall b :: 0 <= b < |s.boxes| ==>
               && t.boxes[b].agent == s.boxes[b].agent && t.boxes[b].closed == s.boxes[b].closed
               && t.boxes[b].shut == s.boxes[b].shut
    ensures Located(t) && OpenWhileRegistered(t) && ClosersFit(t) && !t.panicked
    ensures forall b: nat :: Registered(t, b) <==> Registered(s, b)
  {
    assert forall b: nat :: Registered(t, b) <==> Registered(s, b);
  }

  lemma RegisterLocks(s: State, agent: string)
    requires Locks(s) && Enabled(s, Register(agent))
    ensures Locks(Next(s, Register(agent)))
  {
    var t := Next(s, Register(agent));
    if t != s {
      assert forall b: nat :: b < |s.boxes| ==> (Registered(t, b) <==> Registered(s, b));
      assert forall c :: 0 <= c < |s.closers| ==> CloserFits(t, t.closers[c]);
    }
  }

  /** A step of one Send. */
  lemma SenderLocks(s: State, t: State, i: nat)
    requires Locks(s) && i < |s.senders| && |t.senders| == |s.senders| && t.senders == s.senders[i := t.senders[i]]
    requires t.registry == s.registry && |t.boxes| == |s.boxes| && t.closers == s.closers && t.writer == s.writer
             && !t.panicked
    requires forall b :: 0 <= b < |s.boxes| ==>
               && t.boxes[b].agent == s.boxes[b].agent && t.boxes[b].closed == s.boxes[b].closed
               && t.boxes[b].shut == s.boxes[b].shut
    requires ReaderFits(s, t.senders[i])
    ensures Locks(t)
  {
    SameFlags(s, t);
    forall j | 0 <= j < |t.senders| ensures ReaderFits(t, t.senders[j]) {
      assert j != i ==> ReaderFits(s, s.senders[j]);
      assert ReaderFits(s, t.senders[j]);
    }
  }

  lemma DestinationsRegistered(s: State, m: Message, order: seq<nat>)
    requires Located(s) && Lists(s, order)
    ensures forall k :: 0 <= k < |Destinations(s, m, order)| ==> Registered(s, Destinations(s, m, order)[k])
  {
  }

  lemma RouteLocks(s: State, i: nat, order: seq<nat>)
    requires Locks(s) && i < |s.senders| && s.writer.None? && Lists(s, order)
    ensures Locks(RouteStep(s, i, order))
  {
    DestinationsRegistered(s, s.senders[i].message, order);
    SenderLocks(s, RouteStep(s, i, order), i);
  }

  lemma TriedFits(s: State, x: Sender, took: bool)
    requires Reading(x) && ReaderFits(s, x) && x.todo != []
    ensures ReaderFits(s, Tried(x, took))
  {
    assert forall k :: 0 < k < |x.todo| ==> x.todo[1..][k - 1] == x.todo[k];
  }

  lemma CheckLocks(s: State, i: nat)
    requires Locks(s) && At(s, i, Choosing)
    ensures Locks(CheckStep(s, i))
  {
    var x := s.senders[i];
    assert ReaderFits(s, x);
    if x.todo != [] {
      TriedFits(s, x, false);
    }
    SenderLocks(s, CheckStep(s, i), i);
  }

  lemma PushLocks(s: State, i: nat)
    requires Locks(s) && Enabled(s, Push(i))
    ensures Locks(PushStep(s, i))
  {
    assert ReaderFits(s, s.senders[i]) && Registered(s, s.senders[i].todo[0]);
    SenderLocks(s, PushStep(s, i), i);
  }

  lemma CountLocks(s: State, i: nat)
    requires Locks(s) && Enabled(s, Count(i))
    ensures Locks(CountStep(s, i))
  {
    var x := s.senders[i];
    assert ReaderFits(s, x);
    TriedFits(s, x, x.phase.took);
    SenderLocks(s, CountStep(s, i), i);
  }

  lemma SettleLocks(s: State, i: nat)
    requires Locks(s) && i < |s.senders|
    ensures Locks(SettleStep(s, i))
  {
    SenderLocks(s, SettleStep(s, i), i);
  }

  lemma JournalLocks(s: State, m: Message, ok: bool)
    requires Locks(s) && Enabled(s, Journal(m, ok))
    ensures Locks(Next(s, Journal(m, ok)))
  {
    var t := Next(s, Journal(m, ok));
    SameFlags(s, t);
    forall i | 0 <= i < |t.senders| ensures ReaderFits(t, t.senders[i]) {
      assert i < |s.senders| ==> ReaderFits(s, s.senders[i]);
    }
  }

  lemma UnregisterLocks(s: State, agent: string)
    requires Locks(s) && Enabled(s, Unregister(agent))
    ensures Locks(Next(s, Unregister(agent)))
  {
    var t := Next(s, Unregister(agent));
    if t != s {
      assert forall b: nat :: Registered(t, b) <==> Registered(s, b) && b != s.registry[agent];
      forall c | 0 <= c < |t.closers| ensures CloserFits(t, t.closers[c]) {
        assert c < |s.closers| ==> CloserFits(s, s.closers[c]);
        assert Registered(s, s.registry[agent]);
      }
    }
  }

  lemma CloseLocks(s: State, order: seq<nat>)
    requires Locks(s) && Enabled(s, Close(order))
    ensures Locks(Next(s, Close(order)))
  {
    var t := Next(s, Close(order));
    if t != s {
      forall c | 0 <= c < |t.closers| ensures CloserFits(t, t.closers[c]) {
        assert c < |s.closers| ==> CloserFits(s, s.closers[c]);
        assert c >= |s.closers| ==> Registered(s, order[c - |s.closers|]);
      }
      forall c, d | 0 <= c < d < |t.closers| ensures t.closers[c].box != t.closers[d].box {
        assert c < |s.closers| ==> CloserFits(s, s.closers[c]);
        assert d >= |s.closers| ==> Registered(s, order[d - |s.closers|]);
      }
    }
  }

  lemma ClosingLocks(s: State, step: Step)
    requires Locks(s) && Enabled(s, step) && (step.Mark? || step.Shut?)
    ensures Locks(Next(s, step))
  {
    var t, c := Next(s, step), step.closer;
    assert CloserFits(s, s.closers[c]);
    assert forall b: nat :: Registered(t, b) <==> Registered(s, b);
    forall d | 0 <= d < |t.closers| ensures CloserFits(t, t.closers[d]) {
      assert CloserFits(s, s.closers[d]);
    }
    forall i | 0 <= i < |t.senders| ensures ReaderFits(t, t.senders[i]) {
      assert ReaderFits(s, s.senders[i]);
    }
  }

  lemma OutsideLocks(s: State, step: Step)
    requires Locks(s) && Enabled(s, step) && (step.Receive? || step.FileOrphans?)
    ensures Locks(Next(s, step))
  {
    var t := Next(s, step);
    SameFlags(s, t);
    forall i | 0 <= i < |t.senders| ensures ReaderFits(t, t.senders[i]) {
      assert ReaderFits(s, s.senders[i]);
    }
  }

  /** No step ever sends on a closed channel or closes one twice, and the discipline that prevents
      it is kept. */
  lemma StepKeepsLocks(s: State, step: Step)
    requires Locks(s) && Enabled(s, step)
    ensures Locks(Next(s, step))
  {
    match step
    case Register(agent) => RegisterLocks(s, agent);
    case Journal(m, ok) => JournalLocks(s, m, ok);
    case Unregister(agent) => UnregisterLocks(s, agent);
    case Close(order) => CloseLocks(s, order);
    case Mark(_) => ClosingLocks(s, step);
    case Shut(_) => ClosingLocks(s, step);
    case Receive(_) => OutsideLocks(s, step);
    case FileOrphans(_, _) => OutsideLocks(s, step);
    case Route(i, order) => RouteLocks(s, i, order);
    case Check(i) => CheckLocks(s, i);
    case Push(i) => PushLocks(s, i);
    case Count(i) => CountLocks(s, i);
    case Settle(i) => SettleLocks(s, i);
  }

  lemma {:induction false} RunKeepsLocks(s: State, steps: seq<Step>)
    requires Locks(s) && Schedule(s, steps)
    ensures Locks(Run(s, steps))
    decreases |steps|
  {
    if steps != [] {
      StepKeepsLocks(s, steps[0]);
      RunKeepsLocks(Next(s, steps[0]), steps[1..]);
    }
  }

  /** Whatever is sent, closed and received, in whatever order the steps fall. */
  lemma NeverPanics(mainId: string, steps: seq<Step>)
    requires Schedule(Start(mainId), steps)
    ensures Locks(Run(Start(mainId), steps)) && !Run(Start(mainId), steps).panicked
  {
    StartLocks(mainId);
    RunKeepsLocks(Start(mainId), steps);
  }
}
