/** The write buffer under concurrency (internal/engine/storage/writebuffer.go): appenders, any
    number of drains and the Run goroutine interleave at every lock boundary. */
module WriteBufferRuns {
  import opened Common
  import opened WriteBuffer

  /** What became of a stretch of the append history once it left the queue. `reached` counts the
      sinks that have taken the batch. */
  datatype Fate = Dropped | InFlight | Writing(reached: nat) | Written | Failed(reached: nat)

  datatype Segment = Segment(records: seq<Record>, fate: Fate)

  /** Where the Run goroutine stands: in its select, about to take the queue, writing what it took,
      about to look at the queue again, about to mark the buffer closed, or returned. */
  datatype RunPhase = Selecting | Taking | Draining(segment: nat) | Checking | Closing | Ended

  /** `segments` is the history up to the queue, in append order; `order` lists the segments that
      have held the write lock, oldest first; `wakers` counts appenders between unlocking and
      their call of `wake`. */
  datatype System = System(
    limits: Limits, queue: Queue, history: seq<Record>, segments: seq<Segment>,
    order: seq<nat>, lock: Option<nat>, sinks: seq<seq<Record>>,
    signal: bool, wakers: nat, run: RunPhase, final: bool)

  function Start(l: Limits, sinks: nat): System {
    System(l, EMPTY, [], [], [], None, seq(sinks, i => []), false, 0, Selecting, false)
  }

  datatype Step =
    | Append(record: Record)
    | Wake
    | Take                     // the locked part of a drain by any caller other than Run
    | Acquire(segment: nat)    // a drain gets the write lock
    | Write(segment: nat)      // one sink takes the batch
    | Refuse(segment: nat)     // one sink refuses it, and the drain gives up
    | Release(segment: nat)
    | RunSignal | RunTick | RunCancel | RunTake | RunDrained | RunCheck | RunClose

  predicate Holds(s: System, i: nat) {
    i < |s.segments| && s.lock == Some(i) && s.segments[i].fate.Writing?
  }

  predicate Enabled(s: System, step: Step) {
    match step
    case Append(r) => !s.queue.closed && r.stream != "" && r.kind != ""
    case Wake => s.wakers > 0
    case Take => s.queue.pending != []
    case Acquire(i) => s.lock.None? && i < |s.segments| && s.segments[i].fate.InFlight?
    case Write(i) => Holds(s, i) && s.segments[i].fate.reached < |s.sinks|
    case Refuse(i) => Holds(s, i) && s.segments[i].fate.reached < |s.sinks|
    case Release(i) => Holds(s, i) && s.segments[i].fate.reached == |s.sinks|
    case RunSignal => s.run.Selecting? && s.signal
    case RunTick => s.run.Selecting?
    case RunCancel => s.run.Selecting?
    case RunTake => s.run.Taking?
    case RunDrained =>
      s.run.Draining? && s.run.segment < |s.segments|
      && (s.segments[s.run.segment].fate.Written? || s.segments[s.run.segment].fate.Failed?)
    case RunCheck => s.run.Checking?
    case RunClose => s.run.Closing?
  }

  function AppendStep(s: System, r: Record): System {
    var n := Discards(s.queue, s.limits, Stamped(s.queue, r));
    var all := s.queue.pending + [Stamped(s.queue, r)];
    var after := Admit(s.queue, s.limits, r);
    s.(queue := after, history := s.history + [Stamped(s.queue, r)],
       segments := s.segments + (if n > 0 then [Segment(all[..n], Dropped)] else []),
       wakers := s.wakers + if Full(after, s.limits) || Overflows(s.queue, s.limits, r) then 1 else 0)
  }

  function TakeStep(s: System): System {
    s.(queue := s.queue.(pending := [], bytes := 0), segments := s.segments + [Segment(s.queue.pending, InFlight)])
  }

  function Decide(s: System, i: nat, fate: Fate): System
    requires i < |s.segments|
  {
    s.(segments := s.segments[i := s.segments[i].(fate := fate)])
  }

  function WriteStep(s: System, i: nat): System
    requires Enabled(s, Write(i))
  {
    var k := s.segments[i].fate.reached;
    Decide(s, i, Writing(k + 1)).(sinks := s.sinks[k := s.sinks[k] + s.segments[i].records])
  }

  function Next(s: System, step: Step): System
    requires Enabled(s, step)
  {
    match step
    case Append(r) => AppendStep(s, r)
    case Wake => s.(signal := true, wakers := s.wakers - 1)
    case Take => TakeStep(s)
    case Acquire(i) => Decide(s, i, Writing(0)).(lock := Some(i), order := s.order + [i])
    case Write(i) => WriteStep(s, i)
    case Refuse(i) => Decide(s, i, Failed(s.segments[i].fate.reached)).(lock := None)
    case Release(i) => Decide(s, i, Written).(lock := None)
    case RunSignal => s.(signal := false, run := Taking)
    case RunTick => s.(run := Taking)
    case RunCancel => s.(run := Taking, final := true)
    case RunTake => if s.queue.pending == [] then s.(run := Checking) else TakeStep(s).(run := Draining(|s.segments|))
    case RunDrained =>
      s.(run := if s.segments[s.run.segment].fate.Written? then Checking else if s.final then Closing else Ended)
    case RunCheck => s.(run := if s.queue.pending != [] then Taking else if s.final then Closing else Selecting)
    case RunClose => s.(queue := s.queue.(closed := true), run := Ended)
  }

  predicate Schedule(s: System, steps: seq<Step>)
    decreases |steps|
  {
    steps == [] || (Enabled(s, steps[0]) && Schedule(Next(s, steps[0]), steps[1..]))
  }

  function Run(s: System, steps: seq<Step>): System
    requires Schedule(s, steps)
    decreases |steps|
  {
    if steps == [] then s else Run(Next(s, steps[0]), steps[1..])
  }

  // ---------------------------------------------------------------------------
  // Logs
  // ---------------------------------------------------------------------------

  /** Sequence numbers grow along every stream. */
  ghost predicate Increasing(log: seq<Record>) {
    forall i, j :: 0 <= i < j < |log| && log[i].stream == log[j].stream ==> log[i].seqNo < log[j].seqNo
  }

  /** Every record of `a` precedes every record of `b` on its stream. */
  ghost predicate Before(a: seq<Record>, b: seq<Record>) {
    forall x, y :: x in a && y in b && x.stream == y.stream ==> x.seqNo < y.seqNo
  }

  function Flat(segments: seq<Segment>): seq<Record> {
    if segments == [] then [] else Flat(segments[..|segments| - 1]) + segments[|segments| - 1].records
  }

  /** Whether sink `k` has taken the batch. */
  predicate Reached(fate: Fate, k: nat) {
    fate.Written? || ((fate.Writing? || fate.Failed?) && fate.reached > k)
  }

  /** What sink `k` holds: the batches it has taken, in write-lock order. */
  function Received(segments: seq<Segment>, order: seq<nat>, k: nat): seq<Record> {
    if order == [] then []
    else
      var rest := Received(segments, order[..|order| - 1], k);
      var i := order[|order| - 1];
      if i < |segments| && Reached(segments[i].fate, k) then rest + segments[i].records else rest
  }

  // ---------------------------------------------------------------------------
  // The invariant
  // ---------------------------------------------------------------------------

  /** The history splits, in append order and with nothing lost or repeated, into segments of
      known fate followed by the queue. */
  ghost predicate Conserved(s: System) {
    && s.history == Flat(s.segments) + s.queue.pending
    && QueueOk(s.queue, s.limits) && Positive(s.limits)
    && Increasing(s.history) && Numbered(s.history, s.queue.last)
  }

  /** The lock is held by the one segment being written, which is the last to have entered. */
  ghost predicate Locked(s: System) {
    && Distinct(s.order)
    && (forall i: nat :: i in s.order <==>
          i < |s.segments| && !s.segments[i].fate.Dropped? && !s.segments[i].fate.InFlight?)
    && (forall i :: 0 <= i < |s.segments| && s.segments[i].fate.Writing? ==> s.lock == Some(i))
    && (s.lock.Some? ==> Holds(s, s.lock.value) && s.order != [] && s.order[|s.order| - 1] == s.lock.value)
    && (forall i :: 0 <= i < |s.segments| && (s.segments[i].fate.Writing? || s.segments[i].fate.Failed?) ==>
          s.segments[i].fate.reached <= |s.sinks|)
  }

  ghost predicate Logged(s: System) {
    forall k :: 0 <= k < |s.sinks| ==> s.sinks[k] == Received(s.segments, s.order, k)
  }

  /** A queue at a watermark always has something coming to empty it: the signal holds a token,
      an appender is on its way to `wake`, or Run has woken and not yet taken the queue. */
  ghost predicate WillDrain(s: System) {
    Full(s.queue, s.limits) ==> s.signal || s.wakers > 0 || s.run.Taking?
  }

  ghost predicate Inv(s: System) {
    Conserved(s) && Locked(s) && Logged(s) && WillDrain(s)
  }

  // ---------------------------------------------------------------------------
  // Every step keeps it
  // ---------------------------------------------------------------------------

  lemma FlatOne(segments: seq<Segment>, x: Segment)
    ensures Flat(segments + [x]) == Flat(segments) + x.records
  {
    assert (segments + [x])[..|segments|] == segments;
  }

  lemma {:induction false} FlatSame(a: seq<Segment>, b: seq<Segment>)
    requires |a| == |b| && forall i :: 0 <= i < |a| ==> a[i].records == b[i].records
    ensures Flat(a) == Flat(b)
  {
    if a != [] {
      FlatSame(a[..|a| - 1], b[..|b| - 1]);
    }
  }

  lemma {:induction false} ReceivedSame(a: seq<Segment>, b: seq<Segment>, order: seq<nat>, k: nat)
    requires |a| <= |b|
    requires forall i :: i in order ==>
             i < |a| && a[i].records == b[i].records && (Reached(a[i].fate, k) <==> Reached(b[i].fate, k))
    ensures Received(a, order, k) == Received(b, order, k)
  {
    if order != [] {
      ReceivedSame(a, b, order[..|order| - 1], k);
    }
  }

  lemma Rejoin<T>(front: seq<T>, all: seq<T>, n: nat)
    requires n <= |all|
    ensures front + all[..n] + all[n..] == front + all
  {
  }

  lemma AppendSplitsHistory(s: System, r: Record)
    requires s.history == Flat(s.segments) + s.queue.pending
    ensures var c := AppendStep(s, r); c.history == Flat(c.segments) + c.queue.pending
  {
    var x := Stamped(s.queue, r);
    var n, all := Discards(s.queue, s.limits, x), s.queue.pending + [x];
    var front := Flat(s.segments);
    Associates(front, s.queue.pending, [x]);
    Rejoin(front, all, n);
    if n > 0 {
      FlatOne(s.segments, Segment(all[..n], Dropped));
    } else {
      assert s.segments + [] == s.segments && front + all[..0] == front;
    }
  }

  lemma AppendKeepsHistory(s: System, r: Record)
    requires Conserved(s)
    ensures Conserved(AppendStep(s, r))
  {
    AppendSplitsHistory(s, r);
    AdmitKeepsQueue(s.queue, s.limits, r);
    AdmitNumbers(s.history, s.queue.last, Stamped(s.queue, r));
    AppendIncreases(s.history, s.queue.last, Stamped(s.queue, r));
  }

  lemma AppendIncreases(rs: seq<Record>, last: map<string, nat>, x: Record)
    requires Increasing(rs) && Numbered(rs, last)
    requires x.seqNo == (if x.stream in last then last[x.stream] else 0) + 1
    ensures Increasing(rs + [x])
  {
  }

  lemma AppendKeeps(s: System, r: Record)
    requires Inv(s) && Enabled(s, Append(r))
    ensures Inv(AppendStep(s, r))
  {
    var c := AppendStep(s, r);
    AppendKeepsHistory(s, r);
    assert forall i :: 0 <= i < |s.segments| ==> c.segments[i] == s.segments[i];
    forall k | 0 <= k < |s.sinks| ensures c.sinks[k] == Received(c.segments, c.order, k) {
      ReceivedSame(s.segments, c.segments, s.order, k);
    }
  }

  lemma TakeKeeps(s: System)
    requires Inv(s)
    ensures Inv(TakeStep(s))
  {
    var c := TakeStep(s);
    FlatOne(s.segments, Segment(s.queue.pending, InFlight));
    assert c.history == Flat(c.segments) + [];
    assert forall i :: 0 <= i < |s.segments| ==> c.segments[i] == s.segments[i];
    forall k | 0 <= k < |s.sinks| ensures c.sinks[k] == Received(c.segments, c.order, k) {
      ReceivedSame(s.segments, c.segments, s.order, k);
    }
  }

  lemma AcquireLocks(s: System, i: nat)
    requires Locked(s) && Enabled(s, Acquire(i))
    ensures Locked(Next(s, Acquire(i)))
  {
    var c := Next(s, Acquire(i));
    assert i !in s.order;
    assert forall j :: j in c.order <==> j in s.order || j == i;
  }

  lemma AcquireLogs(s: System, i: nat)
    requires Locked(s) && Logged(s) && Enabled(s, Acquire(i))
    ensures Logged(Next(s, Acquire(i)))
  {
    var c := Next(s, Acquire(i));
    assert i !in s.order;
    forall k | 0 <= k < |s.sinks| ensures c.sinks[k] == Received(c.segments, c.order, k) {
      ReceivedSame(s.segments, c.segments, s.order, k);
      assert c.order[..|c.order| - 1] == s.order;
    }
  }

  lemma AcquireKeeps(s: System, i: nat)
    requires Inv(s) && Enabled(s, Acquire(i))
    ensures Inv(Next(s, Acquire(i)))
  {
    FlatSame(s.segments, Next(s, Acquire(i)).segments);
    AcquireLocks(s, i);
    AcquireLogs(s, i);
  }

  /** The segment being written is the last in lock order, and no other sits at its place. */
  lemma WriterIsLast(s: System, i: nat)
    requires Locked(s) && Holds(s, i)
    ensures s.order != [] && s.order[|s.order| - 1] == i && i !in s.order[..|s.order| - 1]
  {
  }

  lemma WriteLogs(s: System, i: nat, k: nat)
    requires Locked(s) && Logged(s) && Enabled(s, Write(i)) && k < |s.sinks|
    ensures Next(s, Write(i)).sinks[k] == Received(Next(s, Write(i)).segments, s.order, k)
  {
    var c, head := Next(s, Write(i)), s.order[..|s.order| - 1];
    WriterIsLast(s, i);
    forall j | j in head ensures j in s.order && j != i {
      var m :| 0 <= m < |head| && head[m] == j;
      assert s.order[m] == j;
    }
    ReceivedSame(s.segments, c.segments, head, k);
  }

  lemma WriteKeeps(s: System, i: nat)
    requires Inv(s) && Enabled(s, Write(i))
    ensures Inv(Next(s, Write(i)))
  {
    var c := Next(s, Write(i));
    FlatSame(s.segments, c.segments);
    forall k | 0 <= k < |s.sinks| ensures c.sinks[k] == Received(c.segments, c.order, k) {
      WriteLogs(s, i, k);
    }
  }

  lemma SettleKeeps(s: System, i: nat, fate: Fate)
    requires Inv(s) && Holds(s, i)
    requires fate == Failed(s.segments[i].fate.reached) || (fate == Written && s.segments[i].fate.reached == |s.sinks|)
    ensures Inv(Decide(s, i, fate).(lock := None))
  {
    var c := Decide(s, i, fate).(lock := None);
    FlatSame(s.segments, c.segments);
    forall k | 0 <= k < |s.sinks| ensures c.sinks[k] == Received(c.segments, c.order, k) {
      ReceivedSame(s.segments, c.segments, s.order, k);
    }
  }

  /** Steps that touch neither the records nor their way to the sinks. */
  lemma SameRecords(s: System, c: System)
    requires Inv(s) && c.history == s.history && c.segments == s.segments && c.order == s.order && c.lock == s.lock
    requires c.sinks == s.sinks && c.limits == s.limits && c.queue == s.queue.(closed := c.queue.closed) && WillDrain(c)
    ensures Inv(c)
  {
    assert QueueOk(c.queue, c.limits);
  }

  predicate OfRun(step: Step) {
    step.RunSignal? || step.RunTick? || step.RunCancel? || step.RunDrained? || step.RunCheck? || step.RunClose?
  }

  lemma RunStepKeeps(s: System, step: Step)
    requires Inv(s) && Enabled(s, step) && OfRun(step)
    ensures Inv(Next(s, step))
  {
    SameRecords(s, Next(s, step));
  }

  lemma RunTakeKeeps(s: System)
    requires Inv(s) && Enabled(s, RunTake)
    ensures Inv(Next(s, RunTake))
  {
    if s.queue.pending == [] {
      SameRecords(s, Next(s, RunTake));
    } else {
      TakeKeeps(s);
      SameRecords(TakeStep(s), Next(s, RunTake));
    }
  }

  lemma StepKeeps(s: System, step: Step)
    requires Inv(s) && Enabled(s, step)
    ensures Inv(Next(s, step))
  {
    if step.Append? {
      AppendKeeps(s, step.record);
    } else if step.Take? {
      TakeKeeps(s);
    } else if step.Acquire? {
      AcquireKeeps(s, step.segment);
    } else if step.Write? {
      WriteKeeps(s, step.segment);
    } else if step.Refuse? {
      SettleKeeps(s, step.segment, Failed(s.segments[step.segment].fate.reached));
    } else if step.Release? {
      SettleKeeps(s, step.segment, Written);
    } else if step.RunTake? {
      RunTakeKeeps(s);
    } else if step.Wake? {
      SameRecords(s, Next(s, Wake));
    } else {
      RunStepKeeps(s, step);
    }
  }

  lemma {:induction false} RunKeeps(s: System, steps: seq<Step>)
    requires Inv(s) && Schedule(s, steps)
    ensures Inv(Run(s, steps))
    decreases |steps|
  {
    if steps != [] {
      StepKeeps(s, steps[0]);
      RunKeeps(Next(s, steps[0]), steps[1..]);
    }
  }

  // ---------------------------------------------------------------------------
  // Results
  // ---------------------------------------------------------------------------

  lemma StartInv(l: Limits, sinks: nat)
    requires Positive(l)
    ensures Inv(Start(l, sinks))
  {
  }

  predicate IsDropped(x: Segment) { x.fate.Dropped? }
  predicate IsInFlight(x: Segment) { x.fate.InFlight? || x.fate.Writing? }
  predicate IsWritten(x: Segment) { x.fate.Written? }
  predicate IsFailed(x: Segment) { x.fate.Failed? }

  /** The records of the segments a predicate selects. */
  function Of(p: Segment -> bool, segments: seq<Segment>): seq<Record> {
    if segments == [] then []
    else
      var x := segments[|segments| - 1];
      Of(p, segments[..|segments| - 1]) + if p(x) then x.records else []
  }

  lemma {:induction false} FatesPartition(segments: seq<Segment>)
    ensures multiset(Flat(segments)) ==
              multiset(Of(IsDropped, segments)) + multiset(Of(IsInFlight, segments)) +
              multiset(Of(IsWritten, segments)) + multiset(Of(IsFailed, segments))
  {
    if segments != [] {
      FatesPartition(segments[..|segments| - 1]);
    }
  }

  /** Conservation over every run: the accepted records are pairwise different, each of them is in
      exactly one of dropped, in flight, written, failed or pending, and what is pending is the
      most recent stretch of the history. */
  lemma EveryRecordIsSomewhere(l: Limits, sinks: nat, steps: seq<Step>)
    requires Positive(l) && Schedule(Start(l, sinks), steps)
    ensures var s := Run(Start(l, sinks), steps);
            && Distinct(s.history)
            && multiset(s.history) ==
                 multiset(Of(IsDropped, s.segments)) + multiset(Of(IsInFlight, s.segments)) +
                 multiset(Of(IsWritten, s.segments)) + multiset(Of(IsFailed, s.segments)) + multiset(s.queue.pending)
            && |s.queue.pending| <= |s.history|
            && s.queue.pending == s.history[|s.history| - |s.queue.pending|..]
            && s.queue.bytes == Sum(Cost, s.queue.pending)
            && (s.queue.bytes <= l.queueBytes || |s.queue.pending| == 1)
  {
    StartInv(l, sinks);
    RunKeeps(Start(l, sinks), steps);
    LimitsFixed(Start(l, sinks), steps);
    var s := Run(Start(l, sinks), steps);
    FatesPartition(s.segments);
  }

  lemma {:induction false} LimitsFixed(s: System, steps: seq<Step>)
    requires Schedule(s, steps)
    ensures Run(s, steps).limits == s.limits && |Run(s, steps).sinks| == |s.sinks|
    decreases |steps|
  {
    if steps != [] {
      LimitsFixed(Next(s, steps[0]), steps[1..]);
    }
  }

  /** No lost wakeup over every run. */
  lemma FullQueueWillDrain(l: Limits, sinks: nat, steps: seq<Step>)
    requires Positive(l) && Schedule(Start(l, sinks), steps)
    ensures WillDrain(Run(Start(l, sinks), steps))
  {
    StartInv(l, sinks);
    RunKeeps(Start(l, sinks), steps);
  }
}
