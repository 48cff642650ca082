/** Order at the sinks of the write buffer: when every sink holds the same log, exactly when that
    log keeps each stream in sequence, and what closing leaves behind. */
module WriteBufferOrder {
  import opened Common
  import opened WriteBuffer
  import opened WriteBufferRuns

  // ---------------------------------------------------------------------------
  // One log for every sink
  // ---------------------------------------------------------------------------

  ghost predicate NoFailure(s: System) {
    forall i :: 0 <= i < |s.segments| ==> !s.segments[i].fate.Failed?
  }

  /** With no sink error, a later sink is never ahead of an earlier one: at any moment, and so
      after a crash at any moment, its log is a prefix of the earlier sink's; between writes the
      logs are equal. */
  lemma LaterSinkIsPrefix(s: System, j: nat, k: nat)
    requires Inv(s) && NoFailure(s) && j <= k < |s.sinks|
    ensures s.sinks[k] <= s.sinks[j]
    ensures s.lock.None? ==> s.sinks[k] == s.sinks[j]
  {
    if s.order != [] {
      var head := s.order[..|s.order| - 1];
      forall m | 0 <= m < |head| ensures head[m] < |s.segments| && s.segments[head[m]].fate.Written? {
        assert s.order[m] in s.order;
      }
      SettledAlike(s.segments, head, j, k);
      assert s.order[|s.order| - 1] in s.order;
    }
  }

  lemma {:induction false} SettledAlike(segments: seq<Segment>, order: seq<nat>, j: nat, k: nat)
    requires forall m :: 0 <= m < |order| ==> order[m] < |segments| && segments[order[m]].fate.Written?
    ensures Received(segments, order, j) == Received(segments, order, k)
  {
    if order != [] {
      SettledAlike(segments, order[..|order| - 1], j, k);
    }
  }

  lemma {:induction false} NoRefusalNoFailure(s: System, steps: seq<Step>)
    requires NoFailure(s) && Schedule(s, steps)
    requires forall i :: 0 <= i < |steps| ==> !steps[i].Refuse?
    ensures NoFailure(Run(s, steps))
    decreases |steps|
  {
    if steps != [] {
      NoRefusalNoFailure(Next(s, steps[0]), steps[1..]);
    }
  }

  lemma SinksAgree(l: Limits, sinks: nat, steps: seq<Step>, j: nat, k: nat)
    requires Positive(l) && j <= k < sinks && Schedule(Start(l, sinks), steps)
    requires forall i :: 0 <= i < |steps| ==> !steps[i].Refuse?
    ensures var s := Run(Start(l, sinks), steps);
            |s.sinks| == sinks && s.sinks[k] <= s.sinks[j] && (s.lock.None? ==> s.sinks[k] == s.sinks[j])
  {
    StartInv(l, sinks);
    RunKeeps(Start(l, sinks), steps);
    LimitsFixed(Start(l, sinks), steps);
    NoRefusalNoFailure(Start(l, sinks), steps);
    LaterSinkIsPrefix(Run(Start(l, sinks), steps), j, k);
  }

  // ---------------------------------------------------------------------------
  // Sequence order
  // ---------------------------------------------------------------------------

  lemma IncreasingSplit(a: seq<Record>, b: seq<Record>)
    ensures Increasing(a + b) <==> Increasing(a) && Increasing(b) && Before(a, b)
  {
    var c := a + b;
    if Increasing(c) {
      assert forall i :: 0 <= i < |a| ==> c[i] == a[i];
      assert forall i :: 0 <= i < |b| ==> c[|a| + i] == b[i];
    }
  }

  /** A batch numbered before another in append order holds lower numbers on every shared stream. */
  lemma {:induction false} AppendOrder(segments: seq<Segment>, i: nat, j: nat)
    requires i < j < |segments| && Increasing(Flat(segments))
    ensures Before(segments[i].records, segments[j].records)
  {
    var head, last := segments[..|segments| - 1], segments[|segments| - 1];
    IncreasingSplit(Flat(head), last.records);
    if j < |segments| - 1 {
      AppendOrder(head, i, j);
    } else {
      FlatHolds(head, i);
    }
  }

  lemma {:induction false} FlatHolds(segments: seq<Segment>, i: nat)
    requires i < |segments|
    ensures forall x :: x in segments[i].records ==> x in Flat(segments)
    ensures Increasing(Flat(segments)) ==> Increasing(segments[i].records)
  {
    IncreasingSplit(Flat(segments[..|segments| - 1]), segments[|segments| - 1].records);
    if i < |segments| - 1 {
      FlatHolds(segments[..|segments| - 1], i);
    }
  }

  predicate Lands(segments: seq<Segment>, i: nat, k: nat) {
    i < |segments| && Reached(segments[i].fate, k)
  }

  ghost predicate ShareStream(a: seq<Record>, b: seq<Record>) {
    exists x, y :: x in a && y in b && x.stream == y.stream
  }

  /** No two batches that share a stream reached sink `k` against their append order. */
  ghost predicate Orderly(segments: seq<Segment>, order: seq<nat>, k: nat) {
    forall a, b ::
      0 <= a < b < |order| && Lands(segments, order[a], k) && Lands(segments, order[b], k) && order[b] < order[a] ==>
        !ShareStream(segments[order[a]].records, segments[order[b]].records)
  }

  lemma {:induction false} ReceivedHolds(segments: seq<Segment>, order: seq<nat>, k: nat, x: Record) returns (a: nat)
    requires x in Received(segments, order, k)
    ensures a < |order| && Lands(segments, order[a], k) && x in segments[order[a]].records
  {
    var n := |order| - 1;
    if Lands(segments, order[n], k) && x in segments[order[n]].records {
      a := n;
    } else {
      a := ReceivedHolds(segments, order[..n], k, x);
    }
  }

  lemma {:induction false} HoldsReceived(segments: seq<Segment>, order: seq<nat>, k: nat, a: nat)
    requires a < |order| && Lands(segments, order[a], k)
    ensures forall x :: x in segments[order[a]].records ==> x in Received(segments, order, k)
  {
    var n := |order| - 1;
    if a < n {
      HoldsReceived(segments, order[..n], k, a);
    }
  }

  lemma {:induction false} OrderlyIncreases(segments: seq<Segment>, order: seq<nat>, k: nat)
    requires Increasing(Flat(segments)) && Distinct(order) && Orderly(segments, order, k)
    ensures Increasing(Received(segments, order, k))
  {
    if order != [] {
      var n := |order| - 1;
      var head := order[..n];
      OrderlyIncreases(segments, head, k);
      if Lands(segments, order[n], k) {
        var before, batch := Received(segments, head, k), segments[order[n]].records;
        FlatHolds(segments, order[n]);
        forall x, y | x in before && y in batch && x.stream == y.stream ensures x.seqNo < y.seqNo {
          var a := ReceivedHolds(segments, head, k, x);
          assert ShareStream(segments[order[a]].records, batch);
          assert order[a] < order[n];
          AppendOrder(segments, order[a], order[n]);
        }
        IncreasingSplit(before, batch);
      }
    }
  }

  lemma {:induction false} DisorderShows(segments: seq<Segment>, order: seq<nat>, k: nat, a: nat, b: nat)
    requires Increasing(Flat(segments)) && a < b < |order|
    requires Lands(segments, order[a], k) && Lands(segments, order[b], k) && order[b] < order[a]
    requires ShareStream(segments[order[a]].records, segments[order[b]].records)
    ensures !Increasing(Received(segments, order, k))
  {
    var n := |order| - 1;
    var head := order[..n];
    if b < n {
      DisorderShows(segments, head, k, a, b);
      if Lands(segments, order[n], k) {
        IncreasingSplit(Received(segments, head, k), segments[order[n]].records);
      }
    } else {
      IncreasingSplit(Received(segments, head, k), segments[order[n]].records);
      HoldsReceived(segments, head, k, a);
      AppendOrder(segments, order[b], order[a]);
      var x, y :| x in segments[order[a]].records && y in segments[order[b]].records && x.stream == y.stream;
      assert y.seqNo < x.seqNo;
      assert !Before(Received(segments, head, k), segments[order[b]].records);
    }
  }

  /** The exact condition, over every run and with any sink failures: a sink's log keeps every
      stream in sequence if and only if no two batches sharing a stream passed the write lock
      against the order in which they were taken. */
  lemma InSequenceIffOrderly(l: Limits, sinks: nat, steps: seq<Step>, k: nat)
    requires Positive(l) && k < sinks && Schedule(Start(l, sinks), steps)
    ensures var s := Run(Start(l, sinks), steps);
            |s.sinks| == sinks && (Increasing(s.sinks[k]) <==> Orderly(s.segments, s.order, k))
  {
    StartInv(l, sinks);
    RunKeeps(Start(l, sinks), steps);
    LimitsFixed(Start(l, sinks), steps);
    var s := Run(Start(l, sinks), steps);
    IncreasingSplit(Flat(s.segments), s.queue.pending);
    if Orderly(s.segments, s.order, k) {
      OrderlyIncreases(s.segments, s.order, k);
    } else {
      var a, b :| 0 <= a < b < |s.order| && Lands(s.segments, s.order[a], k) && Lands(s.segments, s.order[b], k)
        && s.order[b] < s.order[a] && ShareStream(s.segments[s.order[a]].records, s.segments[s.order[b]].records);
      DisorderShows(s.segments, s.order, k, a, b);
    }
  }

  // ---------------------------------------------------------------------------
  // One drain at a time
  // ---------------------------------------------------------------------------

  predicate Live(x: Segment) {
    x.fate.InFlight? || x.fate.Writing?
  }

  ghost predicate Calm(s: System) {
    forall i :: 0 <= i < |s.segments| ==> !Live(s.segments[i])
  }

  /** Every drain takes the queue only when no earlier drain is still on its way to the sinks. */
  ghost predicate OneAtATime(s: System, steps: seq<Step>)
    requires Schedule(s, steps)
    decreases |steps|
  {
    steps == [] ||
    ((steps[0].Take? || steps[0].RunTake? ==> Calm(s)) && OneAtATime(Next(s, steps[0]), steps[1..]))
  }

  ghost predicate InOrder(s: System) {
    && (forall a, b :: 0 <= a < b < |s.order| ==> s.order[a] < s.order[b])
    && (forall i, j: nat :: 0 <= i < |s.segments| && Live(s.segments[i]) && j in s.order ==> j <= i)
    && (forall i, j :: 0 <= i < |s.segments| && 0 <= j < |s.segments| && Live(s.segments[i]) && Live(s.segments[j])
          ==> i == j)
  }

  lemma TakeInOrder(s: System)
    requires Inv(s) && InOrder(s) && Calm(s)
    ensures InOrder(TakeStep(s))
  {
    assert forall j: nat :: j in s.order ==> j < |s.segments|;
  }

  /** A batch that goes on or ends stays as it was in lock order. */
  lemma StillInOrder(s: System, t: System)
    requires InOrder(s) && t.order == s.order && |s.segments| <= |t.segments|
    requires forall i :: 0 <= i < |s.segments| && Live(t.segments[i]) ==> Live(s.segments[i])
    requires forall i :: |s.segments| <= i < |t.segments| ==> !Live(t.segments[i])
    ensures InOrder(t)
  {
  }

  lemma AcquireInOrder(s: System, i: nat)
    requires Inv(s) && InOrder(s) && Enabled(s, Acquire(i))
    ensures InOrder(Next(s, Acquire(i)))
  {
    assert i !in s.order && forall a :: 0 <= a < |s.order| ==> s.order[a] in s.order;
  }

  lemma BatchInOrder(s: System, step: Step)
    requires InOrder(s) && Enabled(s, step) && (step.Write? || step.Refuse? || step.Release?)
    ensures InOrder(Next(s, step))
  {
    StillInOrder(s, Next(s, step));
  }

  lemma StepInOrder(s: System, step: Step)
    requires Inv(s) && InOrder(s) && Enabled(s, step)
    requires step.Take? || step.RunTake? ==> Calm(s)
    ensures InOrder(Next(s, step))
  {
    if step.Take? || step.RunTake? {
      TakeInOrder(s);
    } else if step.Acquire? {
      AcquireInOrder(s, step.segment);
    } else if step.Write? || step.Refuse? || step.Release? {
      BatchInOrder(s, step);
    } else {
      StillInOrder(s, Next(s, step));
    }
  }

  lemma {:induction false} RunInOrder(s: System, steps: seq<Step>)
    requires Inv(s) && InOrder(s) && Schedule(s, steps) && OneAtATime(s, steps)
    ensures InOrder(Run(s, steps))
    decreases |steps|
  {
    if steps != [] {
      StepKeeps(s, steps[0]);
      StepInOrder(s, steps[0]);
      RunInOrder(Next(s, steps[0]), steps[1..]);
    }
  }

  /** One drain at a time is enough: every sink's log is in sequence, whatever the sinks refuse. */
  lemma SingleDrainKeepsSequence(l: Limits, sinks: nat, steps: seq<Step>, k: nat)
    requires Positive(l) && k < sinks && Schedule(Start(l, sinks), steps) && OneAtATime(Start(l, sinks), steps)
    ensures var s := Run(Start(l, sinks), steps); |s.sinks| == sinks && Increasing(s.sinks[k])
  {
    StartInv(l, sinks);
    RunInOrder(Start(l, sinks), steps);
    InSequenceIffOrderly(l, sinks, steps, k);
  }

  // ---------------------------------------------------------------------------
  // What goes wrong without it
  // ---------------------------------------------------------------------------

  lemma Unroll(s: System, step: Step, rest: seq<Step>)
    requires Enabled(s, step) && Schedule(Next(s, step), rest)
    ensures Schedule(s, [step] + rest) && Run(s, [step] + rest) == Run(Next(s, step), rest)
  {
    assert ([step] + rest)[1..] == rest;
  }

  const DEFAULTS: Limits := Limits(64, 262144, 67108864)

  function Line(data: string): Record {
    Record("session:1", 0, "message", data, 1)
  }

  lemma {:induction false} RunConcat(s: System, a: seq<Step>, b: seq<Step>)
    requires Schedule(s, a) && Schedule(Run(s, a), b)
    ensures Schedule(s, a + b) && Run(s, a + b) == Run(Run(s, a), b)
    decreases |a|
  {
    if a == [] {
      assert a + b == b;
    } else {
      var step, rest := a[0], a[1..];
      assert a == [step] + rest;
      Associates([step], rest, b);
      var t := Next(s, step);
      RunConcat(t, rest, b);
      Unroll(s, step, rest + b);
    }
  }

  const FIRST: Record := Record("session:1", 1, "message", "1", 1)
  const SECOND: Record := Record("session:1", 2, "message", "2", 1)

  /** Two drains each take one record. */
  const BOTH_TAKEN: seq<Step> := [Append(Line("1"))] + ([Take] + ([Append(Line("2"))] + ([Take] + [])))

  /** An append that neither overflows nor fills the queue. */
  lemma QuietAppend(s: System, r: Record)
    requires !Overflows(s.queue, s.limits, r)
    requires |s.queue.pending| + 1 < s.limits.watermarkRecords && s.queue.bytes + Cost(r) < s.limits.watermarkBytes
    ensures AppendStep(s, r) == s.(
              queue := s.queue.(pending := s.queue.pending + [Stamped(s.queue, r)], bytes := s.queue.bytes + Cost(r),
                                last := s.queue.last[r.stream := LastSeq(s.queue, r.stream) + 1]),
              history := s.history + [Stamped(s.queue, r)])
  {
    var all := s.queue.pending + [Stamped(s.queue, r)];
    assert all[0..] == all && all[..0] == [] && s.segments + [] == s.segments;
  }

  /** One append and one drain's take, from a buffer with an empty queue. */
  lemma AppendThenTake(s: System, r: Record, rest: seq<Step>)
    requires s.queue.pending == [] && s.queue.bytes == 0 && !s.queue.closed && s.limits == DEFAULTS
    requires r.stream != "" && r.kind != "" && Cost(r) < 1000
    requires var t := s.(queue := s.queue.(last := s.queue.last[r.stream := LastSeq(s.queue, r.stream) + 1]),
                         history := s.history + [Stamped(s.queue, r)],
                         segments := s.segments + [Segment([Stamped(s.queue, r)], InFlight)]);
             Schedule(t, rest)
    ensures var t := s.(queue := s.queue.(last := s.queue.last[r.stream := LastSeq(s.queue, r.stream) + 1]),
                        history := s.history + [Stamped(s.queue, r)],
                        segments := s.segments + [Segment([Stamped(s.queue, r)], InFlight)]);
            && Schedule(s, [Append(r)] + ([Take] + rest))
            && Run(s, [Append(r)] + ([Take] + rest)) == Run(t, rest)
  {
    QuietAppend(s, r);
    var s1 := Next(s, Append(r));
    assert s1.queue.pending == [Stamped(s.queue, r)];
    Unroll(s1, Take, rest);
    Unroll(s, Append(r), [Take] + rest);
  }

  lemma BothTaken()
    ensures Schedule(Start(DEFAULTS, 1), BOTH_TAKEN)
    ensures var s := Run(Start(DEFAULTS, 1), BOTH_TAKEN);
            && s.segments == [Segment([FIRST], InFlight), Segment([SECOND], InFlight)]
            && s.order == [] && s.lock == None && s.sinks == [[]]
  {
    var s0 := Start(DEFAULTS, 1);
    var s2 := s0.(queue := s0.queue.(last := map["session:1" := 1]), history := [FIRST],
      segments := [Segment([FIRST], InFlight)]);
    assert s0.segments + [Segment([FIRST], InFlight)] == s2.segments && s0.history + [FIRST] == s2.history;
    AppendThenTake(s2, Line("2"), []);
    AppendThenTake(s0, Line("1"), [Append(Line("2"))] + ([Take] + []));
  }

  /** The second batch passes the write lock before the first. */
  function Overtake(i: nat): seq<Step> { [Acquire(i)] + ([Write(i)] + ([Release(i)] + [])) }

  /** One batch through the write lock into the only sink. */
  lemma PassLock(s: System, i: nat)
    requires s.lock == None && |s.sinks| == 1 && i < |s.segments| && s.segments[i].fate.InFlight?
    ensures Schedule(s, Overtake(i))
    ensures var t := Run(s, Overtake(i));
            && t.sinks == [s.sinks[0] + s.segments[i].records] && t.lock == None
            && t.segments == s.segments[i := s.segments[i].(fate := Written)]
  {
    var s1 := Next(s, Acquire(i));
    assert s1.segments[i] == s.segments[i].(fate := Writing(0));
    var s2 := Next(s1, Write(i));
    assert s2.segments[i] == s.segments[i].(fate := Writing(1)) && s2.sinks == [s.sinks[0] + s.segments[i].records];
    var s3 := Next(s2, Release(i));
    assert s3.segments == s.segments[i := s.segments[i].(fate := Written)];
    Unroll(s2, Release(i), []);
    Unroll(s1, Write(i), [Release(i)] + []);
    Unroll(s, Acquire(i), [Write(i)] + ([Release(i)] + []));
  }

  lemma BothPass(s: System)
    requires s.segments == [Segment([FIRST], InFlight), Segment([SECOND], InFlight)] && s.lock == None
             && s.sinks == [[]]
    ensures Schedule(s, Overtake(1) + Overtake(0)) && Run(s, Overtake(1) + Overtake(0)).sinks == [[SECOND, FIRST]]
  {
    PassLock(s, 1);
    var t := Run(s, Overtake(1));
    assert [] + [SECOND] == [SECOND] && t.segments[0] == Segment([FIRST], InFlight);
    PassLock(t, 0);
    assert [SECOND] + [FIRST] == [SECOND, FIRST];
    RunConcat(s, Overtake(1), Overtake(0));
  }

  /** Without that discipline the log goes out of sequence. */
  lemma OverlappingDrainsReorder()
    ensures exists steps ::
              Schedule(Start(DEFAULTS, 1), steps) && Run(Start(DEFAULTS, 1), steps).sinks == [[SECOND, FIRST]]
    ensures !Increasing([SECOND, FIRST])
  {
    BothTaken();
    BothPass(Run(Start(DEFAULTS, 1), BOTH_TAKEN));
    RunConcat(Start(DEFAULTS, 1), BOTH_TAKEN, Overtake(1) + Overtake(0));
    assert [SECOND, FIRST][0].seqNo > [SECOND, FIRST][1].seqNo;
  }

  /** A record accepted between the last look at the queue and the mark that closes it. */
  const LATE_APPEND: seq<Step> :=
    [RunCancel] + ([RunTake] + ([RunCheck] + ([Append(Line("1"))] + ([RunClose] + []))))

  /** The shutdown drain ends on an empty queue, yet the closed buffer still holds a record. */
  lemma ClosingCanStrandARecord()
    ensures Schedule(Start(DEFAULTS, 1), LATE_APPEND)
    ensures var s := Run(Start(DEFAULTS, 1), LATE_APPEND);
            s.queue.closed && s.run.Ended? && s.queue.pending == [Line("1").(seqNo := 1)]
  {
    var s0 := Start(DEFAULTS, 1);
    var s1 := Next(s0, RunCancel);
    var s2 := Next(s1, RunTake);
    var s3 := Next(s2, RunCheck);
    var s4 := Next(s3, Append(Line("1")));
    assert s4.queue.pending == [Line("1").(seqNo := 1)];
    Unroll(s4, RunClose, []);
    Unroll(s3, Append(Line("1")), [RunClose] + []);
    Unroll(s2, RunCheck, [Append(Line("1"))] + ([RunClose] + []));
    Unroll(s1, RunTake, [RunCheck] + ([Append(Line("1"))] + ([RunClose] + [])));
    Unroll(s0, RunCancel, [RunTake] + ([RunCheck] + ([Append(Line("1"))] + ([RunClose] + []))));
  }

  /** Exactly when closing keeps its promise: from the moment the shutdown drain ended, by seeing the
      queue empty or by a sink's refusal, and with no other drain running, nothing is left behind if
      and only if the queue was empty then and nothing was appended before the buffer was marked
      closed. */
  lemma {:induction false} ClosingLeavesNothingIff(s: System, steps: seq<Step>)
    requires s.run.Closing? && Schedule(s, steps)
    requires forall i :: 0 <= i < |steps| ==> !steps[i].Take?
    ensures Run(s, steps).queue.pending == []
            <==> s.queue.pending == [] && forall i :: 0 <= i < |steps| ==> !steps[i].Append?
    decreases |steps|
  {
    if steps != [] && !steps[0].RunClose? {
      ClosingLeavesNothingIff(Next(s, steps[0]), steps[1..]);
    } else if steps != [] {
      ClosedStaysPut(Next(s, steps[0]), steps[1..]);
    }
  }

  lemma {:induction false} ClosedStaysPut(s: System, steps: seq<Step>)
    requires s.queue.closed && s.run.Ended? && Schedule(s, steps)
    requires forall i :: 0 <= i < |steps| ==> !steps[i].Take?
    ensures Run(s, steps).queue == s.queue && forall i :: 0 <= i < |steps| ==> !steps[i].Append?
    decreases |steps|
  {
    if steps != [] {
      ClosedStaysPut(Next(s, steps[0]), steps[1..]);
    }
  }
}
