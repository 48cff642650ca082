/** The run loop of the write buffer (internal/engine/storage/writebuffer.go): when it may stop
    draining, and what a shutdown leaves. */
module WriteBufferShutdown {
  import opened Common
  import opened WriteBuffer
  import opened WriteBufferRuns
  import opened WriteBufferOrder

  // ---------------------------------------------------------------------------
  // Drained to empty
  // ---------------------------------------------------------------------------

  /** `drainAll` ends by seeing the queue empty: that is the only way back to the select, and, unless a
      sink refused, the only way to the closing mark. Run returns with the buffer open only after a
      refusal, and never once its context is cancelled. */
  lemma DrainsToEmpty(s: System, step: Step)
    requires Enabled(s, step)
    ensures !s.run.Selecting? && Next(s, step).run.Selecting? ==> Next(s, step).queue.pending == [] && !s.final
    ensures !s.run.Closing? && Next(s, step).run.Closing? ==>
              s.final && (Next(s, step).queue.pending == [] || !NoFailure(Next(s, step)))
    ensures !s.run.Ended? && Next(s, step).run.Ended? ==>
              Next(s, step).queue.closed || (!s.final && !NoFailure(Next(s, step)))
  {
  }

  /** Only the mark behind a cancelled context closes the buffer, and a cancellation is final. */
  lemma ClosedByShutdown(s: System, step: Step)
    requires Enabled(s, step)
    ensures Next(s, step).queue.closed <==> s.queue.closed || (s.run.Closing? && step.RunClose?)
    ensures Next(s, step).final <==> s.final || step.RunCancel?
  {
  }

  /** The loop is never stuck: outside its select and its wait for a batch it can always go on, and
      from there to the closing mark. */
  lemma RunGoesOn(s: System)
    ensures Enabled(s, if s.run.Taking? then RunTake else if s.run.Checking? then RunCheck
                       else if s.run.Closing? then RunClose else RunCancel) || s.run.Draining? || s.run.Ended?
    ensures s.run.Taking? ==> Next(s, RunTake).queue.pending == []
    ensures s.run.Taking? && s.queue.pending != [] ==>
              Next(s, RunTake).segments == s.segments + [Segment(s.queue.pending, InFlight)]
              && Next(s, RunTake).run == Draining(|s.segments|)
  {
  }

  // ---------------------------------------------------------------------------
  // What a shutdown leaves
  // ---------------------------------------------------------------------------

  lemma {:induction false} NothingOf(p: Segment -> bool, segments: seq<Segment>)
    requires forall i :: 0 <= i < |segments| ==> !p(segments[i])
    ensures Of(p, segments) == []
  {
    if segments != [] {
      NothingOf(p, segments[..|segments| - 1]);
    }
  }

  lemma AllPlaced(s: System)
    requires Conserved(s) && NoFailure(s) && s.queue.pending == []
    ensures multiset(s.history) == multiset(Of(IsDropped, s.segments)) + multiset(Of(IsInFlight, s.segments))
                                   + multiset(Of(IsWritten, s.segments))
  {
    FatesPartition(s.segments);
    NothingOf(IsFailed, s.segments);
    assert s.history == Flat(s.segments) + [] == Flat(s.segments);
  }

  /** With no sink error, the moment the shutdown drain is done nothing is pending: every record ever
      accepted has been dropped by an overflow, or written, or is in the hands of another drain. */
  lemma ShutdownLeavesNothingPending(l: Limits, sinks: nat, steps: seq<Step>, last: Step)
    requires Positive(l) && Schedule(Start(l, sinks), steps) && Enabled(Run(Start(l, sinks), steps), last)
    requires !last.Refuse? && forall i :: 0 <= i < |steps| ==> !steps[i].Refuse?
    requires !Run(Start(l, sinks), steps).run.Closing? && Next(Run(Start(l, sinks), steps), last).run.Closing?
    ensures var s := Next(Run(Start(l, sinks), steps), last);
            && Inv(s) && s.queue.pending == []
            && multiset(s.history) == multiset(Of(IsDropped, s.segments)) + multiset(Of(IsInFlight, s.segments))
                                      + multiset(Of(IsWritten, s.segments))
  {
    var before := Run(Start(l, sinks), steps);
    var s := Next(before, last);
    StartInv(l, sinks);
    RunKeeps(Start(l, sinks), steps);
    StepKeeps(before, last);
    NoRefusalNoFailure(Start(l, sinks), steps);
    StillNoFailure(before, last);
    DrainsToEmpty(before, last);
    AllPlaced(s);
  }

  lemma StillNoFailure(s: System, step: Step)
    requires NoFailure(s) && Enabled(s, step) && !step.Refuse?
    ensures NoFailure(Next(s, step))
  {
  }

  /** A written batch is in every sink. */
  lemma WrittenEverywhere(s: System, k: nat, r: Record)
    requires Inv(s) && k < |s.sinks| && r in Of(IsWritten, s.segments)
    ensures r in s.sinks[k]
  {
    var i := WrittenIn(s.segments, r);
    assert i in s.order;
    var a :| 0 <= a < |s.order| && s.order[a] == i;
    HoldsReceived(s.segments, s.order, k, a);
  }

  lemma {:induction false} WrittenIn(segments: seq<Segment>, r: Record) returns (i: nat)
    requires r in Of(IsWritten, segments)
    ensures i < |segments| && segments[i].fate.Written? && r in segments[i].records
  {
    var last := |segments| - 1;
    if segments[last].fate.Written? && r in segments[last].records {
      i := last;
    } else {
      i := WrittenIn(segments[..last], r);
    }
  }

  ghost predicate ReachedAll(s: System) {
    forall k, r :: 0 <= k < |s.sinks| && r in Of(IsWritten, s.segments) ==> r in s.sinks[k]
  }

  lemma AllReached(s: System)
    requires Inv(s)
    ensures ReachedAll(s)
  {
    forall k, r | 0 <= k < |s.sinks| && r in Of(IsWritten, s.segments) ensures r in s.sinks[k] {
      WrittenEverywhere(s, k, r);
    }
  }

  /** Nobody but Run drains: any batch on its way is the one Run is waiting for. */
  ghost predicate OnlyRunDrains(s: System) {
    forall i :: 0 <= i < |s.segments| && Live(s.segments[i]) ==> s.run == Draining(i)
  }

  lemma OnlyRunStep(s: System, step: Step)
    requires OnlyRunDrains(s) && Enabled(s, step) && !step.Take?
    ensures OnlyRunDrains(Next(s, step))
  {
  }

  lemma {:induction false} OnlyRunKeeps(s: System, steps: seq<Step>)
    requires OnlyRunDrains(s) && Schedule(s, steps) && forall i :: 0 <= i < |steps| ==> !steps[i].Take?
    ensures OnlyRunDrains(Run(s, steps))
    decreases |steps|
  {
    if steps != [] {
      OnlyRunStep(s, steps[0]);
      OnlyRunKeeps(Next(s, steps[0]), steps[1..]);
    }
  }

  lemma NothingUnderWay(s: System)
    requires OnlyRunDrains(s) && !s.run.Draining?
    ensures Of(IsInFlight, s.segments) == []
  {
    NothingOf(IsInFlight, s.segments);
  }

  /** The state right after the step that ends the shutdown drain, when nobody else has drained. */
  lemma OnlyRunUntil(l: Limits, sinks: nat, steps: seq<Step>, last: Step)
    requires Schedule(Start(l, sinks), steps) && Enabled(Run(Start(l, sinks), steps), last)
    requires !last.Take? && forall i :: 0 <= i < |steps| ==> !steps[i].Take?
    ensures OnlyRunDrains(Next(Run(Start(l, sinks), steps), last))
  {
    OnlyRunKeeps(Start(l, sinks), steps);
    OnlyRunStep(Run(Start(l, sinks), steps), last);
  }

  /** When nobody else drains either, the shutdown drain leaves every record written to every sink, or
      dropped by an overflow. */
  lemma ShutdownWritesEverything(l: Limits, sinks: nat, steps: seq<Step>, last: Step)
    requires Positive(l) && Schedule(Start(l, sinks), steps) && Enabled(Run(Start(l, sinks), steps), last)
    requires !last.Refuse? && forall i :: 0 <= i < |steps| ==> !steps[i].Refuse?
    requires !last.Take? && forall i :: 0 <= i < |steps| ==> !steps[i].Take?
    requires !Run(Start(l, sinks), steps).run.Closing? && Next(Run(Start(l, sinks), steps), last).run.Closing?
    ensures var s := Next(Run(Start(l, sinks), steps), last);
            && s.queue.pending == [] && ReachedAll(s)
            && multiset(s.history) == multiset(Of(IsDropped, s.segments)) + multiset(Of(IsWritten, s.segments))
  {
    ShutdownLeavesNothingPending(l, sinks, steps, last);
    OnlyRunUntil(l, sinks, steps, last);
    NothingUnderWay(Next(Run(Start(l, sinks), steps), last));
    AllReached(Next(Run(Start(l, sinks), steps), last));
  }
}
