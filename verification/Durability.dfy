/** The durability pipeline end to end: concurrent appends, drains into a journal and a ledger, a
    crash at any moment with the journal file cut at any byte, and one recovery. */
module Durability {
  import opened Common
  import opened WriteBuffer
  import opened WriteBufferRuns
  import opened WriteBufferOrder
  import opened Journal
  import opened Ledger
  import opened Recovery
  import opened RecoveryConverges

  /** Every append of the schedule is a typed, timed record of this stream. */
  predicate AppendsTo(steps: seq<Step>, stream: string) {
    stream != "" &&
    forall i :: 0 <= i < |steps| && steps[i].Append? ==>
      steps[i].record.stream == stream && steps[i].record.kind != "" && steps[i].record.ts != 0
  }

  ghost predicate OnStream(rs: seq<Record>, stream: string) {
    forall r :: r in rs ==> r.stream == stream && r.kind != "" && r.ts != 0
  }

  lemma {:induction false} HistoryOnStream(s: System, steps: seq<Step>, stream: string)
    requires Schedule(s, steps) && AppendsTo(steps, stream) && OnStream(s.history, stream)
    ensures OnStream(Run(s, steps).history, stream)
    decreases |steps|
  {
    if steps != [] {
      HistoryOnStream(Next(s, steps[0]), steps[1..], stream);
    }
  }

  /** Whatever reached a sink was appended. */
  lemma SinkFromHistory(s: System, k: nat)
    requires Inv(s) && k < |s.sinks|
    ensures forall r :: r in s.sinks[k] ==> r in s.history && r.seqNo >= 1
  {
    forall r | r in s.sinks[k] ensures r in s.history && r.seqNo >= 1 {
      var a := ReceivedHolds(s.segments, s.order, k, r);
      FlatHolds(s.segments, s.order[a]);
      assert r in s.history;
      var i: nat :| i < |s.history| && s.history[i] == r;
      assert s.history[i].seqNo >= 1;
    }
  }

  /** A sink fed by a single stream, one drain at a time, holds that stream's journal. */
  lemma SinkIsOneStream(l: Limits, sinks: nat, steps: seq<Step>, stream: string, k: nat)
    requires Positive(l) && k < sinks && Schedule(Start(l, sinks), steps) && OneAtATime(Start(l, sinks), steps)
    requires AppendsTo(steps, stream)
    ensures var s := Run(Start(l, sinks), steps); |s.sinks| == sinks && OneStream(s.sinks[k], stream)
  {
    StartInv(l, sinks);
    RunKeeps(Start(l, sinks), steps);
    SingleDrainKeepsSequence(l, sinks, steps, k);
    HistoryOnStream(Start(l, sinks), steps, stream);
    SinkFromHistory(Run(Start(l, sinks), steps), k);
    var log := Run(Start(l, sinks), steps).sinks[k];
    assert forall i :: 0 <= i < |log| ==> log[i] in log;
  }

  /** Sink 0 is the journal and sink 1 the ledger. Stop the pipeline after any schedule in which no
      sink fails and drains do not overlap; let the crash keep any first `n` bytes of the journal
      file that still include what the ledger committed; let the checkpoint claim no more than the
      ledger holds; let the journal's rewriting of data make no difference to a row. One recovery
      then brings the ledger to exactly the records of the surviving journal, each applied once, and
      recovering again or reindexing gives the same tables. */
  lemma CrashSafe(l: Limits, steps: seq<Step>, stream: string, c: Codec<Record>, d: Decoders, n: nat, checkpoint: int,
                  now: nat)
    requires Positive(l) && Schedule(Start(l, 2), steps) && OneAtATime(Start(l, 2), steps)
    requires AppendsTo(steps, stream) && forall i :: 0 <= i < |steps| ==> !steps[i].Refuse?
    requires Lawful(c) && |Run(Start(l, 2), steps).sinks| == 2
    requires var s := Run(Start(l, 2), steps);
             && AllStoredAlike(d, s.sinks[0], Canon(c, s.sinks[0])) && AllStorable(d, s.sinks[1])
             && n <= |Encoded(c, s.sinks[0])| && |s.sinks[1]| <= Whole(c, s.sinks[0], n)
             && forall i :: 0 <= i < Whole(c, s.sinks[0], n) && s.sinks[0][i].seqNo <= checkpoint ==> i < |s.sinks[1]|
    ensures var s := Run(Start(l, 2), steps);
            var file := Encoded(c, s.sinks[0])[..n];
            var target := Apply(d, NO_ROWS, s.sinks[0][..Whole(c, s.sinks[0], n)]);
            && Recovered(c, d, file, StoreAll(d, NO_ROWS, s.sinks[1]), checkpoint, now) == target
            && Truncated(file, Parse(c, file).partial).Some?
            && var repaired := Truncated(file, Parse(c, file).partial).value;
               && Reindexed(c, d, [repaired], now) == target
               && (target.Some? ==> forall later :: Recovered(c, d, repaired, target.value, later, now) == target)
  {
    var s := Run(Start(l, 2), steps);
    SinksAgree(l, 2, steps, 0, 1);
    SinkIsOneStream(l, 2, steps, stream, 0);
    assert s.sinks[1] == s.sinks[0][..|s.sinks[1]|];
    CrashThenRecover(c, d, s.sinks[0], stream, n, |s.sinks[1]|, checkpoint, now);
  }
}
