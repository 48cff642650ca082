/** What the write buffer's history is (internal/engine/storage/writebuffer.go), read off the schedule:
    exactly what was appended, in order, numbered one by one along each stream. */
module WriteBufferHistory {
  import opened Common
  import opened WriteBuffer
  import opened WriteBufferRuns

  /** The records a schedule appends, in order. */
  function Appended(steps: seq<Step>): seq<Record> {
    if steps == [] then [] else (if steps[0].Append? then [steps[0].record] else []) + Appended(steps[1..])
  }

  function CountOn(rs: seq<Record>, stream: string): nat {
    if rs == [] then 0 else CountOn(rs[..|rs| - 1], stream) + if rs[|rs| - 1].stream == stream then 1 else 0
  }

  /** Every record carries its position on its stream, counted from one. */
  ghost predicate Dense(rs: seq<Record>) {
    forall i :: 0 <= i < |rs| ==> rs[i].seqNo == CountOn(rs[..i + 1], rs[i].stream)
  }

  ghost predicate SameButNumbers(rs: seq<Record>, raw: seq<Record>) {
    |rs| == |raw| && forall i :: 0 <= i < |rs| ==> rs[i] == raw[i].(seqNo := rs[i].seqNo)
  }

  ghost predicate Counts(s: System) {
    Dense(s.history) && forall stream :: LastSeq(s.queue, stream) == CountOn(s.history, stream)
  }

  lemma CountOneMore(rs: seq<Record>, r: Record, stream: string)
    ensures CountOn(rs + [r], stream) == CountOn(rs, stream) + if r.stream == stream then 1 else 0
  {
    assert (rs + [r])[..|rs|] == rs;
  }

  lemma DenseMore(rs: seq<Record>, r: Record)
    requires Dense(rs) && r.seqNo == CountOn(rs, r.stream) + 1
    ensures Dense(rs + [r])
  {
    var all := rs + [r];
    forall i | 0 <= i < |all| ensures all[i].seqNo == CountOn(all[..i + 1], all[i].stream) {
      if i < |rs| {
        assert all[..i + 1] == rs[..i + 1];
      } else {
        assert all[..i + 1] == all;
        CountOneMore(rs, r, r.stream);
      }
    }
  }

  lemma AppendCounts(s: System, r: Record)
    requires Counts(s)
    ensures Counts(AppendStep(s, r))
  {
    var x := Stamped(s.queue, r);
    assert LastSeq(s.queue, r.stream) == CountOn(s.history, r.stream);
    DenseMore(s.history, x);
    forall stream ensures LastSeq(AppendStep(s, r).queue, stream) == CountOn(s.history + [x], stream) {
      CountOneMore(s.history, x, stream);
      assert LastSeq(s.queue, stream) == CountOn(s.history, stream);
    }
  }

  lemma StepCounts(s: System, step: Step)
    requires Counts(s) && Enabled(s, step)
    ensures Counts(Next(s, step))
    ensures var more := if step.Append? then [step.record] else [];
            && s.history <= Next(s, step).history && SameButNumbers(Next(s, step).history[|s.history|..], more)
  {
    if step.Append? {
      AppendCounts(s, step.record);
    } else {
      SameHistory(s, step);
    }
  }

  lemma SameHistory(s: System, step: Step)
    requires Enabled(s, step) && !step.Append?
    ensures Next(s, step).history == s.history && Next(s, step).queue.last == s.queue.last
  {
  }

  lemma {:induction false} RunCounts(s: System, steps: seq<Step>)
    requires Counts(s) && Schedule(s, steps)
    ensures Counts(Run(s, steps)) && s.history <= Run(s, steps).history
    ensures SameButNumbers(Run(s, steps).history[|s.history|..], Appended(steps))
    decreases |steps|
  {
    if steps != [] {
      var t := Next(s, steps[0]);
      StepCounts(s, steps[0]);
      RunCounts(t, steps[1..]);
      JoinedUp(s.history, t.history, Run(s, steps).history, if steps[0].Append? then [steps[0].record] else [],
               Appended(steps[1..]));
    }
  }

  lemma JoinedUp(a: seq<Record>, b: seq<Record>, c: seq<Record>, first: seq<Record>, rest: seq<Record>)
    requires a <= b <= c && SameButNumbers(b[|a|..], first) && SameButNumbers(c[|b|..], rest)
    ensures SameButNumbers(c[|a|..], first + rest)
  {
    assert c[|a|..] == b[|a|..] + c[|b|..];
  }

  /** Over every run, with any overflows and refusals: the history holds exactly the appended records,
      in the order they were appended, each numbered by its position on its stream. */
  lemma HistoryIsAppends(l: Limits, sinks: nat, steps: seq<Step>)
    requires Schedule(Start(l, sinks), steps)
    ensures var s := Run(Start(l, sinks), steps); Dense(s.history) && SameButNumbers(s.history, Appended(steps))
  {
    var s := Run(Start(l, sinks), steps);
    RunCounts(Start(l, sinks), steps);
    assert s.history[0..] == s.history;
  }
}
