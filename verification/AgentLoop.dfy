/** The agent loop of internal/core/loop.go: stream a reply, let a gate answer its calls, run the
    tools concurrently, append one result per call, repeat. */
module AgentLoop {
  import opened Common
  import opened Transcript
  import opened ToolRuns

  /** Why a run ended early: before a reply was appended, after it, or after its results were. */
  datatype Stage = BeforeReply | InReply | AfterReply | AfterResults

  datatype Ending = Finished | OutOfIterations | Broken(stage: Stage)

  /** One tool message that says all the model gets to know of a result. */
  function ResultMessage(r: ToolResult): (m: Message)
    ensures IsToolMessage(m)
    ensures var b := m.content[0];
            b.callId == r.callId && b.toolName == r.toolName && b.output == r.output && b.isError == r.isError
  {
    var answer := PLAIN.(kind := ToolResultKind, callId := r.callId, toolName := r.toolName, output := r.output,
                         isError := r.isError);
    Message(Tool, [answer], "", false)
  }

  function ResultMessages(rs: seq<ToolResult>): (ms: seq<Message>)
    ensures |ms| == |rs| && forall i :: 0 <= i < |rs| ==> ms[i] == ResultMessage(rs[i])
  {
    seq(|rs|, i requires 0 <= i < |rs| => ResultMessage(rs[i]))
  }

  // ---------------------------------------------------------------------------
  // An answerable transcript
  // ---------------------------------------------------------------------------

  predicate IsToolMessage(m: Message) {
    m.role.Tool? && |m.content| == 1 && m.content[0].kind.ToolResultKind?
  }

  /** The messages after the first answer its calls: one tool message each, in call order, under
      the same identifiers when `named`. */
  predicate FirstAnswered(ms: seq<Message>, named: bool)
    requires ms != []
  {
    var calls := Calls(ms[0].content);
    && ms[0].role.Assistant?
    && |calls| < |ms|
    && forall i :: 0 <= i < |calls| ==> Answer(ms[1 + i], calls[i], named)
  }

  predicate Answer(m: Message, call: Block, named: bool) {
    IsToolMessage(m) && (named ==> m.content[0].callId == call.callId)
  }

  /** Each assistant message is followed at once by exactly one tool message per tool call it
      carries, and no other message stands between. */
  predicate Answered(ms: seq<Message>, named: bool)
    decreases |ms|
  {
    ms == [] || (FirstAnswered(ms, named) && Answered(ms[1 + |Calls(ms[0].content)|..], named))
  }

  lemma FirstAnsweredConcat(a: seq<Message>, b: seq<Message>, named: bool)
    requires a != [] && FirstAnswered(a, named)
    ensures FirstAnswered(a + b, named)
  {
    var calls := Calls(a[0].content);
    forall i | 0 <= i < |calls| ensures Answer((a + b)[1 + i], calls[i], named) {
      assert (a + b)[1 + i] == a[1 + i];
    }
  }

  lemma RestOfConcat(a: seq<Message>, b: seq<Message>, n: nat)
    requires 0 < n <= |a|
    ensures (a + b)[n..] == a[n..] + b && (a + b)[0] == a[0]
  {
  }

  lemma {:induction false} AnsweredConcat(a: seq<Message>, b: seq<Message>, named: bool)
    requires Answered(a, named) && Answered(b, named)
    ensures Answered(a + b, named)
    decreases |a|
  {
    if a == [] {
      assert a + b == b;
    } else {
      var n := 1 + |Calls(a[0].content)|;
      RestOfConcat(a, b, n);
      FirstAnsweredConcat(a, b, named);
      AnsweredConcat(a[n..], b, named);
    }
  }

  /** A transcript of one turn. */
  lemma OneTurn(ms: seq<Message>, named: bool)
    requires ms != [] && |ms| == 1 + |Calls(ms[0].content)|
    ensures Answered(ms, named) <==> FirstAnswered(ms, named)
  {
    assert ms[|ms|..] == [];
  }

  lemma ResultAnswersIff(results: seq<ToolResult>, calls: seq<Block>, i: nat, named: bool)
    requires i < |results| == |calls|
    ensures Answer(ResultMessages(results)[i], calls[i], named) <==> (named ==> results[i].callId == calls[i].callId)
  {
  }

  /** One reply with as many results as calls. A hook that renames a result is the only thing that
      leaves a call without an answer of its own. */
  lemma TurnAnsweredIff(reply: Message, results: seq<ToolResult>, named: bool)
    requires reply.role.Assistant? && |results| == |Calls(reply.content)|
    ensures Answered([reply] + ResultMessages(results), named)
            <==> (named ==> forall i :: 0 <= i < |results| ==> results[i].callId == Calls(reply.content)[i].callId)
  {
    var answers, calls := ResultMessages(results), Calls(reply.content);
    var ms := [reply] + answers;
    OneTurn(ms, named);
    forall i | 0 <= i < |calls|
      ensures Answer(ms[1 + i], calls[i], named) <==> (named ==> results[i].callId == calls[i].callId)
    {
      assert ms[1 + i] == answers[i];
      ResultAnswersIff(results, calls, i, named);
    }
    assert FirstAnswered(ms, named) <==> forall i :: 0 <= i < |calls| ==> Answer(ms[1 + i], calls[i], named);
  }

  /** A reply whose calls nobody has answered is the only way to leave a transcript open. */
  lemma {:induction false} OpenReply(ms: seq<Message>, reply: Message, named: bool)
    requires Answered(ms, named) && reply.role.Assistant?
    ensures Answered(ms + [reply], named) <==> Calls(reply.content) == []
    decreases |ms|
  {
    var all := ms + [reply];
    if ms == [] {
      assert all == [reply] && [reply][1..] == [];
      assert Calls(reply.content) == [] ==> FirstAnswered(all, named) && Answered(all[1..], named);
    } else {
      var n := 1 + |Calls(ms[0].content)|;
      assert all[n..] == ms[n..] + [reply] && all[0] == ms[0];
      FirstAnsweredConcat(ms, [reply], named);
      OpenReply(ms[n..], reply, named);
    }
  }

  // ---------------------------------------------------------------------------
  // The loop
  // ---------------------------------------------------------------------------

  /** The accumulator once the stream has been consumed, and whether every chunk was reported and
      accepted. */
  ghost function Consumed(w: World, iteration: nat, chunks: seq<Chunk>): (Accumulator, bool) {
    if chunks == [] then (NOTHING, true)
    else
      var n := |chunks| - 1;
      var (acc, ok) := Consumed(w, iteration, chunks[..n]);
      if !ok || !w.emits(iteration, OnPartial(n)) then (acc, false)
      else (Added(w.json, acc, chunks[n]), Accepts(w.json, acc, chunks[n]))
  }

  /** What comes behind a chunk that was not taken makes no difference. */
  lemma {:induction false} StopsThere(w: World, iteration: nat, chunks: seq<Chunk>, n: nat)
    requires n <= |chunks| && !Consumed(w, iteration, chunks[..n]).1
    ensures Consumed(w, iteration, chunks) == Consumed(w, iteration, chunks[..n])
    decreases |chunks|
  {
    if n == |chunks| {
      assert chunks[..n] == chunks;
    } else {
      var init := chunks[..|chunks| - 1];
      assert init[..n] == chunks[..n];
      StopsThere(w, iteration, init, n);
    }
  }

  method ConsumeStream(w: World, iteration: nat, chunks: seq<Chunk>, interrupted: bool)
    returns (acc: Accumulator, ok: bool)
    ensures (acc, ok || interrupted)
            == (Consumed(w, iteration, chunks).0, Consumed(w, iteration, chunks).1 || interrupted)
    ensures ok ==> !interrupted && ValidCalls(w.json, Calls(acc.content))
  {
    var accumulator := new MessageAccumulator();
    for i := 0 to |chunks|
      invariant fresh(accumulator) && ValidCalls(w.json, Calls(accumulator.content))
      invariant Consumed(w, iteration, chunks[..i]) == (accumulator.View(), true)
    {
      assert chunks[..i + 1][..i] == chunks[..i];
      if !w.emits(iteration, OnPartial(i)) {
        StopsThere(w, iteration, chunks, i + 1);
        return Accumulator(accumulator.content, accumulator.responseId), false;
      }
      ghost var before := accumulator.View();
      var added := accumulator.Add(w.json, chunks[i]);
      if !added {
        StopsThere(w, iteration, chunks, i + 1);
        return Accumulator(accumulator.content, accumulator.responseId), false;
      }
      AcceptedCallsValid(w.json, before, chunks[i]);
    }
    assert chunks[..|chunks|] == chunks;
    acc, ok := Accumulator(accumulator.content, accumulator.responseId), !interrupted;
  }

  // ---------------------------------------------------------------------------
  // What a run amounts to
  // ---------------------------------------------------------------------------

  /** The message is what the provider streamed in answer to the transcript before it. */
  ghost predicate Said(w: World, iteration: nat, before: seq<Message>, m: Message) {
    var answer := w.provider(iteration, before);
    answer.Stream? &&
    var (acc, ok) := Consumed(w, iteration, answer.chunks);
    && (acc.content != [] || acc.responseId != "")
    && m == Message(Assistant, acc.content, acc.responseId, answer.interrupted || !ok)
  }

  /** The calls of every assistant message that carries any, in order. */
  function CallLists(ms: seq<Message>): seq<seq<Block>> {
    if ms == [] then []
    else
      var last, calls := ms[|ms| - 1], Calls(ms[|ms| - 1].content);
      CallLists(ms[..|ms| - 1]) + if last.role.Assistant? && calls != [] then [calls] else []
  }

  /** The gate kept the call, unrefused, as `kept`. */
  ghost predicate Keeps(w: World, iteration: nat, calls: seq<Block>, call: Block, kept: Block) {
    var answer := w.gate(iteration, calls);
    answer.Some? && kept in answer.value && kept.callId == call.callId && !kept.isError
  }

  ghost predicate LetThrough(w: World, iteration: nat, calls: seq<Block>, call: Block) {
    exists kept :: Keeps(w, iteration, calls, call, kept)
  }

  /** A tool ran for a call that the gate let through, on the gate's version of the call as
      `pre_tool_exec` left it. */
  ghost predicate Permitted(w: World, iteration: nat, calls: seq<Block>, e: Execution) {
    e.iteration == iteration && e.slot < |calls| &&
    exists kept :: Keeps(w, iteration, calls, calls[e.slot], kept)
      && Invoked(w, iteration, e.slot, kept) == Some(e.invocation)
  }

  /** The tools that ran are those of exactly the calls the gate let through. */
  ghost predicate Whole(w: World, iteration: nat, calls: seq<Block>, runs: seq<Execution>) {
    forall i: nat :: i in Slots(runs) <==> i < |calls| && LetThrough(w, iteration, calls, calls[i])
  }

  /** The tools that ran in one iteration: none, or one for each call the gate let through. */
  ghost predicate Batch(w: World, iteration: nat, calls: seq<Block>, runs: seq<Execution>) {
    && OncePerSlot(runs) && (forall k :: 0 <= k < |runs| ==> Permitted(w, iteration, calls, runs[k]))
    && (runs == [] || Whole(w, iteration, calls, runs))
  }

  function Joined(batches: seq<seq<Execution>>): seq<Execution> {
    if batches == [] then [] else Joined(batches[..|batches| - 1]) + batches[|batches| - 1]
  }

  /** One batch per list of calls; all are whole, but for the last when the run broke off in it. */
  ghost predicate Executed(w: World, lists: seq<seq<Block>>, batches: seq<seq<Execution>>, broken: bool) {
    |batches| == |lists| &&
    forall n :: 0 <= n < |lists| ==>
      Batch(w, n, lists[n], batches[n]) && (n < |lists| - 1 || !broken ==> Whole(w, n, lists[n], batches[n]))
  }

  /** Every assistant message is the provider's answer to what stood before it. */
  ghost predicate AllSaid(w: World, base: seq<Message>, added: seq<Message>) {
    forall k :: 0 <= k < |added| && added[k].role.Assistant? ==>
      Said(w, |CallLists(added[..k])|, base + added[..k], added[k])
  }

  /** Everybody who listens took the results. */
  ghost predicate Heard(w: World, iteration: nat, n: nat) {
    w.emits(iteration, OnResults) && forall i: nat :: i < n ==> w.emits(iteration, OnResultState(i))
  }

  /** The answers are what the hooks after execution made of what the tools answered, and of the
      refusals, for the calls as the gate left them. */
  ghost predicate Delivered(w: World, iteration: nat, calls: seq<Block>, runs: seq<Execution>, answers: seq<Message>) {
    w.gate(iteration, calls).Some? &&
    exists merged, settled, results :: DeliveredAs(w, iteration, calls, runs, answers, merged, settled, results)
  }

  ghost predicate DeliveredAs(w: World, iteration: nat, calls: seq<Block>, runs: seq<Execution>, answers: seq<Message>,
                              merged: seq<Block>, settled: seq<ToolResult>, results: seq<ToolResult>)
    requires w.gate(iteration, calls).Some?
  {
    && Reconciled(w, calls, w.gate(iteration, calls).value, merged)
    && Settled(w, iteration, merged, runs, settled) && Reported(w, iteration, settled, results)
    && answers == ResultMessages(results) && |answers| == |calls|
    && Gated(w, iteration, calls) && Heard(w, iteration, |results|)
  }

  /** In complete turns, the calls of the reply at `k` are followed by what their tools delivered. */
  ghost predicate ToldAt(w: World, added: seq<Message>, batches: seq<seq<Execution>>, k: int)
    requires 0 <= k < |added|
  {
    var calls, n := Calls(added[k].content), |CallLists(added[..k])|;
    added[k].role.Assistant? && calls != [] ==>
      && k + |calls| < |added| && n < |batches|
      && Delivered(w, n, calls, batches[n], added[k + 1..k + 1 + |calls|])
  }

  ghost predicate AllTold(w: World, added: seq<Message>, batches: seq<seq<Execution>>) {
    forall k :: 0 <= k < |added| ==> ToldAt(w, added, batches, k)
  }

  /** More turns and batches behind a told transcript leave it told. */
  lemma StillTold(w: World, added: seq<Message>, more: seq<Message>, batches: seq<seq<Execution>>,
                  later: seq<seq<Execution>>, k: int)
    requires 0 <= k < |added| && ToldAt(w, added, batches, k)
    ensures ToldAt(w, added + more, batches + later, k)
  {
    var all, calls := added + more, Calls(added[k].content);
    assert all[..k] == added[..k] && all[k] == added[k];
    if added[k].role.Assistant? && calls != [] {
      assert all[k + 1..k + 1 + |calls|] == added[k + 1..k + 1 + |calls|];
      var n := |CallLists(added[..k])|;
      assert (batches + later)[n] == batches[n];
    }
  }

  /** One complete turn more. */
  lemma TurnTold(w: World, turns: seq<Message>, turn: seq<Message>, batches: seq<seq<Execution>>, runs: seq<Execution>)
    requires AllTold(w, turns, batches) && |batches| == |CallLists(turns)| && IsTurn(turn)
    requires turn != [] && Calls(turn[0].content) != [] ==>
               && |turn| == 1 + |Calls(turn[0].content)|
               && Delivered(w, |batches|, Calls(turn[0].content), runs, turn[1..])
    ensures AllTold(w, turns + turn, batches + [runs])
    ensures turn == [] || Calls(turn[0].content) == [] ==> AllTold(w, turns + turn, batches)
  {
    var all := turns + turn;
    forall k | 0 <= k < |all| ensures ToldAt(w, all, batches + [runs], k)
      && (turn == [] || Calls(turn[0].content) == [] ==> ToldAt(w, all, batches, k))
    {
      if k < |turns| {
        StillTold(w, turns, turn, batches, [runs], k);
        StillTold(w, turns, turn, batches, [], k);
        assert batches + [] == batches;
      } else if k == |turns| {
        FirstTold(w, turns, turn, batches, runs);
      } else {
        assert all[k] == turn[k - |turns|];
      }
    }
  }

  lemma FirstTold(w: World, turns: seq<Message>, turn: seq<Message>, batches: seq<seq<Execution>>, runs: seq<Execution>)
    requires |batches| == |CallLists(turns)| && turn != []
    requires Calls(turn[0].content) != [] ==>
               && |turn| == 1 + |Calls(turn[0].content)|
               && Delivered(w, |batches|, Calls(turn[0].content), runs, turn[1..])
    ensures ToldAt(w, turns + turn, batches + [runs], |turns|)
    ensures Calls(turn[0].content) == [] ==> ToldAt(w, turns + turn, batches, |turns|)
  {
    var all, k := turns + turn, |turns|;
    assert all[k] == turn[0] && all[..k] == turns;
    if Calls(turn[0].content) != [] {
      assert all[k + 1..k + 1 + |Calls(turn[0].content)|] == turn[1..];
    }
  }

  // ---------------------------------------------------------------------------
  // Why a run breaks off
  // ---------------------------------------------------------------------------

  /** What was taken of the reply amounts to a message. */
  ghost predicate Speaks(w: World, iteration: nat, before: seq<Message>) {
    var answer := w.provider(iteration, before);
    answer.Stream? &&
    var acc := Consumed(w, iteration, answer.chunks).0;
    acc.content != [] || acc.responseId != ""
  }

  /** The provider streamed a reply that was taken whole and reported, and the hook behind it agreed. */
  ghost predicate Smooth(w: World, iteration: nat, before: seq<Message>) {
    var answer := w.provider(iteration, before);
    w.ready(iteration) && answer.Stream? && !answer.interrupted &&
    var (acc, ok) := Consumed(w, iteration, answer.chunks);
    ok && w.postModel(iteration)
    && (MessageOf(acc).Some? ==> w.emits(iteration, OnCompletion) && w.emits(iteration, OnReplyState))
  }

  /** The gate answered with valid calls and their announcement was taken. */
  ghost predicate Gated(w: World, iteration: nat, calls: seq<Block>) {
    w.gate(iteration, calls).Some? && ValidCalls(w.json, w.gate(iteration, calls).value) && w.emits(iteration, OnCalls)
  }

  /** Why the calls of a reply could not be answered, and what was appended behind the reply for all
      that: nothing, when the gate or a hook before execution is at fault, when the hooks after it left
      no results, or when nobody listens; otherwise the results as those hooks left them. */
  ghost predicate Unanswered(w: World, iteration: nat, calls: seq<Block>, runs: seq<Execution>, answers: seq<Message>) {
    Gated(w, iteration, calls) ==> exists merged, settled, results ::
      && Reconciled(w, calls, w.gate(iteration, calls).value, merged)
      && ToolFault(w, iteration, merged, runs, settled, results, answers)
  }

  ghost predicate ToolFault(w: World, iteration: nat, merged: seq<Block>, runs: seq<Execution>,
                            settled: seq<ToolResult>, results: seq<ToolResult>, answers: seq<Message>) {
    if exists i :: PrepareFault(w, iteration, merged, i) then answers == []
    else
      && Settled(w, iteration, merged, runs, settled) && Leftover(w, iteration, settled, results)
      && if results == [] || !w.emits(iteration, OnResults) then answers == []
         else
           && answers == ResultMessages(results)
           && (ReportFault(w, iteration, settled)
               || exists i: nat :: i < |results| && !w.emits(iteration, OnResultState(i)))
  }

  /** Why a run broke off in this iteration, at this stage. */
  ghost predicate Fault(w: World, iteration: nat, before: seq<Message>, stage: Stage, runs: seq<Execution>,
                        answers: seq<Message>) {
    var answer := w.provider(iteration, before);
    match stage
    case BeforeReply => !w.ready(iteration) || answer.NoStream?
    case InReply =>
      w.ready(iteration) && answer.Stream? && (answer.interrupted || !Consumed(w, iteration, answer.chunks).1)
    case _ =>
      && w.ready(iteration) && answer.Stream? && !answer.interrupted && Consumed(w, iteration, answer.chunks).1
      && var calls := Calls(Consumed(w, iteration, answer.chunks).0.content);
         Smooth(w, iteration, before) ==> calls != [] && Unanswered(w, iteration, calls, runs, answers)
  }

  /** A reply first, if anything, and then tool messages. */
  predicate IsTurn(turn: seq<Message>) {
    forall i :: 0 <= i < |turn| ==> if i == 0 then turn[i].role.Assistant? else IsToolMessage(turn[i])
  }

  lemma {:induction false} TurnLists(turn: seq<Message>)
    requires IsTurn(turn)
    ensures CallLists(turn) == if turn != [] && Calls(turn[0].content) != [] then [Calls(turn[0].content)] else []
    decreases |turn|
  {
    if |turn| == 1 {
      assert turn[..0] == [];
    } else if turn != [] {
      TurnLists(turn[..|turn| - 1]);
    }
  }

  lemma {:induction false} CallListsConcat(a: seq<Message>, b: seq<Message>)
    ensures CallLists(a + b) == CallLists(a) + CallLists(b)
    decreases |b|
  {
    if b == [] {
      assert a + b == a;
    } else {
      assert (a + b)[..|a + b| - 1] == a + b[..|b| - 1];
      CallListsConcat(a, b[..|b| - 1]);
    }
  }

  /** One more turn behind those of the iterations before it. */
  lemma TurnSaid(w: World, base: seq<Message>, turns: seq<Message>, turn: seq<Message>)
    requires AllSaid(w, base, turns) && IsTurn(turn)
    requires turn != [] ==> Said(w, |CallLists(turns)|, base + turns, turn[0])
    ensures AllSaid(w, base, turns + turn)
  {
    var all := turns + turn;
    forall k | 0 <= k < |all| && all[k].role.Assistant?
      ensures Said(w, |CallLists(all[..k])|, base + all[..k], all[k])
    {
      if k < |turns| {
        assert all[k] == turns[k] && all[..k] == turns[..k];
      } else {
        assert all[k] == turn[k - |turns|];
        assert all[..|turns|] == turns;
      }
    }
  }

  lemma OneMoreBatch(w: World, lists: seq<seq<Block>>, batches: seq<seq<Execution>>, calls: seq<Block>,
                     runs: seq<Execution>, broken: bool)
    requires Executed(w, lists, batches, false) && Batch(w, |lists|, calls, runs)
    requires !broken ==> Whole(w, |lists|, calls, runs)
    ensures Executed(w, lists + [calls], batches + [runs], broken) && Joined(batches + [runs]) == Joined(batches) + runs
  {
    assert (batches + [runs])[..|batches|] == batches;
  }

  /** What the last turn of a transcript may look like when a run ends. */
  ghost predicate EndsLike(added: seq<Message>, settled: nat, end: Ending) {
    settled <= |added| &&
    match end
    case Broken(InReply) => |added| <= settled + 1 && (|added| > settled ==> added[settled].role.Assistant?)
    case Broken(AfterReply) => |added| <= settled + 1 && (|added| > settled ==> added[settled].role.Assistant?)
    case Broken(AfterResults) =>
      && |added| > settled && added[settled].role.Assistant?
      && forall i :: settled < i < |added| ==> IsToolMessage(added[i])
    case _ => |added| == settled
  }

  /** Complete turns, with matching identifiers when the tool hooks keep them. */
  ghost predicate Complete(w: World, ms: seq<Message>) {
    Answered(ms, false) && (KeepsIds(w) ==> Answered(ms, true))
  }

  lemma CompleteConcat(w: World, a: seq<Message>, b: seq<Message>)
    requires Complete(w, a) && Complete(w, b)
    ensures Complete(w, a + b)
  {
    AnsweredConcat(a, b, false);
    if KeepsIds(w) {
      AnsweredConcat(a, b, true);
    }
  }

  lemma TurnComplete(w: World, reply: Message, results: seq<ToolResult>)
    requires reply.role.Assistant? && |results| == |Calls(reply.content)|
    requires KeepsIds(w) ==> forall i :: 0 <= i < |results| ==> results[i].callId == Calls(reply.content)[i].callId
    ensures Complete(w, [reply] + ResultMessages(results))
  {
    TurnAnsweredIff(reply, results, false);
    if KeepsIds(w) {
      TurnAnsweredIff(reply, results, true);
    }
  }

  /** The gate's answer is all that decides which of the merged calls are refused. */
  lemma MergedByGate(w: World, iteration: nat, calls: seq<Block>, merged: seq<Block>, runs: seq<Execution>)
    requires w.gate(iteration, calls).Some? && UniqueIds(w.gate(iteration, calls).value)
    requires Reconciled(w, calls, w.gate(iteration, calls).value, merged)
    requires OncePerSlot(runs) && Unrefused(w, iteration, merged, runs) && (runs == [] || AllUnrefused(merged, runs))
    ensures Batch(w, iteration, calls, runs) && (AllUnrefused(merged, runs) ==> Whole(w, iteration, calls, runs))
  {
    forall i | 0 <= i < |calls| ensures !merged[i].isError <==> LetThrough(w, iteration, calls, calls[i]) {
      GateDecides(w, iteration, calls, merged, i);
    }
    forall k | 0 <= k < |runs| ensures Permitted(w, iteration, calls, runs[k]) {
      assert Keeps(w, iteration, calls, calls[runs[k].slot], merged[runs[k].slot]);
    }
  }

  lemma GateDecides(w: World, iteration: nat, calls: seq<Block>, merged: seq<Block>, i: nat)
    requires w.gate(iteration, calls).Some? && UniqueIds(w.gate(iteration, calls).value)
    requires Reconciled(w, calls, w.gate(iteration, calls).value, merged) && i < |calls|
    ensures !merged[i].isError <==> LetThrough(w, iteration, calls, calls[i])
    ensures !merged[i].isError ==> Keeps(w, iteration, calls, calls[i], merged[i])
  {
    var accepted := w.gate(iteration, calls).value;
    if Answers(accepted, calls[i], merged[i]) {
      assert !merged[i].isError ==> Keeps(w, iteration, calls, calls[i], merged[i]);
      forall kept | Keeps(w, iteration, calls, calls[i], kept) ensures kept == merged[i] {
        var j, k :| 0 <= j < |accepted| && 0 <= k < |accepted| && accepted[j] == kept && accepted[k] == merged[i];
        assert j == k;
      }
    }
  }

  /** What holds between iterations. */
  ghost predicate Steady(w: World, base: seq<Message>, turns: seq<Message>, batches: seq<seq<Execution>>) {
    && Complete(w, turns) && AllSaid(w, base, turns)
    && Executed(w, CallLists(turns), batches, false) && AllTold(w, turns, batches)
  }

  /** What one iteration adds to the transcript and to the tools' log. */
  ghost predicate Iterated(w: World, iteration: nat, before: seq<Message>, end: Ending, turn: seq<Message>,
                           runs: seq<Execution>) {
    var calls := if turn == [] then [] else Calls(turn[0].content);
    && IsTurn(turn) && EndsLike(turn, if end.Broken? then 0 else |turn|, end)
    && (turn != [] ==> Said(w, iteration, before, turn[0])) && Batch(w, iteration, calls, runs)
    && (!end.Broken? ==> Complete(w, turn) && Whole(w, iteration, calls, runs))
    && (end.OutOfIterations? ==> calls != []) && (end.Finished? ==> calls == []) && (calls == [] ==> runs == [])
    && (!end.Broken? && calls != [] ==> |turn| == 1 + |calls| && Delivered(w, iteration, calls, runs, turn[1..]))
    && (end != Broken(BeforeReply) ==> (turn != [] <==> Speaks(w, iteration, before)))
    && (if end.Broken? then Fault(w, iteration, before, end.stage, runs, if turn == [] then [] else turn[1..])
        else Smooth(w, iteration, before))
  }

  /** The reply that amounted to `acc` was taken whole. */
  ghost predicate TakenWhole(w: World, iteration: nat, before: seq<Message>, acc: Accumulator) {
    var answer := w.provider(iteration, before);
    w.ready(iteration) && answer.Stream? && !answer.interrupted && Consumed(w, iteration, answer.chunks) == (acc, true)
  }

  function AsTurn(reply: Option<Message>): seq<Message> { if reply.Some? then [reply.value] else [] }

  /** A reply that could not be passed on. */
  lemma ReplyStuck(w: World, iteration: nat, before: seq<Message>, acc: Accumulator)
    requires TakenWhole(w, iteration, before, acc) && !Smooth(w, iteration, before)
    ensures Iterated(w, iteration, before, Broken(AfterReply), AsTurn(MessageOf(acc)), [])
  {
    AsTurnIs(MessageOf(acc));
  }

  /** A reply without calls. */
  lemma ReplyFinal(w: World, iteration: nat, before: seq<Message>, acc: Accumulator)
    requires TakenWhole(w, iteration, before, acc) && Smooth(w, iteration, before) && Calls(acc.content) == []
    ensures Iterated(w, iteration, before, Finished, AsTurn(MessageOf(acc)), [])
  {
    AsTurnIs(MessageOf(acc));
    if MessageOf(acc).Some? {
      OneTurn(AsTurn(MessageOf(acc)), false);
      OneTurn(AsTurn(MessageOf(acc)), true);
    }
  }

  lemma AsTurnIs(reply: Option<Message>)
    ensures var turn := AsTurn(reply);
            if reply.Some? then |turn| == 1 && turn[0] == reply.value && turn[1..] == [] else turn == []
  {
  }

  lemma ReplyWithCalls(w: World, iteration: nat, before: seq<Message>, acc: Accumulator, end: Ending,
                       turn: seq<Message>, runs: seq<Execution>)
    requires TakenWhole(w, iteration, before, acc) && Smooth(w, iteration, before)
    requires MessageOf(acc).Some? && turn != [] && turn[0] == MessageOf(acc).value && IsTurn(turn)
    requires end in {OutOfIterations, Broken(AfterReply), Broken(AfterResults)}
    requires EndsLike(turn, if end.Broken? then 0 else |turn|, end) && (!end.Broken? ==> Complete(w, turn))
    requires Calls(acc.content) != [] && Batch(w, iteration, Calls(acc.content), runs)
    requires !end.Broken? ==> Whole(w, iteration, Calls(acc.content), runs)
    requires if end.Broken? then Unanswered(w, iteration, Calls(acc.content), runs, turn[1..])
             else |turn| == 1 + |Calls(acc.content)| && Delivered(w, iteration, Calls(acc.content), runs, turn[1..])
    ensures Iterated(w, iteration, before, end, turn, runs)
  {
  }

  /** How the messages added by a run end, `settled` of them being complete turns. */
  ghost predicate Ran(w: World, base: seq<Message>, added: seq<Message>, settled: nat, end: Ending,
                      batches: seq<seq<Execution>>, maxIterations: nat) {
    && EndsLike(added, settled, end) && Complete(w, added[..settled])
    && AllSaid(w, base, added) && Executed(w, CallLists(added), batches, end.Broken?)
    && AllTold(w, added[..settled], batches)
    && (end.OutOfIterations? ==> |batches| == maxIterations) && (end.Finished? ==> |batches| < maxIterations)
    && (end.Broken? ==>
          var n := |CallLists(added[..settled])|;
          Fault(w, n, base + added[..settled], end.stage, if n < |batches| then batches[n] else [],
                if |added| > settled then added[settled + 1..] else [])
          && (end.stage != BeforeReply ==> (|added| > settled <==> Speaks(w, n, base + added[..settled]))))
  }

  function Joining(batches: seq<seq<Execution>>, turn: seq<Message>, runs: seq<Execution>): seq<seq<Execution>> {
    if CallLists(turn) == [] then batches else batches + [runs]
  }

  lemma OneMoreTurn(w: World, base: seq<Message>, turns: seq<Message>, batches: seq<seq<Execution>>,
                    end: Ending, turn: seq<Message>, runs: seq<Execution>)
    requires Steady(w, base, turns, batches) && Iterated(w, |CallLists(turns)|, base + turns, end, turn, runs)
    ensures AllSaid(w, base, turns + turn) && (!end.Broken? ==> Complete(w, turns + turn))
    ensures !end.Broken? ==> AllTold(w, turns + turn, Joining(batches, turn, runs))
    ensures Executed(w, CallLists(turns + turn), Joining(batches, turn, runs), end.Broken?)
    ensures |CallLists(turns + turn)| == |CallLists(turns)| + |CallLists(turn)| && |CallLists(turn)| <= 1
    ensures (end.OutOfIterations? ==> |CallLists(turn)| == 1) && (end.Finished? ==> |CallLists(turn)| == 0)
    ensures Joined(Joining(batches, turn, runs)) == Joined(batches) + runs
  {
    TurnSaid(w, base, turns, turn);
    MoreExecuted(w, turns, batches, end, turn, runs);
    if !end.Broken? {
      CompleteConcat(w, turns, turn);
      TurnTold(w, turns, turn, batches, runs);
    }
  }

  lemma MoreExecuted(w: World, turns: seq<Message>, batches: seq<seq<Execution>>, end: Ending, turn: seq<Message>,
                     runs: seq<Execution>)
    requires Executed(w, CallLists(turns), batches, false) && IsTurn(turn)
    requires var calls := if turn == [] then [] else Calls(turn[0].content);
             Batch(w, |CallLists(turns)|, calls, runs) && (!end.Broken? ==> Whole(w, |CallLists(turns)|, calls, runs))
             && (calls == [] ==> runs == [])
    ensures Executed(w, CallLists(turns + turn), Joining(batches, turn, runs), end.Broken?)
    ensures |CallLists(turns + turn)| == |CallLists(turns)| + |CallLists(turn)|
    ensures |CallLists(turn)| == if turn == [] || Calls(turn[0].content) == [] then 0 else 1
    ensures Joined(Joining(batches, turn, runs)) == Joined(batches) + runs
  {
    CallListsConcat(turns, turn);
    TurnLists(turn);
    if CallLists(turn) == [] {
      assert CallLists(turns) + [] == CallLists(turns) && Joined(batches) + [] == Joined(batches);
    } else {
      OneMoreBatch(w, CallLists(turns), batches, CallLists(turn)[0], runs, end.Broken?);
    }
  }

  /** The turn a run breaks off in. */
  lemma BrokenTurn(w: World, base: seq<Message>, turns: seq<Message>, batches: seq<seq<Execution>>,
                   end: Ending, turn: seq<Message>, runs: seq<Execution>, maxIterations: nat)
    requires Steady(w, base, turns, batches) && Iterated(w, |CallLists(turns)|, base + turns, end, turn, runs)
    requires end.Broken?
    ensures Ran(w, base, turns + turn, |turns|, end, Joining(batches, turn, runs), maxIterations)
  {
    var all, more := turns + turn, Joining(batches, turn, runs);
    OneMoreTurn(w, base, turns, batches, end, turn, runs);
    LastEnds(turns, turn, end);
    BatchesLater(w, turns, batches, more[|batches|..]);
    TurnLists(turn);
    BrokenSlices(turns, turn, batches, runs);
  }

  lemma BrokenSlices(turns: seq<Message>, turn: seq<Message>, batches: seq<seq<Execution>>, runs: seq<Execution>)
    ensures var all, more := turns + turn, Joining(batches, turn, runs);
            && |batches| <= |more| && batches + more[|batches|..] == more && all[..|turns|] == turns
            && (if |all| > |turns| then all[|turns| + 1..] else []) == (if turn == [] then [] else turn[1..])
            && (|more| > |batches| ==> more[|batches|] == runs)
  {
  }

  /** A run that did not break off. */
  lemma NothingBroken(w: World, base: seq<Message>, turns: seq<Message>, batches: seq<seq<Execution>>, end: Ending,
                      maxIterations: nat)
    requires Steady(w, base, turns, batches) && !end.Broken?
    requires if end.Finished? then |batches| < maxIterations else |batches| == maxIterations
    ensures Ran(w, base, turns, |turns|, end, batches, maxIterations)
  {
    assert turns[..|turns|] == turns;
  }

  /** The turn a run finishes in. */
  lemma FinishedTurn(w: World, base: seq<Message>, turns: seq<Message>, batches: seq<seq<Execution>>,
                     turn: seq<Message>, runs: seq<Execution>, maxIterations: nat)
    requires Steady(w, base, turns, batches) && Iterated(w, |CallLists(turns)|, base + turns, Finished, turn, runs)
    requires |CallLists(turns)| < maxIterations
    ensures Ran(w, base, turns + turn, |turns + turn|, Finished, Joining(batches, turn, runs), maxIterations)
  {
    OneMoreTurn(w, base, turns, batches, Finished, turn, runs);
    NothingBroken(w, base, turns + turn, Joining(batches, turn, runs), Finished, maxIterations);
  }

  /** One iteration, and where it leaves the run. */
  lemma Advance(w: World, base: seq<Message>, turns: seq<Message>, batches: seq<seq<Execution>>,
                end: Ending, turn: seq<Message>, runs: seq<Execution>, maxIterations: nat)
    requires Steady(w, base, turns, batches) && Iterated(w, |CallLists(turns)|, base + turns, end, turn, runs)
    requires |CallLists(turns)| < maxIterations
    ensures end.OutOfIterations? ==> Steady(w, base, turns + turn, Joining(batches, turn, runs))
    ensures end.OutOfIterations? ==> |CallLists(turns + turn)| == |CallLists(turns)| + 1
    ensures !end.OutOfIterations? ==>
              Ran(w, base, turns + turn, if end.Broken? then |turns| else |turns + turn|, end,
                  Joining(batches, turn, runs), maxIterations)
    ensures Joined(Joining(batches, turn, runs)) == Joined(batches) + runs
  {
    OneMoreTurn(w, base, turns, batches, end, turn, runs);
    if end.Broken? {
      BrokenTurn(w, base, turns, batches, end, turn, runs, maxIterations);
    } else if end.Finished? {
      FinishedTurn(w, base, turns, batches, turn, runs, maxIterations);
    }
  }

  lemma BatchesLater(w: World, turns: seq<Message>, batches: seq<seq<Execution>>, later: seq<seq<Execution>>)
    requires AllTold(w, turns, batches)
    ensures AllTold(w, turns, batches + later)
  {
    assert turns + [] == turns;
    forall k | 0 <= k < |turns| ensures ToldAt(w, turns, batches + later, k) {
      StillTold(w, turns, [], batches, later, k);
    }
  }

  lemma LastEnds(turns: seq<Message>, turn: seq<Message>, end: Ending)
    requires EndsLike(turn, if end.Broken? then 0 else |turn|, end)
    ensures EndsLike(turns + turn, if end.Broken? then |turns| else |turns + turn|, end)
  {
    assert forall i :: |turns| <= i < |turns + turn| ==> (turns + turn)[i] == turn[i - |turns|];
  }

  /** How passing results on ends: where the first listener refuses them, or else as the tools did. */
  ghost function PassedOn(w: World, iteration: nat, ok: bool, results: seq<ToolResult>): Ending {
    if results == [] then if ok then OutOfIterations else Broken(AfterReply)
    else if !w.emits(iteration, OnResults) then Broken(AfterReply)
    else if ok && Heard(w, iteration, |results|) then OutOfIterations
    else Broken(AfterResults)
  }

  /** What the answers to the calls of a reply amount to once the tools are through. */
  lemma CallsSettled(w: World, iteration: nat, calls: seq<Block>, merged: seq<Block>, runs: seq<Execution>,
                     settled: seq<ToolResult>, results: seq<ToolResult>, ok: bool, end: Ending)
    requires calls != [] && Gated(w, iteration, calls) && Reconciled(w, calls, w.gate(iteration, calls).value, merged)
    requires if exists i :: PrepareFault(w, iteration, merged, i) then !ok && results == []
             else Settled(w, iteration, merged, runs, settled) && Leftover(w, iteration, settled, results)
                  && (!ok <==> ReportFault(w, iteration, settled))
    requires ok ==> Reported(w, iteration, settled, results) && |results| == |calls|
    requires end == PassedOn(w, iteration, ok, results)
    ensures if end.Broken? then
              Unanswered(w, iteration, calls, runs, if end == Broken(AfterReply) then [] else ResultMessages(results))
            else Delivered(w, iteration, calls, runs, ResultMessages(results))
  {
    if end.Broken? {
      assert ToolFault(w, iteration, merged, runs, settled, results,
                       if end == Broken(AfterReply) then [] else ResultMessages(results));
    } else {
      assert DeliveredAs(w, iteration, calls, runs, ResultMessages(results), merged, settled, results);
    }
  }

  class Agent {
    const tools: Toolbox
    var messages: seq<Message>

    constructor (tools: Toolbox)
      ensures this.tools == tools && messages == []
    {
      this.tools, messages := tools, [];
    }

    /** Runs one user turn. Whatever the provider, the gate, the hooks and the tools do:
        - the first `settled` messages after the user's form complete turns, and a run that finishes,
          exhausts its iterations or fails between turns leaves nothing else behind;
        - every assistant message is the provider's answer to the transcript before it;
        - the tools that ran are, iteration by iteration, those of exactly the calls its gate let
          through, once each, or none at all when the run broke off in that iteration;
        - each call of a complete turn is answered by what its tool answered, or by its refusal, as the
          hooks after execution left it;
        - and the run breaks off only where a hook, the provider or a listener is at fault. */
    method ExecuteLoop(w: World, maxIterations: nat, user: Message)
      returns (end: Ending, ghost added: seq<Message>, ghost settled: nat, ghost batches: seq<seq<Execution>>)
      modifies this, tools
      ensures messages == old(messages) + [user] + added
      ensures tools.log == old(tools.log) + Joined(batches) && tools.Answered(Joined(batches))
      ensures Ran(w, old(messages) + [user], added, settled, end, batches, maxIterations)
    {
      messages := messages + [user];
      ghost var base := messages;
      added, batches := [], [];
      var iteration := 0;
      while iteration < maxIterations
        invariant messages == base + added && Steady(w, base, added, batches)
        invariant iteration == |CallLists(added)| <= maxIterations
        invariant tools.log == old(tools.log) + Joined(batches) && tools.Answered(Joined(batches))
      {
        ghost var turn, runs;
        end, turn, runs := RunTurn(w, iteration);
        Associates(base, added, turn);
        Associates(old(tools.log), Joined(batches), runs);
        tools.AnsweredMore(Joined(batches), runs);
        Advance(w, base, added, batches, end, turn, runs, maxIterations);
        settled := if end.Broken? then |added| else |added + turn|;
        added, batches := added + turn, Joining(batches, turn, runs);
        if end != OutOfIterations {
          return;
        }
        iteration := iteration + 1;
      }
      end, settled := OutOfIterations, |added|;
      NothingBroken(w, base, added, batches, end, maxIterations);
    }

    /** One iteration. `OutOfIterations` here means that the loop goes on. */
    method RunTurn(w: World, iteration: nat) returns (end: Ending, ghost turn: seq<Message>, ghost runs: seq<Execution>)
      modifies this, tools
      ensures messages == old(messages) + turn && tools.log == old(tools.log) + runs && tools.Answered(runs)
      ensures Iterated(w, iteration, old(messages), end, turn, runs)
    {
      turn, runs := [], [];
      if !w.ready(iteration) {
        return Broken(BeforeReply), turn, runs;
      }
      var answer := w.provider(iteration, messages);
      if answer.NoStream? {
        return Broken(BeforeReply), turn, runs;
      }
      var acc, ok := ConsumeStream(w, iteration, answer.chunks, answer.interrupted);
      var reply := MessageOf(acc);
      if !ok {
        if reply.Some? {
          turn := [reply.value.(incomplete := true)];
          messages := messages + [reply.value.(incomplete := true)];
        }
        return Broken(InReply), turn, runs;
      }
      end, turn, runs := TakeReply(w, iteration, acc, reply);
    }

    /** A reply that has been taken whole. */
    method TakeReply(w: World, iteration: nat, acc: Accumulator, reply: Option<Message>)
      returns (end: Ending, ghost turn: seq<Message>, ghost runs: seq<Execution>)
      requires TakenWhole(w, iteration, messages, acc) && reply == MessageOf(acc)
      requires ValidCalls(w.json, Calls(acc.content))
      modifies this, tools
      ensures messages == old(messages) + turn && tools.log == old(tools.log) + runs && tools.Answered(runs)
      ensures Iterated(w, iteration, old(messages), end, turn, runs)
    {
      turn, runs := [], [];
      if !Smooth(w, iteration, messages) {
        ReplyStuck(w, iteration, messages, acc);
      } else if Calls(acc.content) == [] {
        ReplyFinal(w, iteration, messages, acc);
      }
      if reply.Some? {
        turn := [reply.value];
        messages := messages + [reply.value];
        if !w.emits(iteration, OnCompletion) || !w.emits(iteration, OnReplyState) {
          return Broken(AfterReply), turn, runs;
        }
      }
      if !w.postModel(iteration) {
        return Broken(AfterReply), turn, runs;
      }
      var calls := CollectCalls(acc.content);
      if |calls| == 0 {
        return Finished, turn, runs;
      }
      end, turn, runs := AnswerCalls(w, iteration, old(messages), reply.value, calls);
      ReplyWithCalls(w, iteration, old(messages), acc, end, turn, runs);
    }

    /** The calls of a reply that has just been appended behind `before`. */
    method AnswerCalls(w: World, iteration: nat, ghost before: seq<Message>, ghost reply: Message, calls: seq<Block>)
      returns (end: Ending, ghost turn: seq<Message>, ghost runs: seq<Execution>)
      requires messages == before + [reply] && reply.role.Assistant? && calls == Calls(reply.content)
      requires calls != [] && ValidCalls(w.json, calls)
      modifies this, tools
      ensures end in {OutOfIterations, Broken(AfterReply), Broken(AfterResults)}
      ensures messages == before + turn && IsTurn(turn) && turn != [] && turn[0] == reply
      ensures EndsLike(turn, if end.Broken? then 0 else |turn|, end)
      ensures !end.Broken? ==> Complete(w, turn)
      ensures tools.log == old(tools.log) + runs && tools.Answered(runs)
      ensures Batch(w, iteration, calls, runs) && (!end.Broken? ==> Whole(w, iteration, calls, runs))
      ensures if end.Broken? then Unanswered(w, iteration, calls, runs, turn[1..])
              else |turn| == 1 + |calls| && Delivered(w, iteration, calls, runs, turn[1..])
    {
      turn := [reply];
      var results;
      end, results, runs := SettleCalls(w, iteration, calls);
      if end == Broken(AfterReply) {
        assert turn[1..] == [];
        return;
      }
      turn := [reply] + ResultMessages(results);
      assert turn[1..] == ResultMessages(results);
      Associates(before, [reply], ResultMessages(results));
      if end == OutOfIterations {
        TurnComplete(w, reply, results);
      }
    }

    /** From the gate to the appended results. The results are appended unless nothing came back
        or reporting them failed. */
    method SettleCalls(w: World, iteration: nat, calls: seq<Block>)
      returns (end: Ending, results: seq<ToolResult>, ghost runs: seq<Execution>)
      requires calls != [] && ValidCalls(w.json, calls)
      modifies this, tools
      ensures end in {OutOfIterations, Broken(AfterReply), Broken(AfterResults)}
      ensures messages == if end == Broken(AfterReply) then old(messages) else old(messages) + ResultMessages(results)
      ensures end == OutOfIterations ==> |results| == |calls|
      ensures end == OutOfIterations && KeepsIds(w) ==>
                forall i :: 0 <= i < |calls| ==> results[i].callId == calls[i].callId
      ensures tools.log == old(tools.log) + runs && tools.Answered(runs)
      ensures Batch(w, iteration, calls, runs) && (!end.Broken? ==> Whole(w, iteration, calls, runs))
      ensures if end.Broken? then
                Unanswered(w, iteration, calls, runs, if end == Broken(AfterReply) then [] else ResultMessages(results))
              else Delivered(w, iteration, calls, runs, ResultMessages(results))
    {
      results, runs := [], [];
      var gated := w.gate(iteration, calls);
      if gated.None? {
        return Broken(AfterReply), results, runs;
      }
      var accepted := gated.value;
      var valid := ValidateToolCalls(w.json, accepted);
      if !valid {
        return Broken(AfterReply), results, runs;
      }
      var merged := ReconcileRefusedCalls(w, calls, accepted);
      if !w.emits(iteration, OnCalls) {
        return Broken(AfterReply), results, runs;
      }
      var ok;
      ghost var left;
      ok, results, left, runs := RunTools(w, tools, iteration, merged);
      MergedByGate(w, iteration, calls, merged, runs);
      if ok && KeepsIds(w) {
        IdsKept(w, iteration, merged, runs, left, results);
      }
      end := PassOn(w, iteration, ok, results);
      CallsSettled(w, iteration, calls, merged, runs, left, results, ok, end);
    }

    /** Reporting what came back, and appending it in between. */
    method PassOn(w: World, iteration: nat, ok: bool, results: seq<ToolResult>) returns (end: Ending)
      modifies this`messages
      ensures messages == if end == Broken(AfterReply) then old(messages) else old(messages) + ResultMessages(results)
      ensures end == PassedOn(w, iteration, ok, results)
    {
      if |results| > 0 {
        if !w.emits(iteration, OnResults) {
          return Broken(AfterReply);
        }
        messages := messages + ResultMessages(results);
        for i := 0 to |results|
          invariant forall j: nat :: j < i ==> w.emits(iteration, OnResultState(j))
        {
          if !w.emits(iteration, OnResultState(i)) {
            return Broken(AfterResults);
          }
        }
      }
      end := if ok then OutOfIterations else if |results| > 0 then Broken(AfterResults) else Broken(AfterReply);
    }
  }
}
