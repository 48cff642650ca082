/** The tools of a turn (internal/core/loop.go): a gate's answer is merged into the calls of a reply,
    and the calls it did not refuse run concurrently. */
module ToolRuns {
  import opened Common
  import opened Transcript

  datatype Invocation = Invocation(callId: string, toolName: string, input: string)

  datatype ToolResult = ToolResult(callId: string, toolName: string, output: string, isError: bool, error: string)

  /** How one call of a tool ends. */
  datatype Outcome = Unregistered | Panicked(reason: string) | Errored(reason: string) | Returned(result: ToolResult)

  /** What the provider answers to a request. `interrupted` stands for a context cancelled once the
      chunks were consumed. */
  datatype Reply = NoStream | Stream(chunks: seq<Chunk>, interrupted: bool)

  /** The places where emitting an event can fail. */
  datatype Point = OnPartial(chunk: nat) | OnCompletion | OnReplyState | OnCalls | OnResults
                 | OnResultState(index: nat)

  /** How a hook ends: with an error, with an answer of the wrong type, or as it should. */
  datatype Hooked<+T> = Failed | Mistyped | Hooked(value: T)

  /** Everything outside the loop but the tools: hooks and provider are arbitrary functions of the
      iteration and of what they are handed. `None` stands for a hook that fails or answers with
      the wrong type, where the loop treats both alike; `ready` for the context and request hooks
      before the provider is called. */
  datatype World = World(
    json: Json, quote: string -> string, unquote: string -> Option<string>,
    ready: nat -> bool,
    provider: (nat, seq<Message>) -> Reply,
    emits: (nat, Point) -> bool,
    postModel: nat -> bool,
    gate: (nat, seq<Block>) -> Option<seq<Block>>,
    preTool: (nat, nat, Invocation) -> Option<Invocation>,
    postTools: (nat, seq<ToolResult>) -> Hooked<seq<ToolResult>>,
    onResult: (nat, nat, ToolResult) -> Option<ToolResult>)

  /** One invocation handed to a tool: in which iteration, in the slot of which call, with which calls
      of its batch unfinished, and how it ended. */
  datatype Execution = Execution(iteration: nat, slot: nat, invocation: Invocation, waiting: set<nat>, outcome: Outcome)

  /** The registered tools, each an arbitrary function of what it is handed and of which calls of
      its batch are still unfinished. Every use of one is logged. */
  class Toolbox {
    const tool: (nat, Invocation, set<nat>) -> Outcome
    ghost var log: seq<Execution>

    constructor (tool: (nat, Invocation, set<nat>) -> Outcome)
      ensures this.tool == tool && log == []
    {
      this.tool, log := tool, [];
    }

    method Execute(iteration: nat, slot: nat, invocation: Invocation, waiting: set<nat>) returns (outcome: Outcome)
      modifies this
      ensures outcome == tool(iteration, invocation, waiting)
      ensures log == old(log) + [Execution(iteration, slot, invocation, waiting, outcome)]
    {
      outcome := tool(iteration, invocation, waiting);
      log := log + [Execution(iteration, slot, invocation, waiting, outcome)];
    }

    /** These entries are what the tools answered. */
    ghost predicate Answered(runs: seq<Execution>) {
      forall k :: 0 <= k < |runs| ==> runs[k].outcome == tool(runs[k].iteration, runs[k].invocation, runs[k].waiting)
    }

    lemma AnsweredMore(a: seq<Execution>, b: seq<Execution>)
      requires Answered(a) && Answered(b)
      ensures Answered(a + b)
    {
    }
  }

  // ---------------------------------------------------------------------------
  // Refusals
  // ---------------------------------------------------------------------------

  function RefusalText(w: World, toolName: string): string {
    "tool " + w.quote(toolName) + " was refused by policy before it ran"
  }

  function Refused(w: World, call: Block): Block {
    call.(isError := true, output := w.quote(RefusalText(w, call.toolName)))
  }

  ghost predicate Answers(accepted: seq<Block>, call: Block, kept: Block) {
    kept in accepted && kept.callId == call.callId
  }

  /** One call per original call, under its own identifier; the gate's version where it gave one, a
      refusal where it gave none. */
  ghost predicate Reconciled(w: World, original: seq<Block>, accepted: seq<Block>, merged: seq<Block>) {
    |merged| == |original| && forall i :: 0 <= i < |merged| ==> ReconciledCall(w, accepted, original[i], merged[i])
  }

  ghost predicate ReconciledCall(w: World, accepted: seq<Block>, call: Block, kept: Block) {
    kept.callId == call.callId &&
    (Answers(accepted, call, kept) ||
     (RefusedCall(w, call, kept) && forall k :: 0 <= k < |accepted| ==> accepted[k].callId != call.callId))
  }

  /** The call marked as failed, with a reason in place of an output. */
  ghost predicate RefusedCall(w: World, call: Block, kept: Block) {
    && kept == call.(isError := true, output := kept.output)
    && kept.output == w.quote("tool " + w.quote(call.toolName) + " was refused by policy before it ran")
  }

  /** `reconcileRefusedCalls`. */
  method ReconcileRefusedCalls(w: World, original: seq<Block>, accepted: seq<Block>) returns (merged: seq<Block>)
    requires UniqueIds(accepted)
    ensures Reconciled(w, original, accepted, merged)
  {
    var byId: map<string, Block> := map[];
    for k := 0 to |accepted|
      invariant forall id :: id in byId ==> byId[id].callId == id && byId[id] in accepted
      invariant forall m :: 0 <= m < k ==> accepted[m].callId in byId
    {
      byId := byId[accepted[k].callId := accepted[k]];
    }
    merged := [];
    for i := 0 to |original|
      invariant |merged| == i && forall m :: 0 <= m < i ==> ReconciledCall(w, accepted, original[m], merged[m])
    {
      var call := original[i];
      var kept := if call.callId in byId then byId[call.callId] else Refused(w, call);
      merged := merged + [kept];
    }
  }

  // ---------------------------------------------------------------------------
  // Tools
  // ---------------------------------------------------------------------------

  function ErrorResult(w: World, inv: Invocation, error: string): ToolResult {
    ToolResult(inv.callId, inv.toolName, "{\"error\":" + w.quote(error) + "}", true, error)
  }

  /** A refusal answers the call as an error, in the gate's words where it gave any. */
  function RefusedResult(w: World, inv: Invocation, refusal: Block): (r: ToolResult)
    ensures r.callId == inv.callId && r.toolName == inv.toolName && r.isError
    ensures refusal.output != "" ==> r.output == refusal.output
    ensures w.unquote(refusal.output).Some? && w.unquote(refusal.output).value != "" ==>
              r.error == w.unquote(refusal.output).value
    ensures w.unquote(refusal.output) in {None, Some("")} ==> r.error == RefusalText(w, inv.toolName)
    ensures refusal.output == "" ==> r.output == "{\"error\":" + w.quote(r.error) + "}"
  {
    var reason := match w.unquote(refusal.output)
      case Some(text) => if text != "" then text else RefusalText(w, inv.toolName)
      case None => RefusalText(w, inv.toolName);
    var result := ErrorResult(w, inv, reason);
    if refusal.output != "" then result.(output := refusal.output) else result
  }

  function OrNull(output: string): string { if output == "" then "null" else output }

  /** `executeTool`: whatever the tool does, the result answers this invocation. Valid output comes
      through with its flags, and everything else is an error that says so. */
  function ExecuteTool(w: World, inv: Invocation, outcome: Outcome): (r: ToolResult)
    ensures r.callId == inv.callId && r.toolName == inv.toolName
    ensures outcome.Returned? && outcome.result.output != "" && w.json.valid(outcome.result.output) ==>
              r == outcome.result.(callId := inv.callId, toolName := inv.toolName)
    ensures outcome.Returned? && outcome.result.output == "" && w.json.valid("null") ==>
              r == outcome.result.(callId := inv.callId, toolName := inv.toolName, output := "null")
    ensures !outcome.Returned? || !w.json.valid(OrNull(outcome.result.output)) ==>
              r.isError && r.output == "{\"error\":" + w.quote(r.error) + "}"
    ensures outcome.Errored? ==> r.error == outcome.reason
    ensures outcome.Panicked? ==> r.error == "tool " + w.quote(inv.toolName) + " panicked: " + outcome.reason
    ensures outcome.Unregistered? ==> r.error == "tool " + w.quote(inv.toolName) + " is not registered"
  {
    match outcome
    case Unregistered => ErrorResult(w, inv, "tool " + w.quote(inv.toolName) + " is not registered")
    case Panicked(reason) => ErrorResult(w, inv, "tool " + w.quote(inv.toolName) + " panicked: " + reason)
    case Errored(reason) => ErrorResult(w, inv, reason)
    case Returned(result) =>
      var output := OrNull(result.output);
      if !w.json.valid(output) then ErrorResult(w, inv, "tool returned invalid JSON output")
      else result.(output := output, callId := inv.callId, toolName := inv.toolName)
  }

  /** What goroutine `i` leaves in its slot: the refusal, in the gate's words, or what the logged
      execution of that slot came to. */
  ghost predicate Settles(w: World, i: nat, inv: Invocation, refused: bool, refusal: Block, runs: seq<Execution>,
                          r: ToolResult) {
    r.callId == inv.callId && r.toolName == inv.toolName &&
    if refused then r == RefusedResult(w, inv, refusal) else Came(w, i, inv, runs, r)
  }

  ghost predicate Came(w: World, i: nat, inv: Invocation, runs: seq<Execution>, r: ToolResult) {
    exists k :: 0 <= k < |runs| && runs[k].slot == i && r == ExecuteTool(w, inv, runs[k].outcome)
  }

  function RefusalOf(refusals: map<nat, Block>, i: nat): Block {
    if i in refusals then refusals[i] else PLAIN
  }

  /** The calls whose tools ran. */
  function Slots(runs: seq<Execution>): (slots: set<nat>)
    ensures forall k :: 0 <= k < |runs| ==> runs[k].slot in slots
  {
    set k | 0 <= k < |runs| :: runs[k].slot
  }

  ghost predicate OncePerSlot(runs: seq<Execution>) {
    forall j, k :: 0 <= j < k < |runs| ==> runs[j].slot != runs[k].slot
  }

  /** The goroutine of one invocation; refused calls never reach a tool. */
  method SettleOne(w: World, tools: Toolbox, iteration: nat, slot: nat, inv: Invocation, refused: bool, refusal: Block,
                   waiting: set<nat>)
    returns (r: ToolResult, ghost runs: seq<Execution>)
    modifies tools
    ensures tools.log == old(tools.log) + runs && tools.Answered(runs)
    ensures if refused then runs == [] && r == RefusedResult(w, inv, refusal)
            else |runs| == 1 && runs[0] == Execution(iteration, slot, inv, waiting, runs[0].outcome)
                 && r == ExecuteTool(w, inv, runs[0].outcome)
  {
    if refused {
      r, runs := RefusedResult(w, inv, refusal), [];
    } else {
      var outcome := tools.Execute(iteration, slot, inv, waiting);
      r, runs := ExecuteTool(w, inv, outcome), [Execution(iteration, slot, inv, waiting, outcome)];
    }
  }

  /** `waitGroup.Add`: one goroutine per invocation. */
  method Launch(n: nat) returns (waiting: set<nat>)
    ensures forall k: nat :: k in waiting <==> k < n
  {
    waiting := {};
    for i := 0 to n
      invariant forall k: nat :: k in waiting <==> k < i
    {
      waiting := waiting + {i};
    }
  }

  ghost predicate RunOf(iteration: nat, invocations: seq<Invocation>, e: Execution) {
    e.iteration == iteration && e.slot < |invocations| && e.invocation == invocations[e.slot]
  }

  /** Of the calls no longer `waiting`, exactly those nobody refused have run, once each, as invoked. */
  ghost predicate RunSoFar(iteration: nat, invocations: seq<Invocation>, refused: set<nat>, waiting: set<nat>,
                           runs: seq<Execution>) {
    && OncePerSlot(runs)
    && (forall k :: 0 <= k < |runs| ==> RunOf(iteration, invocations, runs[k]))
    && (forall i: nat :: i in Slots(runs) <==> i < |invocations| && i !in refused && i !in waiting)
  }

  lemma OneMoreRun(iteration: nat, invocations: seq<Invocation>, refused: set<nat>, waiting: set<nat>,
                   runs: seq<Execution>, i: nat, more: seq<Execution>)
    requires RunSoFar(iteration, invocations, refused, waiting, runs) && i in waiting && i < |invocations|
    requires if i in refused then more == []
             else |more| == 1 && more[0].slot == i && RunOf(iteration, invocations, more[0])
    ensures RunSoFar(iteration, invocations, refused, waiting - {i}, runs + more)
  {
    if i in refused {
      assert runs + [] == runs;
    } else {
      assert more == [more[0]] && i !in Slots(runs);
      SlotsGrow(runs, more[0]);
    }
  }

  lemma SlotsGrow(runs: seq<Execution>, run: Execution)
    ensures Slots(runs + [run]) == Slots(runs) + {run.slot}
  {
    var more := runs + [run];
    assert forall k :: 0 <= k < |runs| ==> more[k] == runs[k];
    assert more[|runs|] == run;
  }

  /** The slots of all calls no longer waiting are settled. */
  ghost predicate SettledSoFar(w: World, invocations: seq<Invocation>, refusals: map<nat, Block>, waiting: set<nat>,
                               runs: seq<Execution>, results: seq<ToolResult>) {
    |results| == |invocations| &&
    forall i: nat :: i < |invocations| && i !in waiting ==>
      Settles(w, i, invocations[i], i in refusals, RefusalOf(refusals, i), runs, results[i])
  }

  /** Settled slots stay settled as more runs are logged. */
  lemma StillSettles(w: World, i: nat, inv: Invocation, refused: bool, refusal: Block, runs: seq<Execution>,
                     more: seq<Execution>, r: ToolResult)
    requires Settles(w, i, inv, refused, refusal, runs, r)
    ensures Settles(w, i, inv, refused, refusal, runs + more, r)
  {
    if !refused {
      var k :| 0 <= k < |runs| && runs[k].slot == i && r == ExecuteTool(w, inv, runs[k].outcome);
      assert (runs + more)[k] == runs[k];
    }
  }

  lemma OneMoreSettled(w: World, invocations: seq<Invocation>, refusals: map<nat, Block>, waiting: set<nat>,
                       runs: seq<Execution>, results: seq<ToolResult>, i: nat, more: seq<Execution>, r: ToolResult)
    requires SettledSoFar(w, invocations, refusals, waiting, runs, results) && i in waiting && i < |invocations|
    requires if i in refusals then more == [] && r == RefusedResult(w, invocations[i], refusals[i])
             else |more| == 1 && more[0].slot == i && r == ExecuteTool(w, invocations[i], more[0].outcome)
    ensures SettledSoFar(w, invocations, refusals, waiting - {i}, runs + more, results[i := r])
  {
    forall j: nat | j < |invocations| && j !in waiting - {i}
      ensures Settles(w, j, invocations[j], j in refusals, RefusalOf(refusals, j), runs + more, results[i := r][j])
    {
      if j != i {
        StillSettles(w, j, invocations[j], j in refusals, RefusalOf(refusals, j), runs, more, results[j]);
      } else if i !in refusals {
        assert (runs + more)[|runs|] == more[0];
      }
    }
  }

  /** The goroutines finish in any order; each stores its result at its own index. Exactly the
      calls nobody refused reach a tool, once each, and what it answered is in their slot. */
  method ExecuteToolsConcurrently(w: World, tools: Toolbox, iteration: nat, invocations: seq<Invocation>,
                                  refusals: map<nat, Block>)
    returns (results: seq<ToolResult>, ghost runs: seq<Execution>)
    modifies tools
    ensures tools.log == old(tools.log) + runs && tools.Answered(runs)
    ensures RunSoFar(iteration, invocations, refusals.Keys, {}, runs)
    ensures SettledSoFar(w, invocations, refusals, {}, runs, results)
  {
    var n := |invocations|;
    results := seq(n, i => ToolResult("", "", "", false, ""));
    var waiting := Launch(n);
    runs := [];
    while waiting != {}
      invariant forall i: nat :: i in waiting ==> i < n
      invariant tools.log == old(tools.log) + runs && tools.Answered(runs)
      invariant RunSoFar(iteration, invocations, refusals.Keys, waiting, runs)
      invariant SettledSoFar(w, invocations, refusals, waiting, runs, results)
      decreases |waiting|
    {
      var i :| i in waiting;
      ghost var more;
      var result;
      result, more := SettleOne(w, tools, iteration, i, invocations[i], i in refusals, RefusalOf(refusals, i), waiting);
      Associates(old(tools.log), runs, more);
      OneMoreRun(iteration, invocations, refusals.Keys, waiting, runs, i, more);
      OneMoreSettled(w, invocations, refusals, waiting, runs, results, i, more, result);
      results := results[i := result];
      runs := runs + more;
      waiting := waiting - {i};
    }
  }

  function InvocationOf(call: Block): Invocation {
    Invocation(call.callId, call.toolName, call.input)
  }

  predicate ValidInvocation(j: Json, inv: Invocation) {
    ValidBlock(j, PLAIN.(kind := ToolUse, callId := inv.callId, toolName := inv.toolName, input := inv.input))
  }

  predicate ValidResult(j: Json, r: ToolResult) {
    r.callId != "" && r.toolName != "" && r.output != "" && j.valid(r.output)
  }

  /** Tool hooks keep the identifier of what they are handed, and keep results in place. */
  ghost predicate KeepsIds(w: World) {
    && (forall n: nat, i: nat, inv: Invocation ::
          w.preTool(n, i, inv).Some? ==> w.preTool(n, i, inv).value.callId == inv.callId)
    && (forall n: nat, rs: seq<ToolResult> :: w.postTools(n, rs).Hooked? ==> SameIds(w.postTools(n, rs).value, rs))
    && (forall n: nat, i: nat, r: ToolResult ::
          w.onResult(n, i, r).Some? ==> w.onResult(n, i, r).value.callId == r.callId)
  }

  ghost predicate SameIds(a: seq<ToolResult>, b: seq<ToolResult>) {
    |a| == |b| && forall i :: 0 <= i < |a| ==> a[i].callId == b[i].callId
  }

  /** What `pre_tool_exec` makes of a call. */
  function Invoked(w: World, iteration: nat, slot: nat, call: Block): Option<Invocation> {
    match w.preTool(iteration, slot, InvocationOf(call))
    case None => None
    case Some(hooked) => Some(if hooked.input == "" then hooked.(input := "{}") else hooked)
  }

  /** These runs are those of calls not marked as refused, as `pre_tool_exec` left them. */
  ghost predicate Unrefused(w: World, iteration: nat, calls: seq<Block>, runs: seq<Execution>) {
    forall k :: 0 <= k < |runs| ==>
      var e := runs[k];
      e.iteration == iteration && e.slot < |calls| && !calls[e.slot].isError
      && Invoked(w, iteration, e.slot, calls[e.slot]) == Some(e.invocation)
  }

  ghost predicate AllUnrefused(calls: seq<Block>, runs: seq<Execution>) {
    forall i: nat :: i in Slots(runs) <==> i < |calls| && !calls[i].isError
  }

  /** The invocations of the first `n` calls. */
  ghost predicate Preparing(w: World, iteration: nat, calls: seq<Block>, n: nat, invocations: seq<Invocation>)
    requires n <= |calls|
  {
    |invocations| == n &&
    forall k :: 0 <= k < n ==>
      if calls[k].isError then invocations[k] == InvocationOf(calls[k])
      else Invoked(w, iteration, k, calls[k]) == Some(invocations[k])
  }

  /** `pre_tool_exec` fails for a call that is not refused, or leaves an invalid invocation. */
  ghost predicate PrepareFault(w: World, iteration: nat, calls: seq<Block>, i: int) {
    0 <= i < |calls| && !calls[i].isError &&
    match Invoked(w, iteration, i, calls[i])
    case None => true
    case Some(inv) => inv.callId == "" || inv.toolName == "" || !w.json.object_(inv.input)
  }

  /** Preparation stops the batch before any tool runs, exactly when a hook is at fault. */
  method PrepareInvocations(w: World, iteration: nat, calls: seq<Block>)
    returns (ok: bool, invocations: seq<Invocation>, refusals: map<nat, Block>)
    ensures !ok <==> exists i :: PrepareFault(w, iteration, calls, i)
    ensures ok ==> Preparing(w, iteration, calls, |calls|, invocations)
    ensures ok ==> forall k :: k in refusals <==> 0 <= k < |calls| && calls[k].isError
    ensures ok ==> forall k :: k in refusals ==> refusals[k] == calls[k]
  {
    refusals := map[];
    invocations := [];
    for i := 0 to |calls|
      invariant Preparing(w, iteration, calls, i, invocations)
      invariant forall k :: 0 <= k < i ==> !PrepareFault(w, iteration, calls, k)
      invariant forall k :: k in refusals <==> 0 <= k < i && calls[k].isError
      invariant forall k :: k in refusals ==> refusals[k] == calls[k]
    {
      var inv := InvocationOf(calls[i]);
      if calls[i].isError {
        refusals := refusals[i := calls[i]];
      } else {
        match w.preTool(iteration, i, inv)
        case None =>
          assert PrepareFault(w, iteration, calls, i);
          return false, invocations, refusals;
        case Some(hooked) =>
          inv := if hooked.input == "" then hooked.(input := "{}") else hooked;
          if !ValidInvocation(w.json, inv) {
            assert PrepareFault(w, iteration, calls, i);
            return false, invocations, refusals;
          }
      }
      invocations := invocations + [inv];
    }
    ok := true;
  }

  /** Results as the goroutines leave them: one per call, what its tool answered or the refusal. */
  ghost predicate Settled(w: World, iteration: nat, calls: seq<Block>, runs: seq<Execution>, settled: seq<ToolResult>) {
    exists invocations ::
      && Preparing(w, iteration, calls, |calls|, invocations) && |settled| == |calls|
      && forall i :: 0 <= i < |calls| ==>
           Settles(w, i, invocations[i], calls[i].isError, calls[i], runs, settled[i])
  }

  /** Results as the hooks after execution leave them. */
  ghost predicate Reported(w: World, iteration: nat, settled: seq<ToolResult>, results: seq<ToolResult>) {
    && w.postTools(iteration, settled).Hooked? && |w.postTools(iteration, settled).value| == |results|
    && forall i :: 0 <= i < |results| ==>
      w.onResult(iteration, i, w.postTools(iteration, settled).value[i]) == Some(results[i])
  }

  /** A hook after execution fails, has the wrong type, or leaves the wrong number of results or an
      invalid one. */
  ghost predicate ReportFault(w: World, iteration: nat, settled: seq<ToolResult>) {
    var answer := w.postTools(iteration, settled);
    !answer.Hooked? || |answer.value| != |settled| ||
    exists i :: 0 <= i < |answer.value| && BadResult(w, iteration, i, answer.value[i])
  }

  /** The results the hooks after execution leave, at fault or not. */
  ghost predicate Leftover(w: World, iteration: nat, settled: seq<ToolResult>, results: seq<ToolResult>) {
    match w.postTools(iteration, settled)
    case Failed => results == settled
    case Mistyped => results == []
    case Hooked(hooked) =>
      |results| == |hooked| && forall i :: 0 <= i < |results| ==>
        results[i] == hooked[i] || w.onResult(iteration, i, hooked[i]) == Some(results[i])
  }

  predicate BadResult(w: World, iteration: nat, i: nat, r: ToolResult) {
    match w.onResult(iteration, i, r)
    case None => true
    case Some(x) => x.callId == "" || x.toolName == "" || x.output == "" || !w.json.valid(x.output)
  }

  /** The hooks after execution. A `post_tool_exec` that fails leaves the results as they were; one
      that answers with the wrong type leaves none. */
  method ReportResults(w: World, iteration: nat, settled: seq<ToolResult>) returns (ok: bool, results: seq<ToolResult>)
    ensures !ok <==> ReportFault(w, iteration, settled)
    ensures Leftover(w, iteration, settled, results)
    ensures ok ==> |results| == |settled| && Reported(w, iteration, settled, results)
    ensures ok ==> forall i :: 0 <= i < |results| ==> ValidResult(w.json, results[i])
  {
    match w.postTools(iteration, settled)
    case Failed => return false, settled;
    case Mistyped => return false, [];
    case Hooked(hooked) =>
      results := hooked;
      if |results| != |settled| {
        return false, results;
      }
      for i := 0 to |results|
        invariant |results| == |hooked|
        invariant forall k :: 0 <= k < i ==>
                  w.onResult(iteration, k, hooked[k]) == Some(results[k]) && ValidResult(w.json, results[k])
        invariant forall k :: i <= k < |hooked| ==> results[k] == hooked[k]
        invariant forall k :: 0 <= k < i ==> !BadResult(w, iteration, k, hooked[k])
      {
        match w.onResult(iteration, i, results[i])
        case None =>
          assert BadResult(w, iteration, i, hooked[i]);
          return false, results;
        case Some(r) =>
          results := results[i := r];
          if !ValidResult(w.json, r) {
            assert BadResult(w, iteration, i, hooked[i]);
            return false, results;
          }
      }
      ok := true;
  }

  /** Hooks that keep identifiers keep those of the calls. */
  lemma IdsKept(w: World, iteration: nat, calls: seq<Block>, runs: seq<Execution>, settled: seq<ToolResult>,
                results: seq<ToolResult>)
    requires KeepsIds(w) && Settled(w, iteration, calls, runs, settled) && Reported(w, iteration, settled, results)
    ensures |results| == |calls| && forall i :: 0 <= i < |calls| ==> results[i].callId == calls[i].callId
  {
    var invocations: seq<Invocation> :| Preparing(w, iteration, calls, |calls|, invocations)
      && forall i :: 0 <= i < |calls| ==> Settles(w, i, invocations[i], calls[i].isError, calls[i], runs, settled[i]);
    var hooked := w.postTools(iteration, settled).value;
    assert SameIds(hooked, settled);
    forall i | 0 <= i < |calls| ensures results[i].callId == calls[i].callId {
      assert invocations[i].callId == calls[i].callId;
    }
  }

  /** `runTools`. Exactly when no hook is at fault there is one result per call; otherwise there may be
      none, or as many as a hook left. Unless preparation fails, the tools that run are exactly those
      of the calls not refused, and `settled` is what they answered. */
  method RunTools(w: World, tools: Toolbox, iteration: nat, calls: seq<Block>)
    returns (ok: bool, results: seq<ToolResult>, ghost settled: seq<ToolResult>, ghost runs: seq<Execution>)
    modifies tools
    ensures tools.log == old(tools.log) + runs && tools.Answered(runs)
    ensures OncePerSlot(runs) && Unrefused(w, iteration, calls, runs)
    ensures if exists i :: PrepareFault(w, iteration, calls, i) then !ok && runs == [] && results == []
            else AllUnrefused(calls, runs) && Settled(w, iteration, calls, runs, settled)
                 && (!ok <==> ReportFault(w, iteration, settled)) && Leftover(w, iteration, settled, results)
    ensures ok ==> Reported(w, iteration, settled, results)
    ensures ok ==> |results| == |calls| && forall i :: 0 <= i < |results| ==> ValidResult(w.json, results[i])
  {
    runs, settled := [], [];
    var prepared, invocations, refusals := PrepareInvocations(w, iteration, calls);
    if !prepared {
      return false, [], settled, runs;
    }
    var executed;
    executed, runs := ExecuteToolsConcurrently(w, tools, iteration, invocations, refusals);
    settled := executed;
    AllSettled(w, iteration, calls, invocations, refusals, runs, executed);
    ok, results := ReportResults(w, iteration, executed);
  }

  lemma AllSettled(w: World, iteration: nat, calls: seq<Block>, invocations: seq<Invocation>, refusals: map<nat, Block>,
                   runs: seq<Execution>, settled: seq<ToolResult>)
    requires Preparing(w, iteration, calls, |calls|, invocations)
    requires forall k :: k in refusals <==> 0 <= k < |calls| && calls[k].isError
    requires forall k :: k in refusals ==> refusals[k] == calls[k]
    requires RunSoFar(iteration, invocations, refusals.Keys, {}, runs)
    requires SettledSoFar(w, invocations, refusals, {}, runs, settled)
    ensures Settled(w, iteration, calls, runs, settled)
    ensures OncePerSlot(runs) && Unrefused(w, iteration, calls, runs) && AllUnrefused(calls, runs)
  {
    forall i | 0 <= i < |calls| ensures Settles(w, i, invocations[i], calls[i].isError, calls[i], runs, settled[i]) {
      assert Settles(w, i, invocations[i], i in refusals, RefusalOf(refusals, i), runs, settled[i]);
    }
    forall k | 0 <= k < |runs|
      ensures var e := runs[k];
              && e.iteration == iteration && e.slot < |calls| && !calls[e.slot].isError
              && Invoked(w, iteration, e.slot, calls[e.slot]) == Some(e.invocation)
    {
      assert RunOf(iteration, invocations, runs[k]) && runs[k].slot in Slots(runs);
    }
  }
}
