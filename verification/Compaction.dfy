/** Context compaction (internal/engine/context/manager.go, strategy.go): what is folded away when
    a conversation outgrows its budget, and what always survives. */
module Compaction {
  import opened Common
  import opened Transcript
  import opened Estimator

  /** A message as the manager sees it; `marked` stands for the key_result mark in its metadata. */
  datatype Entry = Entry(id: string, marked: bool, message: Message)

  function EntryCost(e: Estimator): Entry -> nat {
    (x: Entry) => MessageCost(e, x.message)
  }

  function Estimate(e: Estimator, ms: seq<Entry>): nat { Sum(EntryCost(e), ms) }

  predicate IsUser(x: Entry) { x.message.role.User? }

  /** The user messages from position `from` up to `end`. */
  function Users(ms: seq<Entry>, from: nat, end: nat): (n: nat)
    requires end <= |ms|
    ensures from <= end ==> n <= end - from
    decreases end
  {
    if end <= from then 0 else Users(ms, from, end - 1) + if IsUser(ms[end - 1]) then 1 else 0
  }

  /** `isKeyResult`: marked by the caller, or a failed tool result. */
  predicate IsKey(x: Entry) {
    var content := x.message.content;
    x.marked || exists k :: 0 <= k < |content| && content[k].kind.ToolResultKind? && content[k].isError
  }

  function RoleName(role: Role): string {
    match role
    case System => "system"
    case User => "user"
    case Assistant => "assistant"
    case Tool => "tool"
  }

  /** `messageIdentity`: the identifier, or the role and the first text. */
  function Identity(x: Entry): string {
    if x.id != "" then x.id
    else RoleName(x.message.role) + "\0" + if x.message.content == [] then "" else x.message.content[0].text
  }

  // ---------------------------------------------------------------------------
  // Suffixes
  // ---------------------------------------------------------------------------

  lemma SuffixCost(e: Estimator, ms: seq<Entry>, i: nat)
    requires i < |ms|
    ensures Estimate(e, ms[i..]) == MessageCost(e, ms[i].message) + Estimate(e, ms[i + 1..])
  {
    assert ms[i..] == [ms[i]] + ms[i + 1..];
    SumConcat(EntryCost(e), [ms[i]], ms[i + 1..]);
    assert [ms[i]][..0] == [];
    assert Sum(EntryCost(e), [ms[i]]) == MessageCost(e, ms[i].message);
  }

  /** A longer suffix costs more. */
  lemma {:induction false} SuffixGrows(e: Estimator, ms: seq<Entry>, i: nat, k: nat)
    requires i < k <= |ms|
    ensures Estimate(e, ms[i..]) > Estimate(e, ms[k..])
    decreases k - i
  {
    SuffixCost(e, ms, i);
    if i + 1 < k {
      SuffixGrows(e, ms, i + 1, k);
    }
  }

  // ---------------------------------------------------------------------------
  // The plan
  // ---------------------------------------------------------------------------

  datatype Plan = Plan(cut: nat, keepFrom: nat, keyResults: seq<nat>, target: nat, budget: nat)

  function Min(a: nat, b: nat): nat { if a <= b then a else b }

  /** The protected tail: the last `turns` + 1 turns, a turn starting with a user message. */
  ghost predicate Tail(ms: seq<Entry>, turns: nat, keepFrom: nat) {
    && keepFrom <= |ms| && (ms != [] ==> keepFrom < |ms|)
    && Users(ms, keepFrom, |ms|) == Min(turns + 1, Users(ms, 0, |ms|))
    && (keepFrom == 0 || ms[keepFrom].message.role.User?)
  }

  /** Before the tail, exactly what still fits under the line is kept. */
  ghost predicate CutAt(e: Estimator, ms: seq<Entry>, line: int, keepFrom: nat, cut: nat)
    requires keepFrom <= |ms|
  {
    cut <= keepFrom && forall i :: 0 <= i < keepFrom ==> (Estimate(e, ms[i..]) < line <==> cut <= i)
  }

  /** Exactly the key results of the first `cut` messages, in order. */
  ghost predicate ListsKeys(ms: seq<Entry>, keep: bool, cut: nat, keys: seq<nat>)
    requires cut <= |ms|
  {
    && (forall a, b :: 0 <= a < b < |keys| ==> keys[a] < keys[b])
    && (forall i: nat :: i in keys <==> keep && i < cut && IsKey(ms[i]))
  }

  /** The turns of the first `i` messages: a start at the front, then every user message, each with
      as many users from there on as starts. */
  ghost predicate Starts(ms: seq<Entry>, i: nat, starts: seq<nat>)
    requires i <= |ms|
  {
    && |starts| == 1 + Users(ms, 0, i) && starts[0] == 0
    && forall j :: 0 < j < |starts| ==>
         starts[j] < i && IsUser(ms[starts[j]]) && Users(ms, starts[j], i) == |starts| - j
  }

  lemma StartsStep(ms: seq<Entry>, i: nat, starts: seq<nat>)
    requires i < |ms| && Starts(ms, i, starts)
    ensures Starts(ms, i + 1, if IsUser(ms[i]) then starts + [i] else starts)
  {
    var next := if IsUser(ms[i]) then starts + [i] else starts;
    forall j | 0 < j < |next|
      ensures next[j] < i + 1 && IsUser(ms[next[j]]) && Users(ms, next[j], i + 1) == |next| - j
    {
      assert j < |starts| ==> next[j] == starts[j];
    }
  }

  method ListTurns(ms: seq<Entry>) returns (starts: seq<nat>)
    ensures Starts(ms, |ms|, starts)
  {
    starts := [0];
    for i := 0 to |ms|
      invariant Starts(ms, i, starts)
    {
      StartsStep(ms, i, starts);
      if IsUser(ms[i]) {
        starts := starts + [i];
      }
    }
  }

  lemma TurnIsTail(ms: seq<Entry>, starts: seq<nat>, turns: nat)
    requires Starts(ms, |ms|, starts)
    ensures Tail(ms, turns, starts[if |starts| - 1 <= turns then 0 else |starts| - 1 - turns])
  {
  }

  /** Where the protected tail starts. */
  method TailStart(ms: seq<Entry>, turns: nat) returns (keepFrom: nat)
    ensures Tail(ms, turns, keepFrom)
  {
    var starts := ListTurns(ms);
    TurnIsTail(ms, starts, turns);
    var last := |starts| - 1;
    keepFrom := starts[last];
    if |starts| > 1 {
      keepFrom := starts[if last <= turns then 0 else last - turns];
    }
  }

  /** Puts back the key results that are no longer there, in front of what was kept. */
  function Missing(ms: seq<Entry>, kept: set<string>, keys: seq<nat>): seq<Entry> {
    if keys == [] then []
    else
      var rest, k := Missing(ms, kept, keys[..|keys| - 1]), keys[|keys| - 1];
      if k >= |ms| || Identity(ms[k]) in kept then rest else rest + [ms[k]]
  }

  function Identities(ms: seq<Entry>): set<string> { set k | 0 <= k < |ms| :: Identity(ms[k]) }

  method CollectIdentities(ms: seq<Entry>) returns (kept: set<string>)
    ensures kept == Identities(ms)
  {
    kept := {};
    for k := 0 to |ms|
      invariant kept == set j | 0 <= j < k :: Identity(ms[j])
    {
      kept := kept + {Identity(ms[k])};
    }
  }

  method PreserveKeyResults(original: seq<Entry>, compacted: seq<Entry>, keys: seq<nat>) returns (result: seq<Entry>)
    ensures result == Missing(original, Identities(compacted), keys) + compacted
  {
    if |keys| == 0 {
      assert [] + compacted == compacted;
      return compacted;
    }
    var kept := CollectIdentities(compacted);
    var missing: seq<Entry> := [];
    for k := 0 to |keys|
      invariant missing == Missing(original, kept, keys[..k])
    {
      assert keys[..k + 1][..k] == keys[..k];
      if keys[k] < |original| && Identity(original[keys[k]]) !in kept {
        missing := missing + [original[keys[k]]];
      }
    }
    assert keys[..|keys|] == keys;
    if |missing| == 0 {
      assert [] + compacted == compacted;
      return compacted;
    }
    result := missing + compacted;
  }

  /** The entries at the given positions. */
  function Pick(ms: seq<Entry>, keys: seq<nat>): seq<Entry>
    requires forall k :: 0 <= k < |keys| ==> keys[k] < |ms|
  {
    seq(|keys|, k requires 0 <= k < |keys| => ms[keys[k]])
  }

  /** With identifiers that nothing kept shares, every key result comes back, once and in order. */
  lemma {:induction false} AllComeBack(ms: seq<Entry>, kept: set<string>, keys: seq<nat>)
    requires forall k :: 0 <= k < |keys| ==> keys[k] < |ms|
    ensures Missing(ms, kept, keys) == Pick(ms, keys)
            <==> forall k :: 0 <= k < |keys| ==> Identity(ms[keys[k]]) !in kept
    ensures |Missing(ms, kept, keys)| <= |keys|
  {
    if keys != [] {
      var init, last := keys[..|keys| - 1], keys[|keys| - 1];
      assert forall k :: 0 <= k < |init| ==> init[k] == keys[k];
      AllComeBack(ms, kept, init);
      assert Pick(ms, keys) == Pick(ms, init) + [ms[last]];
      assert Pick(ms, keys)[..|init|] == Pick(ms, init);
    }
  }

  // ---------------------------------------------------------------------------
  // Strategies
  // ---------------------------------------------------------------------------

  /** Summarizing keeps its summarizer abstract: from the folded region to a text, or a failure.
      `standard` is the wording of the default header, used when no header is configured. */
  datatype Strategy = Truncate | Summarize(summarizer: seq<Entry> -> Option<string>, header: string, standard: string) {
    function Header(): string
      requires Summarize?
    {
      if header == "" then standard else header
    }
  }

  const CLOSING := "\n</conversation_summary>"

  /** A summary over its target is cut down to four characters a token. */
  function CutDown(e: Estimator, text: string, target: nat): string {
    if target > 0 && TextCost(e, text) > target && |text| > target * 4 then text[..target * 4] else text
  }

  function SummaryEntry(header: string, text: string): Entry {
    Entry("", false, Message(User, [PLAIN.(text := header + text + CLOSING)], "", false))
  }

  /** What a strategy makes of the conversation, if it does not fail. */
  function Folded(e: Estimator, s: Strategy, ms: seq<Entry>, plan: Plan): Option<seq<Entry>>
    requires plan.cut <= |ms|
  {
    match s
    case Truncate => Some(ms[plan.cut..])
    case Summarize(summarizer, _, _) =>
      if plan.cut == 0 then Some(ms)
      else
        match summarizer(ms[..plan.cut])
        case None => None
        case Some(text) => Some([SummaryEntry(s.Header(), CutDown(e, text, plan.target))] + ms[plan.cut..])
  }

  /** With the default densities, text of at most four characters a token costs at most that many
      tokens, and one token a character at the worst. */
  lemma ShortTextCost(text: string, target: nat)
    requires |text| <= target * 4
    ensures var e := Estimator(0, 0);
            TextCost(e, text) <= target * 4 && (Dense(text) == 0 ==> TextCost(e, text) <= target)
            && (|text| == target * 4 && Dense(text) > 0 ==> TextCost(e, text) > target)
  {
    DefaultCost(text);
    QuarterCost(Dense(text), |text| - Dense(text), target);
  }

  lemma CeilDefault(n: nat)
    ensures CeilDiv(n, 1) == n && CeilDiv(n, 4) == (n + 3) / 4
  {
  }

  lemma DefaultCost(text: string)
    ensures TextCost(Estimator(0, 0), text) == Dense(text) + (|text| - Dense(text) + 3) / 4
  {
    var e := Estimator(0, 0);
    assert PerCjk(e) == 1 && PerAscii(e) == 4;
    assert TextCost(e, text) == CeilDiv(Dense(text), 1) + CeilDiv(|text| - Dense(text), 4);
    CeilDefault(Dense(text));
    CeilDefault(|text| - Dense(text));
  }

  lemma QuarterCost(dense: nat, sparse: nat, target: nat)
    requires dense + sparse <= target * 4
    ensures var cost := dense + (sparse + 3) / 4;
            && cost <= target * 4 && (dense == 0 ==> cost <= target)
            && (dense + sparse == target * 4 && dense > 0 ==> cost > target)
  {
  }

  /** A summary that costs more than its target is cut down to four times it. It ends up within the
      target exactly when nothing of a dense script is left in it. */
  lemma SummaryFitsIff(text: string, target: nat)
    requires target > 0 && TextCost(Estimator(0, 0), text) > target
    ensures var e := Estimator(0, 0);
            var cut := CutDown(e, text, target);
            TextCost(e, cut) <= target * 4 && (TextCost(e, cut) <= target <==> Dense(cut) == 0)
  {
    ShortTextCost(CutDown(Estimator(0, 0), text, target), target);
  }

  /** The longest suffix within the budget, or the last message. */
  ghost predicate Fallback(e: Estimator, ms: seq<Entry>, budget: nat, at: nat) {
    && at < |ms|
    && (forall i :: 0 <= i < at ==> Estimate(e, ms[i..]) > budget)
    && (Estimate(e, ms[at..]) <= budget || at == |ms| - 1)
  }

  // ---------------------------------------------------------------------------
  // The manager
  // ---------------------------------------------------------------------------

  datatype Report = Report(tokensBefore: nat, tokensAfter: nat, messagesBefore: nat, messagesAfter: nat,
                           dropped: nat, fellBack: bool, stillOverBudget: bool, failed: bool)

  class Manager {
    const e: Estimator
    const strategy: Strategy
    const budget: nat
    const turns: nat
    const keepKeys: bool
    var history: seq<Report>
    var invalidations: nat

    constructor (e: Estimator, strategy: Strategy, budget: nat, turns: nat, keepKeys: bool)
      requires budget > 0
      ensures this.e == e && this.strategy == strategy && this.budget == budget && this.turns == turns
              && this.keepKeys == keepKeys
      ensures history == [] && invalidations == 0
    {
      this.e, this.strategy, this.budget, this.turns, this.keepKeys := e, strategy, budget, turns, keepKeys;
      history, invalidations := [], 0;
    }

    function Line(): int { budget - budget / 4 }

    method EstimateAll(ms: seq<Entry>) returns (tokens: nat)
      ensures tokens == Estimate(e, ms)
    {
      tokens := 0;
      for k := 0 to |ms|
        invariant tokens == Estimate(e, ms[..k])
      {
        assert ms[..k + 1][..k] == ms[..k];
        var cost := EstimateMessage(e, ms[k].message);
        tokens := tokens + cost;
      }
      assert ms[..|ms|] == ms;
    }

    /** How far back before the tail the conversation can be kept. */
    method WalkBack(ms: seq<Entry>, keepFrom: nat) returns (cut: nat)
      requires keepFrom <= |ms|
      ensures CutAt(e, ms, Line(), keepFrom, cut)
    {
      cut := keepFrom;
      while cut > 0
        invariant cut <= keepFrom && forall i :: cut <= i < keepFrom ==> Estimate(e, ms[i..]) < Line()
      {
        var cost := EstimateAll(ms[cut - 1..]);
        if cost >= Line() {
          break;
        }
        cut := cut - 1;
      }
      forall i | 0 <= i < cut ensures Estimate(e, ms[i..]) >= Line() {
        if i < cut - 1 {
          SuffixGrows(e, ms, i, cut - 1);
        }
      }
    }

    method MakePlan(ms: seq<Entry>) returns (plan: Plan)
      ensures Tail(ms, turns, plan.keepFrom) && CutAt(e, ms, budget - budget / 4, plan.keepFrom, plan.cut)
      ensures ListsKeys(ms, keepKeys, plan.cut, plan.keyResults)
      ensures plan.budget == budget && plan.target == budget / 4
    {
      var keepFrom := TailStart(ms, turns);
      var cut := WalkBack(ms, keepFrom);
      var keys: seq<nat> := [];
      if keepKeys {
        for i := 0 to cut
          invariant ListsKeys(ms, true, i, keys)
        {
          assert forall a :: 0 <= a < |keys| ==> keys[a] in keys;
          if IsKey(ms[i]) {
            keys := keys + [i];
          }
        }
      }
      plan := Plan(cut, keepFrom, keys, budget / 4, budget);
    }

    /** `forceTruncate` when nothing can be folded. */
    method ForceTruncate(ms: seq<Entry>) returns (at: nat)
      requires ms != []
      ensures Fallback(e, ms, budget, at)
    {
      at := 0;
      while at < |ms|
        invariant at <= |ms| && forall i :: 0 <= i < at ==> Estimate(e, ms[i..]) > budget
      {
        var cost := EstimateAll(ms[at..]);
        if cost <= budget {
          return;
        }
        at := at + 1;
      }
      at := |ms| - 1;
    }

    method Remember(report: Report)
      modifies this`history
      ensures var all := old(history) + [report]; history == if |all| > 64 then all[|all| - 64..] else all
    {
      history := history + [report];
      if |history| > 64 {
        history := history[|history| - 64..];
      }
    }

    method Finish(report: Report)
      modifies this
      ensures invalidations == old(invalidations) + if report.dropped > 0 || report.fellBack then 1 else 0
      ensures history != [] && history[|history| - 1] == report
    {
      if report.dropped > 0 || report.fellBack {
        invalidations := invalidations + 1;
      }
      Remember(report);
    }

    /** Folds a conversation that is over budget. Which of the three ways it went is said by the
        report; whenever the result differs from the input, caches and the response chain have been
        told. */
    method Compact(ms: seq<Entry>) returns (result: seq<Entry>, report: Report, ghost plan: Plan)
      modifies this
      ensures history != [] && history[|history| - 1] == report
      ensures Estimate(e, ms) <= budget ==>
                && result == ms && invalidations == old(invalidations)
                && report == Report(Estimate(e, ms), Estimate(e, ms), |ms|, |ms|, 0, false, false, false)
      ensures Estimate(e, ms) > budget ==>
                && ms != [] && Tail(ms, turns, plan.keepFrom)
                && CutAt(e, ms, budget - budget / 4, plan.keepFrom, plan.cut)
                && ListsKeys(ms, keepKeys, plan.cut, plan.keyResults) && plan.target == budget / 4
                && (plan.cut == 0 <==> plan.keepFrom == 0)
                && invalidations == old(invalidations) + 1
                && result == Outcome(e, strategy, ms, plan, budget) && result != []
                && report == OutcomeReport(e, strategy, ms, plan, budget)
    {
      var before := EstimateAll(ms);
      plan := Plan(0, 0, [], 0, 0);
      if before <= budget {
        report := Report(before, before, |ms|, |ms|, 0, false, false, false);
        Remember(report);
        return ms, report, plan;
      }
      var p := MakePlan(ms);
      plan := p;
      assert ms[0..] == ms;
      if p.cut <= 0 {
        var at := ForceTruncate(ms);
        result := ms[at..];
        var after := EstimateAll(result);
        report := Report(before, after, |ms|, |result|, at, true, after > budget, false);
        Finish(report);
        FallbackUnique(e, ms, budget, at);
        return;
      }
      assert ms[p.cut..] != [];
      var compacted := Folded(e, strategy, ms, p);
      match compacted {
        case None =>
          var kept := ms[p.cut..];
          var after := EstimateAll(kept);
          report := Report(before, after, |ms|, |kept|, p.cut, true, after > budget, true);
          Finish(report);
          result := PreserveKeyResults(ms, kept, p.keyResults);
        case Some(folded) =>
          var after := EstimateAll(folded);
          report := Report(before, after, |ms|, |folded|, p.cut, false, false, false);
          Finish(report);
          result := PreserveKeyResults(ms, folded, p.keyResults);
      }
    }
  }

  ghost function FallbackFrom(e: Estimator, ms: seq<Entry>, budget: nat, i: nat): (at: nat)
    requires i < |ms| && forall k :: 0 <= k < i ==> Estimate(e, ms[k..]) > budget
    ensures Fallback(e, ms, budget, at)
    decreases |ms| - i
  {
    if Estimate(e, ms[i..]) <= budget || i == |ms| - 1 then i else FallbackFrom(e, ms, budget, i + 1)
  }

  ghost function FallbackAt(e: Estimator, ms: seq<Entry>, budget: nat): (at: nat)
    requires ms != []
    ensures Fallback(e, ms, budget, at)
  {
    FallbackFrom(e, ms, budget, 0)
  }

  /** There is only one such place. */
  lemma FallbackUnique(e: Estimator, ms: seq<Entry>, budget: nat, at: nat)
    requires ms != [] && Fallback(e, ms, budget, at)
    ensures FallbackAt(e, ms, budget) == at
  {
    var x, y := Estimate(e, ms[FallbackAt(e, ms, budget)..]), Estimate(e, ms[at..]);
  }

  /** What the strategy, or the fallback after it failed, leaves. */
  ghost function Kept(e: Estimator, s: Strategy, ms: seq<Entry>, plan: Plan): (kept: seq<Entry>)
    requires 0 < plan.cut <= |ms|
    ensures |kept| >= |ms| - plan.cut && kept[|kept| - (|ms| - plan.cut)..] == ms[plan.cut..]
  {
    match Folded(e, s, ms, plan)
    case None => ms[plan.cut..]
    case Some(folded) => folded
  }

  /** The compacted conversation. */
  ghost function Outcome(e: Estimator, s: Strategy, ms: seq<Entry>, plan: Plan, budget: nat): seq<Entry>
    requires ms != [] && plan.cut <= |ms|
  {
    if plan.cut == 0 then ms[FallbackAt(e, ms, budget)..]
    else Missing(ms, Identities(Kept(e, s, ms, plan)), plan.keyResults) + Kept(e, s, ms, plan)
  }

  /** What is said about it. Sizes after a fold are those before key results are put back; only a
      fallback says whether the budget is still exceeded. */
  ghost function OutcomeReport(e: Estimator, s: Strategy, ms: seq<Entry>, plan: Plan, budget: nat): Report
    requires ms != [] && plan.cut <= |ms|
  {
    var kept := if plan.cut == 0 then ms[FallbackAt(e, ms, budget)..] else Kept(e, s, ms, plan);
    var fellBack := plan.cut == 0 || Folded(e, s, ms, plan).None?;
    Report(Estimate(e, ms), Estimate(e, kept), |ms|, |kept|,
           if plan.cut == 0 then FallbackAt(e, ms, budget) else plan.cut,
           fellBack, fellBack && Estimate(e, kept) > budget, plan.cut > 0 && fellBack)
  }

  // ---------------------------------------------------------------------------
  // What always survives
  // ---------------------------------------------------------------------------

  /** There is one such cut. */
  lemma CutUnique(e: Estimator, ms: seq<Entry>, line: int, keepFrom: nat, a: nat, b: nat)
    requires keepFrom <= |ms| && CutAt(e, ms, line, keepFrom, a) && CutAt(e, ms, line, keepFrom, b)
    ensures a == b
  {
    var x := if a < keepFrom then Estimate(e, ms[a..]) else 0;
    var y := if b < keepFrom then Estimate(e, ms[b..]) else 0;
  }

  /** Whenever anything is folded, the protected tail comes through unchanged, at the end. */
  lemma TailSurvives(e: Estimator, s: Strategy, ms: seq<Entry>, budget: nat, plan: Plan)
    requires 0 < plan.cut <= plan.keepFrom <= |ms|
    ensures var out := Outcome(e, s, ms, plan, budget);
            |ms[plan.keepFrom..]| <= |out| && out[|out| - |ms[plan.keepFrom..]|..] == ms[plan.keepFrom..]
  {
    var kept := Kept(e, s, ms, plan);
    EndsTheSame(Missing(ms, Identities(kept), plan.keyResults), kept, ms, plan.cut, plan.keepFrom);
  }

  /** What ends like `ms` from `i` on ends like it from any later place on. */
  lemma EndsTheSame(front: seq<Entry>, kept: seq<Entry>, ms: seq<Entry>, i: nat, k: nat)
    requires i <= k <= |ms| && |kept| >= |ms| - i && kept[|kept| - (|ms| - i)..] == ms[i..]
    ensures var out := front + kept; |out| >= |ms| - k && out[|out| - (|ms| - k)..] == ms[k..]
  {
    var out, rest := front + kept, kept[|kept| - (|ms| - i)..];
    assert out[|out| - (|ms| - k)..] == kept[|kept| - (|ms| - k)..] == rest[k - i..];
  }

  /** Identifiers a caller hands out: not empty, distinct, and without the separator that anonymous
      messages are told apart by. */
  ghost predicate ProperIds(ms: seq<Entry>) {
    && (forall k :: 0 <= k < |ms| ==> ms[k].id != "" && '\0' !in ms[k].id)
    && (forall j, k :: 0 <= j < k < |ms| ==> ms[j].id != ms[k].id)
  }

  lemma SummaryHasNoId(header: string, text: string)
    ensures '\0' in Identity(SummaryEntry(header, text))
  {
    var x := SummaryEntry(header, text);
    assert Identity(x) == "user" + "\0" + x.message.content[0].text;
    assert Identity(x)[4] == '\0';
  }

  lemma KeyNotKept(e: Estimator, s: Strategy, ms: seq<Entry>, plan: Plan, k: nat)
    requires 0 < plan.cut <= |ms| && ProperIds(ms) && k < plan.cut
    ensures Identity(ms[k]) !in Identities(Kept(e, s, ms, plan))
  {
    var kept := Kept(e, s, ms, plan);
    var at := |kept| - (|ms| - plan.cut);
    forall j | 0 <= j < |kept| ensures Identity(kept[j]) != Identity(ms[k]) {
      if j < at {
        var text :| kept[j] == SummaryEntry(s.Header(), text);
        SummaryHasNoId(s.Header(), text);
      } else {
        assert kept[j] == kept[at..][j - at] == ms[plan.cut + (j - at)];
      }
    }
  }

  lemma PickedDistinct(ms: seq<Entry>, ids: seq<nat>)
    requires ProperIds(ms) && (forall k :: 0 <= k < |ids| ==> ids[k] < |ms|)
    requires forall a, b :: 0 <= a < b < |ids| ==> ids[a] < ids[b]
    ensures Distinct(Pick(ms, ids))
  {
    forall i, j | 0 <= i < j < |ids| ensures Pick(ms, ids)[i] != Pick(ms, ids)[j] {
      assert ms[ids[i]].id != ms[ids[j]].id;
    }
  }

  lemma NotAmong(x: Entry, kept: seq<Entry>)
    requires Identity(x) !in Identities(kept)
    ensures x !in kept
  {
    assert forall j :: 0 <= j < |kept| ==> Identity(kept[j]) in Identities(kept);
  }

  /** Whatever was kept, as long as it bears none of their identities. */
  lemma ComeBackOnce(ms: seq<Entry>, kept: seq<Entry>, ids: seq<nat>)
    requires ProperIds(ms) && forall a, b :: 0 <= a < b < |ids| ==> ids[a] < ids[b]
    requires forall k :: 0 <= k < |ids| ==> ids[k] < |ms| && Identity(ms[ids[k]]) !in Identities(kept)
    ensures Missing(ms, Identities(kept), ids) == Pick(ms, ids)
    ensures Distinct(Pick(ms, ids)) && forall x :: x in Pick(ms, ids) ==> x !in kept
  {
    AllComeBack(ms, Identities(kept), ids);
    PickedDistinct(ms, ids);
    forall k | 0 <= k < |ids| ensures ms[ids[k]] !in kept {
      NotAmong(ms[ids[k]], kept);
    }
  }

  /** With proper identifiers, every key result of the folded part appears exactly once, in its
      original order, ahead of everything that was kept. */
  lemma KeyResultsSurvive(e: Estimator, s: Strategy, ms: seq<Entry>, budget: nat, keep: bool, plan: Plan)
    requires 0 < plan.cut <= |ms| && ListsKeys(ms, keep, plan.cut, plan.keyResults) && ProperIds(ms)
    ensures forall k :: 0 <= k < |plan.keyResults| ==> plan.keyResults[k] < |ms|
    ensures var keys := Pick(ms, plan.keyResults);
            && Outcome(e, s, ms, plan, budget) == keys + Kept(e, s, ms, plan)
            && Distinct(keys) && forall x :: x in keys ==> x !in Kept(e, s, ms, plan)
  {
    var ids := plan.keyResults;
    forall k | 0 <= k < |ids| ensures ids[k] < plan.cut && Identity(ms[ids[k]]) !in Identities(Kept(e, s, ms, plan)) {
      assert ids[k] in ids;
      KeyNotKept(e, s, ms, plan, ids[k]);
    }
    ComeBackOnce(ms, Kept(e, s, ms, plan), ids);
  }

  lemma PickedIn(ms: seq<Entry>, keys: seq<nat>, k: nat)
    requires (forall j :: 0 <= j < |keys| ==> keys[j] < |ms|) && k in keys
    ensures k < |ms| && ms[k] in Pick(ms, keys)
  {
    var j :| 0 <= j < |keys| && keys[j] == k;
    assert Pick(ms, keys)[j] == ms[k];
  }

  /** Folding keeps every key result: from the folded part in front, the others where they stand. */
  lemma FoldKeepsKeys(e: Estimator, s: Strategy, ms: seq<Entry>, budget: nat, plan: Plan, k: nat)
    requires 0 < plan.cut <= |ms| && ListsKeys(ms, true, plan.cut, plan.keyResults) && ProperIds(ms)
    requires k < |ms| && IsKey(ms[k])
    ensures ms[k] in Outcome(e, s, ms, plan, budget)
  {
    var kept := Kept(e, s, ms, plan);
    KeyResultsSurvive(e, s, ms, budget, true, plan);
    if k < plan.cut {
      PickedIn(ms, plan.keyResults, k);
    } else {
      assert kept[|kept| - (|ms| - plan.cut)..][k - plan.cut] == ms[k];
    }
  }

  /** What the fallback drops is gone, whatever it was. */
  lemma DroppedIsGone(ms: seq<Entry>, at: nat, k: nat)
    requires ProperIds(ms) && at <= |ms| && k < |ms|
    ensures ms[k] in ms[at..] <==> at <= k
  {
    if at <= k {
      assert ms[at..][k - at] == ms[k];
    }
  }

  /** Exactly when every key result of a conversation over budget is still there afterwards: when
      something could be folded, or when none lies in what the fallback drops. The fallback does not
      put key results back. */
  lemma KeyResultsKeptIff(e: Estimator, s: Strategy, ms: seq<Entry>, budget: nat, plan: Plan)
    requires ms != [] && plan.cut <= |ms| && ListsKeys(ms, true, plan.cut, plan.keyResults) && ProperIds(ms)
    ensures (forall k :: 0 <= k < |ms| && IsKey(ms[k]) ==> ms[k] in Outcome(e, s, ms, plan, budget))
            <==> plan.cut > 0 || forall k :: 0 <= k < FallbackAt(e, ms, budget) ==> !IsKey(ms[k])
  {
    forall k | 0 <= k < |ms| && IsKey(ms[k])
      ensures ms[k] in Outcome(e, s, ms, plan, budget) <==> plan.cut > 0 || FallbackAt(e, ms, budget) <= k
    {
      if plan.cut > 0 {
        FoldKeepsKeys(e, s, ms, budget, plan, k);
      } else {
        DroppedIsGone(ms, FallbackAt(e, ms, budget), k);
      }
    }
  }

  function Bare(id: string, role: Role, marked: bool): Entry {
    Entry(id, marked, Message(role, [], "", false))
  }

  /** One turn whose middle message is a key result, under a budget of one message. */
  const ONE_TURN: seq<Entry> := [Bare("a", User, false), Bare("b", Tool, true), Bare("c", Assistant, false)]

  lemma BareCost(e: Estimator, ms: seq<Entry>)
    requires forall k :: 0 <= k < |ms| ==> ms[k].message.content == []
    ensures Estimate(e, ms) == PER_MESSAGE * |ms|
  {
    if ms != [] {
      BareCost(e, ms[..|ms| - 1]);
    }
  }

  /** The manager plans to fold nothing, whatever the number of protected turns, and the marked
      result is dropped. */
  lemma FallbackLosesKey(e: Estimator, s: Strategy, turns: nat)
    ensures ProperIds(ONE_TURN) && IsKey(ONE_TURN[1]) && Estimate(e, ONE_TURN) > 5
    ensures Tail(ONE_TURN, turns, 0) && CutAt(e, ONE_TURN, 5 - 5 / 4, 0, 0) && ListsKeys(ONE_TURN, true, 0, [])
    ensures Outcome(e, s, ONE_TURN, Plan(0, 0, [], 1, 5), 5) == [ONE_TURN[2]]
  {
    var ms := ONE_TURN;
    assert Users(ms, 0, 3) == 1;
    BareCost(e, ms);
    assert ms[0..] == ms && ms[1..] == [ms[1], ms[2]] && ms[2..] == [ms[2]];
    BareCost(e, ms[1..]);
    BareCost(e, ms[2..]);
    FallbackUnique(e, ms, 5, 2);
  }

  /** Without them a key result can be lost: one whose identifier a kept message also bears does not
      come back. */
  lemma SharedIdIsLost(x: Entry, y: Entry)
    requires x.id == y.id != ""
    ensures Missing([x, y], Identities([y]), [0]) == []
  {
    assert Identity([y][0]) in Identities([y]);
    assert [0][..0] == [] && Missing([x, y], Identities([y]), [0][..0]) == [];
  }
}
