/** What a compacted conversation consists of, and what is reported about it. */
module CompactionResults {
  import opened Common
  import opened Transcript
  import opened Estimator
  import opened Compaction

  // ---------------------------------------------------------------------------
  // Telling messages apart
  // ---------------------------------------------------------------------------

  lemma RolesApart(a: Role, b: Role)
    ensures '\0' !in RoleName(a) && (RoleName(a) == RoleName(b) ==> a == b)
  {
    assert "system"[1] == 'y' && "user"[0] == 'u' && "assistant"[0] == 'a' && "tool"[0] == 't' && "system"[0] == 's';
  }

  lemma FrontOfZero(a: string, b: string, x: string, y: string)
    requires a + "\0" + x == b + "\0" + y && '\0' !in a && '\0' !in b
    ensures a == b && x == y
  {
    var s := a + "\0" + x;
    assert s[|a|] == '\0' && forall k :: 0 <= k < |a| ==> s[k] == a[k];
    assert s[|b|] == '\0' && forall k :: 0 <= k < |b| ==> s[k] == b[k];
    assert |a| == |b|;
    assert s[..|a|] == a && s[..|b|] == b && s[|a| + 1..] == x && s[|b| + 1..] == y;
  }

  function FirstText(x: Entry): string {
    if x.message.content == [] then "" else x.message.content[0].text
  }

  /** Messages with proper identifiers are the same exactly when these agree; messages without, when
      role and first text do; and one is never taken for the other. */
  lemma SameIdentityIff(x: Entry, y: Entry)
    requires '\0' !in x.id && '\0' !in y.id
    ensures Identity(x) == Identity(y) <==>
            if x.id != "" || y.id != "" then x.id == y.id
            else x.message.role == y.message.role && FirstText(x) == FirstText(y)
  {
    var a, b := RoleName(x.message.role), RoleName(y.message.role);
    RolesApart(x.message.role, y.message.role);
    RolesApart(y.message.role, x.message.role);
    if x.id == "" && y.id == "" && Identity(x) == Identity(y) {
      assert Identity(x) == a + "\0" + FirstText(x) && Identity(y) == b + "\0" + FirstText(y);
      FrontOfZero(a, b, FirstText(x), FirstText(y));
    } else if x.id == "" && y.id != "" {
      assert Identity(x)[|a|] == '\0';
    } else if x.id != "" && y.id == "" {
      assert Identity(y)[|b|] == '\0';
    }
  }

  // ---------------------------------------------------------------------------
  // What is in the result
  // ---------------------------------------------------------------------------

  /** Truncating, or a summarizer that failed: the key results of what was dropped, and the rest. */
  lemma TruncatedTo(e: Estimator, s: Strategy, ms: seq<Entry>, budget: nat, keep: bool, plan: Plan)
    requires 0 < plan.cut <= |ms| && ListsKeys(ms, keep, plan.cut, plan.keyResults) && ProperIds(ms)
    requires s.Truncate? || s.summarizer(ms[..plan.cut]).None?
    ensures forall k :: 0 <= k < |plan.keyResults| ==> plan.keyResults[k] < |ms|
    ensures Outcome(e, s, ms, plan, budget) == Pick(ms, plan.keyResults) + ms[plan.cut..]
  {
    KeyResultsSurvive(e, s, ms, budget, keep, plan);
  }

  /** Between its header and its closing line, a summary is what the summarizer said, whole when it
      costs no more than its target, otherwise its first four characters for each token of it. */
  ghost predicate Summarizes(e: Estimator, s: Strategy, x: Entry, said: string, target: nat)
    requires s.Summarize?
  {
    && x.id == "" && !x.marked && x.message.role.User? && |x.message.content| == 1
    && x.message.content[0].kind.Text?
    && var most := if target > 0 && TextCost(e, said) > target then target * 4 else |said|;
       x.message.content[0].text
       == (if s.header == "" then s.standard else s.header) + said[..Min(most, |said|)] + "\n</conversation_summary>"
  }

  /** A summary stands in for what was folded, behind its key results and ahead of the rest. */
  lemma SummaryStandsIn(e: Estimator, s: Strategy, ms: seq<Entry>, budget: nat, keep: bool, plan: Plan)
    requires 0 < plan.cut <= |ms| && ListsKeys(ms, keep, plan.cut, plan.keyResults) && ProperIds(ms)
    requires s.Summarize? && s.summarizer(ms[..plan.cut]).Some?
    ensures forall k :: 0 <= k < |plan.keyResults| ==> plan.keyResults[k] < |ms|
    ensures exists x :: Outcome(e, s, ms, plan, budget) == Pick(ms, plan.keyResults) + [x] + ms[plan.cut..]
              && Summarizes(e, s, x, s.summarizer(ms[..plan.cut]).value, plan.target)
  {
    KeyResultsSurvive(e, s, ms, budget, keep, plan);
    var said := s.summarizer(ms[..plan.cut]).value;
    var text := CutDown(e, said, plan.target);
    var x := SummaryEntry(s.Header(), text);
    assert said[..|said|] == said;
    assert Summarizes(e, s, x, said, plan.target);
    Associates(Pick(ms, plan.keyResults), [x], ms[plan.cut..]);
  }

  /** A failed tool call anywhere, and whatever its caller marked, is still there after a fold. */
  lemma FailuresSurvive(e: Estimator, s: Strategy, ms: seq<Entry>, budget: nat, plan: Plan, k: nat, j: nat)
    requires 0 < plan.cut <= |ms| && ListsKeys(ms, true, plan.cut, plan.keyResults) && ProperIds(ms) && k < |ms|
    requires ms[k].marked
             || (j < |ms[k].message.content| && ms[k].message.content[j].kind.ToolResultKind?
                 && ms[k].message.content[j].isError)
    ensures ms[k] in Outcome(e, s, ms, plan, budget)
  {
    FoldKeepsKeys(e, s, ms, budget, plan, k);
  }

  /** Nothing else of the folded part is: no unmarked message without a failed call. */
  lemma OnlyKeysComeBack(e: Estimator, s: Strategy, ms: seq<Entry>, budget: nat, plan: Plan, k: nat)
    requires 0 < plan.cut <= |ms| && ListsKeys(ms, true, plan.cut, plan.keyResults) && ProperIds(ms) && k < plan.cut
    requires !ms[k].marked
             && forall j :: 0 <= j < |ms[k].message.content| && ms[k].message.content[j].kind.ToolResultKind? ==>
                  !ms[k].message.content[j].isError
    ensures ms[k] !in Outcome(e, s, ms, plan, budget)
  {
    KeyResultsSurvive(e, s, ms, budget, true, plan);
    KeyNotKept(e, s, ms, plan, k);
    NotAmong(ms[k], Kept(e, s, ms, plan));
    forall a | 0 <= a < |plan.keyResults| ensures ms[plan.keyResults[a]] != ms[k] {
      assert plan.keyResults[a] in plan.keyResults;
      assert plan.keyResults[a] != k;
    }
  }

  // ---------------------------------------------------------------------------
  // The report
  // ---------------------------------------------------------------------------

  /** Whether the summarizer was asked and failed. */
  ghost predicate SummaryFailed(s: Strategy, ms: seq<Entry>, cut: nat)
    requires cut <= |ms|
  {
    cut > 0 && s.Summarize? && s.summarizer(ms[..cut]).None?
  }

  /** What the report says of the conversation that came out: sizes before; sizes of everything but
      the key results that were put back afterwards; how many messages were dropped off the front. It
      names a failure exactly when the summarizer failed, and says that the budget is still exceeded
      only of a fallback. */
  lemma ReportIsHonest(e: Estimator, s: Strategy, ms: seq<Entry>, budget: nat, plan: Plan)
    requires ms != [] && plan.cut <= |ms|
    ensures var r, out := OutcomeReport(e, s, ms, plan, budget), Outcome(e, s, ms, plan, budget);
            && r.tokensBefore == Estimate(e, ms) && r.messagesBefore == |ms|
            && r.messagesAfter <= |out| && r.tokensAfter == Estimate(e, out[|out| - r.messagesAfter..])
    ensures var r := OutcomeReport(e, s, ms, plan, budget);
            && (r.failed <==> SummaryFailed(s, ms, plan.cut))
            && (r.fellBack <==> SummaryFailed(s, ms, plan.cut) || plan.cut == 0)
            && (r.stillOverBudget <==> r.fellBack && r.tokensAfter > budget)
    ensures var r, out := OutcomeReport(e, s, ms, plan, budget), Outcome(e, s, ms, plan, budget);
            if plan.cut > 0 then r.dropped == plan.cut
            else r.messagesAfter == |out| && r.dropped + |out| == |ms| && out == ms[r.dropped..]
    ensures var r := OutcomeReport(e, s, ms, plan, budget);
            r.dropped + r.messagesAfter == |ms| + if s.Truncate? || r.fellBack then 0 else 1
  {
    var out := Outcome(e, s, ms, plan, budget);
    if plan.cut > 0 {
      var kept := Kept(e, s, ms, plan);
      assert out[|out| - |kept|..] == kept;
      KeptCount(e, s, ms, plan);
    } else {
      assert out[0..] == out;
    }
  }

  lemma KeptCount(e: Estimator, s: Strategy, ms: seq<Entry>, plan: Plan)
    requires 0 < plan.cut <= |ms|
    ensures plan.cut + |Kept(e, s, ms, plan)|
            == |ms| + if s.Truncate? || SummaryFailed(s, ms, plan.cut) then 0 else 1
  {
    if s.Summarize? && s.summarizer(ms[..plan.cut]).Some? {
      SummaryInFront(e, s, ms, plan);
    }
  }

  lemma SummaryInFront(e: Estimator, s: Strategy, ms: seq<Entry>, plan: Plan)
    requires 0 < plan.cut <= |ms| && s.Summarize? && s.summarizer(ms[..plan.cut]).Some?
    ensures var text := CutDown(e, s.summarizer(ms[..plan.cut]).value, plan.target);
            Kept(e, s, ms, plan) == [SummaryEntry(s.Header(), text)] + ms[plan.cut..]
  {
  }
}
