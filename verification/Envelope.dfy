/** The envelope around untrusted text (internal/engine/security/wrap.go): nothing inside it can
    close it. */
module Envelope {

  const TOOL_OPEN := "<tool_output source=\"untrusted\">"
  const TOOL_CLOSE := "</tool_output>"
  const TOOL_BROKEN := "</tool_ou\U{200B}t>"
  const DOCUMENT_OPEN := "<document source=\"untrusted\" kind=\""
  const DOCUMENT_CLOSE := "</document>"
  const DOCUMENT_BROKEN := "</docu\U{200B}ment>"

  /** `strings.ReplaceAll`: leftmost occurrences first, never overlapping. */
  function ReplaceAll(s: string, old_: string, new_: string): string
    requires old_ != ""
    decreases |s|
  {
    if s == "" then ""
    else if old_ <= s then new_ + ReplaceAll(s[|old_|..], old_, new_)
    else [s[0]] + ReplaceAll(s[1..], old_, new_)
  }

  function Neutralize(content: string): string {
    ReplaceAll(ReplaceAll(content, TOOL_CLOSE, TOOL_BROKEN), DOCUMENT_CLOSE, DOCUMENT_BROKEN)
  }

  function WrapToolOutput(content: string): string {
    TOOL_OPEN + "\n" + Neutralize(content) + "\n" + TOOL_CLOSE
  }

  function EscapedChar(c: char): string {
    match c
    case '&' => "&amp;"
    case '<' => "&lt;"
    case '>' => "&gt;"
    case '"' => "&quot;"
    case '\'' => "&#39;"
    case _ => [c]
  }

  function EscapeAttribute(value: string): string {
    if value == "" then "" else EscapedChar(value[0]) + EscapeAttribute(value[1..])
  }

  /** `UntrustedDocument`, which fills a builder piece by piece. */
  method UntrustedDocument(source: string, content: string) returns (wrapped: string)
    ensures wrapped == DOCUMENT_OPEN + EscapeAttribute(source) + "\">\n" + Neutralize(content) + "\n" + DOCUMENT_CLOSE
    ensures OnlyAtEnd(wrapped, DOCUMENT_CLOSE)
  {
    wrapped := DOCUMENT_OPEN;
    wrapped := wrapped + EscapeAttribute(source);
    wrapped := wrapped + "\">\n";
    wrapped := wrapped + Neutralize(content);
    wrapped := wrapped + "\n";
    wrapped := wrapped + DOCUMENT_CLOSE;
    DocumentClosesOnce(source, content);
  }

  // ---------------------------------------------------------------------------
  // Occurrences
  // ---------------------------------------------------------------------------

  predicate OccursAt(s: string, t: string, i: nat) {
    i <= |s| && t <= s[i..]
  }

  ghost predicate Contains(s: string, t: string) {
    exists i: nat :: OccursAt(s, t, i)
  }

  /** `t` occurs in `s` once, as its end. */
  ghost predicate OnlyAtEnd(s: string, t: string) {
    |t| <= |s| && forall i: nat :: OccursAt(s, t, i) <==> i == |s| - |t|
  }

  /** Starts with `<`, holds no other, and no line break. */
  predicate TagLike(t: string) {
    t != "" && t[0] == '<' && forall k :: 0 < k < |t| ==> t[k] != '<' && t[k] != '\n'
  }

  /** The two differ at a position both have. */
  ghost predicate Clash(a: string, b: string) {
    exists k :: 0 <= k < |a| && k < |b| && a[k] != b[k]
  }

  /** Text without `<` at the front of the result was at the front of the input. */
  lemma {:induction false} PlainFront(s: string, old_: string, new_: string, p: string)
    requires old_ != "" && TagLike(new_) && (forall k :: 0 <= k < |p| ==> p[k] != '<')
    requires p <= ReplaceAll(s, old_, new_)
    ensures p <= s
    decreases |s|
  {
    if p != "" && s != "" {
      var r := ReplaceAll(s, old_, new_);
      assert p[0] == r[0];
      assert !(old_ <= s);
      assert r[1..] == ReplaceAll(s[1..], old_, new_);
      assert p[1..] <= r[1..];
      PlainFront(s[1..], old_, new_, p[1..]);
      assert p == [p[0]] + p[1..] && s == [s[0]] + s[1..];
    }
  }

  lemma ClashingFront(t: string, front: string, rest: string)
    requires Clash(t, front)
    ensures !(t <= front + rest)
  {
    var k :| 0 <= k < |t| && k < |front| && t[k] != front[k];
    assert (front + rest)[k] == front[k];
  }

  /** A tag at the front of the result was at the front of the input, and was not replaced there. */
  lemma TagFront(s: string, old_: string, new_: string, t: string)
    requires old_ != "" && TagLike(new_) && TagLike(t) && Clash(t, new_)
    requires t <= ReplaceAll(s, old_, new_)
    ensures t <= s && !(old_ <= s)
  {
    var r := ReplaceAll(s, old_, new_);
    if |old_| <= |s| {
      ClashingFront(t, new_, ReplaceAll(s[|old_|..], old_, new_));
    }
    assert t[1..] <= r[1..] && r[1..] == ReplaceAll(s[1..], old_, new_);
    PlainFront(s[1..], old_, new_, t[1..]);
    assert t == [t[0]] + t[1..] && s == [s[0]] + s[1..];
  }

  /** Wherever a tag stands in the result, it stood in the input, and was not replaced there. */
  lemma {:induction false} TagSurvives(s: string, old_: string, new_: string, t: string, i: nat) returns (j: nat)
    requires old_ != "" && TagLike(new_) && TagLike(t) && Clash(t, new_)
    requires OccursAt(ReplaceAll(s, old_, new_), t, i)
    ensures OccursAt(s, t, j) && !(old_ <= s[j..])
    decreases |s|
  {
    var r := ReplaceAll(s, old_, new_);
    if i == 0 {
      assert r[0..] == r;
      TagFront(s, old_, new_, t);
      assert s[0..] == s;
      return 0;
    }
    if old_ <= s {
      var rest := ReplaceAll(s[|old_|..], old_, new_);
      assert r == new_ + rest;
      assert r[i] == t[0] == '<';
      assert i >= |new_|;
      assert r[i..] == rest[i - |new_|..];
      var k := TagSurvives(s[|old_|..], old_, new_, t, i - |new_|);
      assert s[|old_|..][k..] == s[|old_| + k..];
      j := |old_| + k;
    } else {
      var rest := ReplaceAll(s[1..], old_, new_);
      assert r == [s[0]] + rest && r[i..] == rest[i - 1..];
      var k := TagSurvives(s[1..], old_, new_, t, i - 1);
      assert s[1..][k..] == s[1 + k..];
      j := 1 + k;
    }
  }

  /** A replaced tag is gone, even across what was put in its place; another tag is not created. */
  lemma ReplacingRemoves(s: string, old_: string, new_: string, t: string)
    requires old_ != "" && TagLike(new_) && TagLike(t) && Clash(t, new_)
    requires t == old_ || !Contains(s, t)
    ensures !Contains(ReplaceAll(s, old_, new_), t)
  {
    forall i: nat | OccursAt(ReplaceAll(s, old_, new_), t, i) ensures false {
      var j := TagSurvives(s, old_, new_, t, i);
    }
  }

  lemma TagsClash()
    ensures TagLike(TOOL_CLOSE) && TagLike(TOOL_BROKEN) && TagLike(DOCUMENT_CLOSE) && TagLike(DOCUMENT_BROKEN)
    ensures Clash(TOOL_CLOSE, TOOL_BROKEN) && Clash(TOOL_CLOSE, DOCUMENT_BROKEN)
            && Clash(DOCUMENT_CLOSE, DOCUMENT_BROKEN)
  {
    assert TOOL_CLOSE[9] == 't' && TOOL_BROKEN[9] == '\U{200B}';
    assert TOOL_CLOSE[2] == 't' && DOCUMENT_BROKEN[2] == 'd';
    assert DOCUMENT_CLOSE[6] == 'm' && DOCUMENT_BROKEN[6] == '\U{200B}';
  }

  /** For every content, neither closing tag is left. */
  lemma NeutralizedHasNoClose(content: string)
    ensures !Contains(Neutralize(content), TOOL_CLOSE) && !Contains(Neutralize(content), DOCUMENT_CLOSE)
  {
    TagsClash();
    var broken := ReplaceAll(content, TOOL_CLOSE, TOOL_BROKEN);
    ReplacingRemoves(content, TOOL_CLOSE, TOOL_BROKEN, TOOL_CLOSE);
    ReplacingRemoves(broken, DOCUMENT_CLOSE, DOCUMENT_BROKEN, TOOL_CLOSE);
    ReplacingRemoves(broken, DOCUMENT_CLOSE, DOCUMENT_BROKEN, DOCUMENT_CLOSE);
  }

  /** Text without either closing tag comes through unchanged. */
  lemma {:induction false} HarmlessUnchanged(s: string, old_: string, new_: string)
    requires old_ != "" && !Contains(s, old_)
    ensures ReplaceAll(s, old_, new_) == s
    decreases |s|
  {
    if s != "" {
      assert s[0..] == s && !OccursAt(s, old_, 0);
      forall i: nat | OccursAt(s[1..], old_, i) ensures OccursAt(s, old_, i + 1) {
        assert s[1..][i..] == s[i + 1..];
      }
      HarmlessUnchanged(s[1..], old_, new_);
    }
  }

  /** An envelope: a head in which the tag cannot start, a tag-free body, a line break, the tag. */
  lemma EnvelopeClosesOnce(head: string, body: string, t: string)
    requires TagLike(t) && !Contains(body, t)
    requires forall i :: 0 <= i < |head| && head[i] == '<' ==> i + 1 < |head| && |t| > 1 && head[i + 1] != t[1]
    ensures OnlyAtEnd(head + body + "\n" + t, t)
  {
    var all := head + body + "\n" + t;
    var end := |all| - |t|;
    assert all[end..] == t;
    forall i: nat | i != end ensures !OccursAt(all, t, i) {
      if i < |head| {
        TagNotAt(all, t, i, if head[i] == '<' then 1 else 0);
      } else if i < |head| + |body| {
        var at := i - |head|;
        if at + |t| <= |body| {
          assert all[i..][..|t|] == body[at..][..|t|];
          assert !OccursAt(body, t, at);
        } else {
          TagNotAt(all, t, i, |body| - at);
        }
      } else if i < end {
        TagNotAt(all, t, i, 0);
      }
    }
  }

  lemma TagNotAt(s: string, t: string, i: nat, k: nat)
    requires k < |t| && i + k < |s| && s[i + k] != t[k]
    ensures !OccursAt(s, t, i)
  {
    assert s[i..][k] == s[i + k];
  }

  /** A wrapped tool result holds its closing tag once, at the very end, whatever the tool said. */
  lemma ToolOutputClosesOnce(content: string)
    ensures OnlyAtEnd(WrapToolOutput(content), TOOL_CLOSE)
  {
    TagsClash();
    NeutralizedHasNoClose(content);
    ToolHead();
    EnvelopeClosesOnce(TOOL_OPEN + "\n", Neutralize(content), TOOL_CLOSE);
  }

  lemma ToolHead()
    ensures var head := TOOL_OPEN + "\n";
            |TOOL_CLOSE| > 1 && |head| > 1 && head[1] != TOOL_CLOSE[1] && forall i :: 0 < i < |head| ==> head[i] != '<'
  {
    assert TOOL_OPEN[0] == '<' && TOOL_OPEN[1] == 't' && TOOL_CLOSE[1] == '/';
  }

  lemma {:induction false} EscapedHasNoOpening(value: string)
    ensures forall k :: 0 <= k < |EscapeAttribute(value)| ==> EscapeAttribute(value)[k] !in "<>\"'"
  {
    if value != "" {
      EscapedHasNoOpening(value[1..]);
    }
  }

  /** The head of a document holds no second `<`, whatever its source claims to be. */
  lemma DocumentHead(origin: string, i: nat)
    requires forall k :: 0 <= k < |origin| ==> origin[k] !in "<>\"'"
    requires i < |DOCUMENT_OPEN + origin + "\">\n"|
    ensures (DOCUMENT_OPEN + origin + "\">\n")[i] == '<' ==> i == 0
  {
    var open := DOCUMENT_OPEN;
    var head := open + origin + "\">\n";
    if i < |open| {
      assert head[i] == open[i];
    } else if i < |open| + |origin| {
      assert head[i] == origin[i - |open|] && origin[i - |open|] !in "<>\"'";
      assert "<>\"'"[0] == '<';
    } else {
      assert head[i] == "\">\n"[i - |open| - |origin|];
    }
  }

  lemma DocumentClosesOnce(source: string, content: string)
    ensures OnlyAtEnd(DOCUMENT_OPEN + EscapeAttribute(source) + "\">\n" + Neutralize(content) + "\n" + DOCUMENT_CLOSE,
            DOCUMENT_CLOSE)
  {
    TagsClash();
    NeutralizedHasNoClose(content);
    EscapedHasNoOpening(source);
    var origin := EscapeAttribute(source);
    var head := DOCUMENT_OPEN + origin + "\">\n";
    assert head[0] == '<' && head[1] == 'd' && DOCUMENT_CLOSE[1] == '/';
    forall i | 0 <= i < |head| && head[i] == '<' ensures i == 0 {
      DocumentHead(origin, i);
    }
    EnvelopeClosesOnce(head, Neutralize(content), DOCUMENT_CLOSE);
  }
}
