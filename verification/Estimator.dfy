/** The token estimator of internal/engine/context/context.go. */
module Estimator {
  import opened Common
  import opened Transcript

  /** Characters per token; a setting that is not positive selects the default. */
  datatype Estimator = Estimator(asciiPerToken: int, cjkPerToken: int)

  const PER_MESSAGE: nat := 4
  const PER_BLOCK: nat := 2
  const PER_IMAGE: nat := 1500

  function PerAscii(e: Estimator): (n: nat)
    ensures n > 0
  {
    if e.asciiPerToken <= 0 then 4 else e.asciiPerToken
  }

  function PerCjk(e: Estimator): (n: nat)
    ensures n > 0
  {
    if e.cjkPerToken <= 0 then 1 else e.cjkPerToken
  }

  predicate IsCjk(c: char) {
    || '\U{4E00}' <= c <= '\U{9FFF}' || '\U{3400}' <= c <= '\U{4DBF}' || '\U{3040}' <= c <= '\U{30FF}'
    || '\U{AC00}' <= c <= '\U{D7AF}' || '\U{F900}' <= c <= '\U{FAFF}' || '\U{3000}' <= c <= '\U{303F}'
    || '\U{FF00}' <= c <= '\U{FFEF}'
  }

  /** The characters of dense scripts. */
  function Dense(s: string): (n: nat)
    ensures n <= |s|
  {
    if s == "" then 0 else Dense(s[..|s| - 1]) + if IsCjk(s[|s| - 1]) then 1 else 0
  }

  function CeilDiv(n: nat, d: nat): nat
    requires d > 0
  {
    (n + d - 1) / d
  }

  /** Dense and sparse characters are counted apart, each rounded up on its own. */
  function TextCost(e: Estimator, s: string): nat {
    CeilDiv(Dense(s), PerCjk(e)) + CeilDiv(|s| - Dense(s), PerAscii(e))
  }

  function BlockCost(e: Estimator, b: Block): nat {
    match b.kind
    case Text => TextCost(e, b.text)
    case Thinking => TextCost(e, b.thinking)
    case Image => PER_IMAGE
    case ToolUse => TextCost(e, b.toolName) + TextCost(e, b.input)
    case ToolResultKind => TextCost(e, b.output)
    case Reasoning => TextCost(e, b.encrypted)
    case Structured => TextCost(e, b.text)
  }

  function BlockTotal(e: Estimator): Block -> nat {
    (b: Block) => PER_BLOCK + BlockCost(e, b)
  }

  function MessageCost(e: Estimator, m: Message): (n: nat)
    ensures n >= PER_MESSAGE
  {
    PER_MESSAGE + Sum(BlockTotal(e), m.content)
  }

  method EstimateText(e: Estimator, s: string) returns (tokens: nat)
    ensures tokens == TextCost(e, s)
  {
    var dense, sparse := 0, 0;
    for k := 0 to |s|
      invariant dense == Dense(s[..k]) && dense + sparse == k
    {
      assert s[..k + 1][..k] == s[..k];
      if IsCjk(s[k]) {
        dense := dense + 1;
      } else {
        sparse := sparse + 1;
      }
    }
    assert s[..|s|] == s;
    tokens := CeilDiv(dense, PerCjk(e)) + CeilDiv(sparse, PerAscii(e));
  }

  method EstimateMessage(e: Estimator, m: Message) returns (tokens: nat)
    ensures tokens == MessageCost(e, m)
  {
    tokens := PER_MESSAGE;
    for k := 0 to |m.content|
      invariant tokens == PER_MESSAGE + Sum(BlockTotal(e), m.content[..k])
    {
      assert m.content[..k + 1][..k] == m.content[..k];
      tokens := tokens + PER_BLOCK + BlockCost(e, m.content[k]);
    }
    assert m.content[..|m.content|] == m.content;
  }

  lemma {:induction false} DenseConcat(a: string, b: string)
    ensures Dense(a + b) == Dense(a) + Dense(b)
  {
    if b == "" {
      assert a + b == a;
    } else {
      assert (a + b)[..|a + b| - 1] == a + b[..|b| - 1];
      DenseConcat(a, b[..|b| - 1]);
    }
  }

  /** The dense scripts: CJK ideographs with their extension A and compatibility block, kana, Hangul
      syllables, CJK punctuation and full-width forms. */
  ghost predicate InDenseBlock(c: int) {
    || 0x3000 <= c < 0x3040 || 0x3040 <= c < 0x3100 || 0x3400 <= c < 0x4DC0 || 0x4E00 <= c < 0xA000
    || 0xAC00 <= c <= 0xD7AF || 0xF900 <= c < 0xFB00 || 0xFF00 <= c < 0xFFF0
  }

  /** Every character of a dense script counts as one, and no other does. */
  lemma DenseExactly(before: string, c: char, after: string)
    ensures Dense(before + [c] + after) == Dense(before) + (if InDenseBlock(c as int) then 1 else 0) + Dense(after)
  {
    DenseConcat(before, [c]);
    DenseConcat(before + [c], after);
    assert [c][..0] == "";
  }

  /** A message costs four tokens, and each block two more and what it carries. */
  lemma MessageCostExactly(e: Estimator, m: Message, b: Block)
    ensures MessageCost(e, m.(content := [])) == 4
    ensures MessageCost(e, m.(content := m.content + [b]))
            == MessageCost(e, m) + 2 + if b.kind.Image? then 1500 else BlockCost(e, b)
  {
    assert (m.content + [b])[..|m.content|] == m.content;
  }

  /** Rounding up is bounded by the division on both sides. */
  lemma CeilDivBounds(n: nat, d: nat)
    requires d > 0
    ensures n <= d * CeilDiv(n, d) < n + d
  {
    assert n + d - 1 == d * ((n + d - 1) / d) + (n + d - 1) % d;
  }

  lemma CeilDivSplit(m: nat, n: nat, d: nat)
    requires d > 0
    ensures CeilDiv(m + n, d) <= CeilDiv(m, d) + CeilDiv(n, d)
  {
    var x, y, z := CeilDiv(m, d), CeilDiv(n, d), CeilDiv(m + n, d);
    CeilDivBounds(m, d);
    CeilDivBounds(n, d);
    CeilDivBounds(m + n, d);
    assert d * z < d * x + d * y + d == d * (x + y + 1);
    CancelLess(d, z, x + y + 1);
  }

  lemma CancelLess(d: nat, a: nat, b: nat)
    requires d * a < d * b
    ensures a < b
  {
    if a >= b {
      ScaleUp(d, a, b);
    }
  }

  lemma ScaleUp(d: nat, a: nat, b: nat)
    requires a >= b
    ensures d * a >= d * b
  {
    assert d * a == d * b + d * (a - b);
  }

  /** Each script costs the fewest tokens that hold its characters, at the densities that were set or,
      where none was, at one and four characters a token. */
  lemma CostIsLeast(e: Estimator, s: string, x: nat, y: nat)
    requires var cjk := if e.cjkPerToken <= 0 then 1 else e.cjkPerToken;
             var ascii := if e.asciiPerToken <= 0 then 4 else e.asciiPerToken;
             && Dense(s) <= cjk * x < Dense(s) + cjk && |s| - Dense(s) <= ascii * y < |s| - Dense(s) + ascii
    ensures TextCost(e, s) == x + y
  {
    QuotientsCost(e, s, Dense(s), |s| - Dense(s), PerCjk(e), PerAscii(e), x, y);
  }

  lemma QuotientsCost(e: Estimator, s: string, dense: nat, sparse: nat, cjk: nat, ascii: nat, x: nat, y: nat)
    requires cjk == PerCjk(e) && ascii == PerAscii(e) && dense == Dense(s) && sparse == |s| - dense
    requires dense <= cjk * x < dense + cjk && sparse <= ascii * y < sparse + ascii
    ensures TextCost(e, s) == x + y
  {
    LeastQuotient(dense, cjk, x);
    LeastQuotient(sparse, ascii, y);
  }

  lemma LeastQuotient(n: nat, d: nat, x: nat)
    requires d > 0 && n <= d * x < n + d
    ensures CeilDiv(n, d) == x
  {
    var y := CeilDiv(n, d);
    CeilDivBounds(n, d);
    assert d * x < d * (y + 1) && d * y < d * (x + 1);
    CancelLess(d, x, y + 1);
    CancelLess(d, y, x + 1);
  }

  /** A block is free exactly when what its kind carries is empty; an image never is. */
  lemma FreeBlockIff(e: Estimator, b: Block)
    ensures BlockCost(e, b) == 0 <==>
            match b.kind
            case Text => b.text == ""
            case Thinking => b.thinking == ""
            case Image => false
            case ToolUse => b.toolName == "" && b.input == ""
            case ToolResultKind => b.output == ""
            case Reasoning => b.encrypted == ""
            case Structured => b.text == ""
  {
    FreeTextIff(e, b.text);
    FreeTextIff(e, b.thinking);
    FreeTextIff(e, b.toolName);
    FreeTextIff(e, b.input);
    FreeTextIff(e, b.output);
    FreeTextIff(e, b.encrypted);
  }

  lemma FreeTextIff(e: Estimator, s: string)
    ensures TextCost(e, s) == 0 <==> s == ""
  {
    PiecesCostNoLess(e, s, "");
    if s == "" {
      LeastQuotient(0, PerCjk(e), 0);
      LeastQuotient(0, PerAscii(e), 0);
    }
  }

  /** Text cut into pieces never looks cheaper than the whole, and no text looks free. */
  lemma PiecesCostNoLess(e: Estimator, a: string, b: string)
    ensures TextCost(e, a + b) <= TextCost(e, a) + TextCost(e, b)
    ensures a != "" ==> TextCost(e, a) >= 1
  {
    DenseConcat(a, b);
    CeilDivSplit(Dense(a), Dense(b), PerCjk(e));
    CeilDivSplit(|a| - Dense(a), |b| - Dense(b), PerAscii(e));
    CeilDivBounds(Dense(a), PerCjk(e));
    CeilDivBounds(|a| - Dense(a), PerAscii(e));
  }
}
