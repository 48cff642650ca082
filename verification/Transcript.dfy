/** Messages, stream chunks and the accumulator that turns chunks into one assistant message
    (internal/core/message.go and internal/core/loop.go). */
module Transcript {
  import opened Common

  datatype Kind = Text | Image | ToolUse | ToolResultKind | Thinking | Reasoning | Structured

  /** One content block. An image carries its data in `text`. */
  datatype Block = Block(kind: Kind, text: string, callId: string, toolName: string, input: string,
                         output: string, isError: bool, thinking: string, signature: string, encrypted: string)

  const PLAIN: Block := Block(Text, "", "", "", "", "", false, "", "", "")

  datatype Role = System | User | Assistant | Tool

  datatype Message = Message(role: Role, content: seq<Block>, responseId: string, incomplete: bool)

  datatype ChunkKind = TextChunk | ToolCallChunk | ThinkingChunk | DoneChunk | ErrorChunk | OtherChunk

  /** `failed` stands for a chunk that carries an error value. */
  datatype Chunk = Chunk(kind: ChunkKind, text: string, toolCall: Option<Block>, signature: string,
                         encrypted: string, responseId: string, failed: bool)

  /** JSON checks, kept abstract: whether a text is a JSON value, and whether it is an object. */
  datatype Json = Json(valid: string -> bool, object_: string -> bool)

  function Calls(content: seq<Block>): seq<Block> {
    if content == [] then []
    else
      var last := content[|content| - 1];
      Calls(content[..|content| - 1]) + if last.kind.ToolUse? then [last] else []
  }

  /** `validateContentBlock`. */
  predicate ValidBlock(j: Json, b: Block) {
    match b.kind
    case Text => true
    case Structured => b.input != "" && j.valid(b.input)
    case Image => b.text != ""
    case ToolUse => b.callId != "" && b.toolName != "" && (b.input == "" || j.object_(b.input))
    case ToolResultKind => b.callId != "" && (b.output == "" || j.valid(b.output))
    case Thinking => b.thinking != "" || b.signature != ""
    case Reasoning => b.encrypted != ""
  }

  ghost predicate UniqueIds(calls: seq<Block>) {
    forall i, k :: 0 <= i < k < |calls| ==> calls[i].callId != calls[k].callId
  }

  ghost predicate ValidCall(j: Json, call: Block) {
    && call.kind.ToolUse? && call.callId != "" && call.toolName != ""
    && (call.input == "" || j.object_(call.input))
  }

  /** What `validateToolCalls` accepts. */
  ghost predicate ValidCalls(j: Json, calls: seq<Block>) {
    (forall i :: 0 <= i < |calls| ==> ValidCall(j, calls[i])) && UniqueIds(calls)
  }

  method ValidateToolCalls(j: Json, calls: seq<Block>) returns (ok: bool)
    ensures ok <==> ValidCalls(j, calls)
  {
    var seen: set<string> := {};
    for i := 0 to |calls|
      invariant ValidCalls(j, calls[..i])
      invariant seen == set k | 0 <= k < i :: calls[k].callId
    {
      if !calls[i].kind.ToolUse? || !ValidBlock(j, calls[i]) {
        return false;
      }
      if calls[i].callId in seen {
        var k :| 0 <= k < i && calls[k].callId == calls[i].callId;
        return false;
      }
      seen := seen + {calls[i].callId};
    }
    assert calls[..|calls|] == calls;
    ok := true;
  }

  /** `appendOrMerge`: a block of the last block's kind is folded into it. */
  function Merged(content: seq<Block>, b: Block): seq<Block> {
    if content != [] && content[|content| - 1].kind == b.kind then
      var last := content[|content| - 1];
      var folded := match b.kind
        case Text => last.(text := last.text + b.text)
        case Thinking =>
          last.(thinking := last.thinking + b.thinking,
                signature := if b.signature != "" then b.signature else last.signature)
        case Reasoning => last.(encrypted := b.encrypted)
        case _ => last;
      content[|content| - 1 := folded]
    else content + [b]
  }

  datatype Accumulator = Accumulator(content: seq<Block>, responseId: string)

  const NOTHING: Accumulator := Accumulator([], "")

  /** The reasoning and identifier parts every chunk may carry. */
  function Prepared(a: Accumulator, c: Chunk): Accumulator {
    var b := a.(responseId := if c.responseId != "" then c.responseId else a.responseId);
    if c.encrypted == "" then b
    else b.(content := Merged(b.content, PLAIN.(kind := Reasoning, encrypted := c.encrypted)))
  }

  function Call(c: Chunk): Block
    requires c.toolCall.Some?
  {
    c.toolCall.value.(input := if c.toolCall.value.input == "" then "{}" else c.toolCall.value.input)
  }

  /** What `add` leaves in the accumulator, whether or not it reports an error. */
  function Added(j: Json, a: Accumulator, c: Chunk): Accumulator {
    if c.failed then a
    else
      var b := Prepared(a, c);
      match c.kind
      case TextChunk => b.(content := Merged(b.content, PLAIN.(text := c.text)))
      case ThinkingChunk =>
        b.(content := Merged(b.content, PLAIN.(kind := Thinking, thinking := c.text, signature := c.signature)))
      case ToolCallChunk =>
        if c.toolCall.Some? && ValidBlock(j, Call(c)) then b.(content := b.content + [Call(c)]) else b
      case _ => b
  }

  ghost predicate Accepts(j: Json, a: Accumulator, c: Chunk) {
    !c.failed &&
    match c.kind
    case DoneChunk => true
    case ErrorChunk => false
    case OtherChunk => false
    case ToolCallChunk => c.toolCall.Some? && ValidBlock(j, Call(c)) && ValidCalls(j, Calls(Added(j, a, c).content))
    case _ => ValidCalls(j, Calls(Added(j, a, c).content))
  }

  /** The message an accumulator amounts to, if any. */
  function MessageOf(a: Accumulator): Option<Message> {
    if a.content == [] && a.responseId == "" then None else Some(Message(Assistant, a.content, a.responseId, false))
  }

  method CollectCalls(content: seq<Block>) returns (calls: seq<Block>)
    ensures calls == Calls(content)
  {
    calls := [];
    for i := 0 to |content|
      invariant calls == Calls(content[..i])
    {
      assert content[..i + 1][..i] == content[..i];
      if content[i].kind.ToolUse? {
        calls := calls + [content[i]];
      }
    }
    assert content[..|content|] == content;
  }

  class MessageAccumulator {
    var content: seq<Block>
    var responseId: string

    constructor ()
      ensures View() == NOTHING
    {
      content, responseId := [], "";
    }

    ghost function View(): Accumulator
      reads this
    {
      Accumulator(content, responseId)
    }

    method AppendOrMerge(b: Block)
      modifies this`content
      ensures content == Merged(old(content), b)
    {
      if |content| > 0 {
        var at := |content| - 1;
        var last := content[at];
        if last.kind == b.kind {
          match b.kind {
            case Text => last := last.(text := last.text + b.text);
            case Thinking =>
              last := last.(thinking := last.thinking + b.thinking);
              if b.signature != "" {
                last := last.(signature := b.signature);
              }
            case Reasoning => last := last.(encrypted := b.encrypted);
            case _ =>
          }
          content := content[at := last];
          return;
        }
      }
      content := content + [b];
    }

    method Add(j: Json, c: Chunk) returns (ok: bool)
      modifies this
      ensures View() == Added(j, old(View()), c)
      ensures ok <==> Accepts(j, old(View()), c)
      ensures c.failed ==> !ok && View() == old(View())
      ensures !c.failed && c.kind.DoneChunk? ==> ok
      ensures c.kind.ErrorChunk? || c.kind.OtherChunk? || (c.kind.ToolCallChunk? && c.toolCall.None?) ==> !ok
      ensures !c.failed ==> responseId == if c.responseId != "" then c.responseId else old(responseId)
    {
      if c.failed {
        return false;
      }
      if c.responseId != "" {
        responseId := c.responseId;
      }
      if c.encrypted != "" {
        AppendOrMerge(PLAIN.(kind := Reasoning, encrypted := c.encrypted));
      }
      match c.kind {
        case TextChunk => AppendOrMerge(PLAIN.(text := c.text));
        case ThinkingChunk => AppendOrMerge(PLAIN.(kind := Thinking, thinking := c.text, signature := c.signature));
        case ToolCallChunk =>
          if c.toolCall.None? {
            return false;
          }
          var call := c.toolCall.value;
          if call.input == "" {
            call := call.(input := "{}");
          }
          if !ValidBlock(j, call) {
            return false;
          }
          content := content + [call];
        case DoneChunk => return true;
        case _ => return false;
      }
      var calls := CollectCalls(content);
      ok := ValidateToolCalls(j, calls);
    }
  }

  // ---------------------------------------------------------------------------
  // The shape of an accumulated message
  // ---------------------------------------------------------------------------

  /** A block of another kind than the last goes behind it. One of the same kind joins it: text and
      thinking grow, and of signatures and encrypted reasoning the newest counts. */
  lemma MergedIs(content: seq<Block>, b: Block)
    ensures var m := Merged(content, b);
            if content == [] || content[|content| - 1].kind != b.kind then m == content + [b]
            else |m| == |content| && Joins(content[|content| - 1], b, m[|m| - 1])
                 && m == content[..|content| - 1] + [m[|m| - 1]]
  {
    if content != [] {
      var was := content[|content| - 1];
      assert was.text + "" == was.text && was.thinking + "" == was.thinking;
    }
  }

  ghost predicate Joins(was: Block, b: Block, now: Block) {
    && now == was.(text := now.text, thinking := now.thinking, signature := now.signature, encrypted := now.encrypted)
    && now.text == was.text + (if b.kind.Text? then b.text else "")
    && now.thinking == was.thinking + (if b.kind.Thinking? then b.thinking else "")
    && now.signature == (if b.kind.Thinking? && b.signature != "" then b.signature else was.signature)
    && now.encrypted == (if b.kind.Reasoning? then b.encrypted else was.encrypted)
  }

  /** Only tool calls may stand next to a block of their own kind. */
  ghost predicate Alternating(content: seq<Block>) {
    forall i :: 0 < i < |content| && content[i].kind == content[i - 1].kind ==> content[i].kind.ToolUse?
  }

  ghost predicate Shaped(j: Json, a: Accumulator) {
    Alternating(a.content) && ValidCalls(j, Calls(a.content))
  }

  /** A chunk that carries a call carries a tool call. */
  predicate CarriesCall(c: Chunk) {
    c.kind.ToolCallChunk? && c.toolCall.Some? ==> c.toolCall.value.kind.ToolUse?
  }

  lemma MergedAlternates(content: seq<Block>, b: Block)
    requires Alternating(content)
    ensures Alternating(Merged(content, b))
  {
  }

  lemma {:induction false} MergedKeepsCalls(content: seq<Block>, b: Block)
    requires !b.kind.ToolUse?
    ensures Calls(Merged(content, b)) == Calls(content)
  {
    var m := Merged(content, b);
    if |m| == |content| {
      assert m[..|m| - 1] == content[..|content| - 1];
    } else {
      assert m[..|m| - 1] == content;
    }
  }

  lemma AcceptedCallsValid(j: Json, a: Accumulator, c: Chunk)
    requires ValidCalls(j, Calls(a.content)) && Accepts(j, a, c)
    ensures ValidCalls(j, Calls(Added(j, a, c).content))
  {
    MergedKeepsCalls(a.content, PLAIN.(kind := Reasoning, encrypted := c.encrypted));
  }

  /** Every accepted chunk leaves a well-shaped message: unique, valid call identifiers, and no
      two neighbouring blocks of one kind except tool calls. */
  lemma AddKeepsShape(j: Json, a: Accumulator, c: Chunk)
    requires Shaped(j, a) && Accepts(j, a, c) && CarriesCall(c)
    ensures Shaped(j, Added(j, a, c))
  {
    var b := Prepared(a, c);
    var reasoning := PLAIN.(kind := Reasoning, encrypted := c.encrypted);
    MergedAlternates(a.content, reasoning);
    MergedKeepsCalls(a.content, reasoning);
    assert Alternating(b.content) && Calls(b.content) == Calls(a.content);
    match c.kind
    case TextChunk => MergedAlternates(b.content, PLAIN.(text := c.text));
    case ThinkingChunk =>
      MergedAlternates(b.content, PLAIN.(kind := Thinking, thinking := c.text, signature := c.signature));
    case _ =>
  }

  /** Where the guarantee ends: an accepted chunk whose call is not a tool call breaks the shape
      exactly when it repeats the kind of the block before it. */
  lemma OtherBlocksMayRepeat(j: Json, a: Accumulator, c: Chunk)
    requires Shaped(j, a) && Accepts(j, a, c) && c.kind.ToolCallChunk? && !c.toolCall.value.kind.ToolUse?
    ensures var content := Prepared(a, c).content;
            Alternating(Added(j, a, c).content)
            <==> content == [] || content[|content| - 1].kind != c.toolCall.value.kind
  {
    var content, after := Prepared(a, c).content, Added(j, a, c).content;
    MergedAlternates(a.content, PLAIN.(kind := Reasoning, encrypted := c.encrypted));
    if content != [] {
      assert after[|content|].kind == c.toolCall.value.kind && after[|content| - 1] == content[|content| - 1];
    }
  }

  /** The text of a message, all text blocks joined. */
  function TextOf(content: seq<Block>): string {
    if content == [] then ""
    else
      var last := content[|content| - 1];
      TextOf(content[..|content| - 1]) + if last.kind.Text? then last.text else ""
  }

  lemma {:induction false} MergedText(content: seq<Block>, b: Block)
    requires b.kind.Text? || b.text == ""
    ensures TextOf(Merged(content, b)) == TextOf(content) + if b.kind.Text? then b.text else ""
  {
    var m := Merged(content, b);
    if |m| == |content| {
      assert m[..|m| - 1] == content[..|content| - 1];
    } else {
      assert m[..|m| - 1] == content;
    }
  }
}
