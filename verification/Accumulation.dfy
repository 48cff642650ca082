/** What a message holds once a whole list of chunks was accepted, read off the chunks. */
module Accumulation {
  import opened Common
  import opened Transcript

  function ThinkingOfBlock(b: Block): string { if b.kind.Thinking? then b.thinking else "" }

  /** The thinking of a message, all thinking blocks joined. */
  function ThinkingOf(content: seq<Block>): string {
    if content == [] then "" else ThinkingOf(content[..|content| - 1]) + ThinkingOfBlock(content[|content| - 1])
  }

  lemma MergedThinking(content: seq<Block>, b: Block)
    ensures ThinkingOf(Merged(content, b)) == ThinkingOf(content) + ThinkingOfBlock(b)
  {
    var m := Merged(content, b);
    if |m| == |content| {
      var last := content[|content| - 1];
      assert m[..|m| - 1] == content[..|content| - 1];
      Associates(ThinkingOf(m[..|m| - 1]), ThinkingOfBlock(last), ThinkingOfBlock(b));
      assert b.thinking == "" ==> last.thinking + b.thinking == last.thinking;
    } else {
      assert m[..|m| - 1] == content;
    }
  }

  // ---------------------------------------------------------------------------
  // What the chunks carry
  // ---------------------------------------------------------------------------

  /** The call of a chunk, with an empty object where it has no input. */
  function CallIn(c: Chunk): Option<Block> {
    if c.kind.ToolCallChunk? && c.toolCall.Some? then
      Some(if c.toolCall.value.input == "" then c.toolCall.value.(input := "{}") else c.toolCall.value)
    else None
  }

  /** The text of a text chunk, or of a text block in place of a call. */
  function TextIn(c: Chunk): string {
    match c.kind
    case TextChunk => c.text
    case ToolCallChunk => if CallIn(c).Some? && CallIn(c).value.kind.Text? then CallIn(c).value.text else ""
    case _ => ""
  }

  function ThoughtIn(c: Chunk): string {
    match c.kind
    case ThinkingChunk => c.text
    case ToolCallChunk => if CallIn(c).Some? && CallIn(c).value.kind.Thinking? then CallIn(c).value.thinking else ""
    case _ => ""
  }

  function AllText(chunks: seq<Chunk>): string {
    if chunks == [] then "" else AllText(chunks[..|chunks| - 1]) + TextIn(chunks[|chunks| - 1])
  }

  function AllThoughts(chunks: seq<Chunk>): string {
    if chunks == [] then "" else AllThoughts(chunks[..|chunks| - 1]) + ThoughtIn(chunks[|chunks| - 1])
  }

  function CallsIn(c: Chunk): seq<Block> {
    if CallIn(c).Some? && CallIn(c).value.kind.ToolUse? then [CallIn(c).value] else []
  }

  function AllCalls(chunks: seq<Chunk>): seq<Block> {
    if chunks == [] then [] else AllCalls(chunks[..|chunks| - 1]) + CallsIn(chunks[|chunks| - 1])
  }

  /** The last response identifier that is not empty. */
  function LastResponse(chunks: seq<Chunk>): string {
    if chunks == [] then ""
    else if chunks[|chunks| - 1].responseId != "" then chunks[|chunks| - 1].responseId
    else LastResponse(chunks[..|chunks| - 1])
  }

  // ---------------------------------------------------------------------------
  // One chunk
  // ---------------------------------------------------------------------------

  lemma PreparedMeans(a: Accumulator, c: Chunk)
    ensures var b := Prepared(a, c);
            && TextOf(b.content) == TextOf(a.content) && ThinkingOf(b.content) == ThinkingOf(a.content)
            && Calls(b.content) == Calls(a.content)
            && b.responseId == if c.responseId == "" then a.responseId else c.responseId
  {
    var reasoning := PLAIN.(kind := Reasoning, encrypted := c.encrypted);
    MergedText(a.content, reasoning);
    MergedThinking(a.content, reasoning);
    MergedKeepsCalls(a.content, reasoning);
    NothingAdded(TextOf(a.content), ThinkingOf(a.content));
  }

  lemma NothingAdded(a: string, b: string)
    ensures a + "" == a && b + "" == b
  {
  }

  lemma AppendedMeans(content: seq<Block>, b: Block)
    ensures var all := content + [b];
            && TextOf(all) == TextOf(content) + (if b.kind.Text? then b.text else "")
            && ThinkingOf(all) == ThinkingOf(content) + ThinkingOfBlock(b)
            && Calls(all) == Calls(content) + (if b.kind.ToolUse? then [b] else [])
  {
    assert (content + [b])[..|content|] == content;
  }

  lemma FoldedMeans(content: seq<Block>, b: Block)
    requires b.kind.Text? || (b.kind.Thinking? && b.text == "")
    ensures TextOf(Merged(content, b)) == TextOf(content) + if b.kind.Text? then b.text else ""
    ensures ThinkingOf(Merged(content, b)) == ThinkingOf(content) + ThinkingOfBlock(b)
    ensures Calls(Merged(content, b)) == Calls(content)
  {
    MergedText(content, b);
    MergedThinking(content, b);
    MergedKeepsCalls(content, b);
  }

  /** `after` is `content` with this much more in it. */
  ghost predicate More(content: seq<Block>, after: seq<Block>, text: string, thought: string, calls: seq<Block>) {
    && TextOf(after) == TextOf(content) + text && ThinkingOf(after) == ThinkingOf(content) + thought
    && Calls(after) == Calls(content) + calls
  }

  lemma NoMore(content: seq<Block>)
    ensures More(content, content, "", "", [])
  {
    NothingAdded(TextOf(content), ThinkingOf(content));
    assert Calls(content) + [] == Calls(content);
  }

  lemma TextMore(content: seq<Block>, text: string)
    ensures More(content, Merged(content, PLAIN.(text := text)), text, "", [])
  {
    NoMore(content);
    FoldedMeans(content, PLAIN.(text := text));
  }

  lemma ThoughtMore(content: seq<Block>, thought: string, signature: string)
    ensures var b := PLAIN.(kind := Thinking, thinking := thought, signature := signature);
            More(content, Merged(content, b), "", thought, [])
  {
    NoMore(content);
    FoldedMeans(content, PLAIN.(kind := Thinking, thinking := thought, signature := signature));
  }

  lemma CallMore(content: seq<Block>, c: Chunk)
    requires c.kind.ToolCallChunk? && c.toolCall.Some?
    ensures More(content, content + [Call(c)], TextIn(c), ThoughtIn(c), CallsIn(c))
  {
    AppendedMeans(content, Call(c));
  }

  /** What the accumulator does with the part of a chunk that is its own. */
  function Grown(content: seq<Block>, c: Chunk): seq<Block> {
    match c.kind
    case TextChunk => Merged(content, PLAIN.(text := c.text))
    case ThinkingChunk => Merged(content, PLAIN.(kind := Thinking, thinking := c.text, signature := c.signature))
    case ToolCallChunk => if c.toolCall.Some? then content + [Call(c)] else content
    case _ => content
  }

  lemma AddedIs(j: Json, a: Accumulator, c: Chunk)
    requires Accepts(j, a, c)
    ensures Added(j, a, c) == Prepared(a, c).(content := Grown(Prepared(a, c).content, c))
    ensures c.kind.ToolCallChunk? ==> c.toolCall.Some?
  {
  }

  lemma GrownMore(content: seq<Block>, c: Chunk)
    requires c.kind.ToolCallChunk? ==> c.toolCall.Some?
    ensures More(content, Grown(content, c), TextIn(c), ThoughtIn(c), CallsIn(c))
  {
    match c.kind
    case TextChunk => TextMore(content, c.text);
    case ThinkingChunk => ThoughtMore(content, c.text, c.signature);
    case ToolCallChunk => CallMore(content, c);
    case _ => NoMore(content);
  }

  /** An accepted chunk adds what it carries, and nothing else. */
  lemma ChunkMeans(j: Json, a: Accumulator, c: Chunk)
    requires Accepts(j, a, c)
    ensures More(a.content, Added(j, a, c).content, TextIn(c), ThoughtIn(c), CallsIn(c))
    ensures Added(j, a, c).responseId == if c.responseId == "" then a.responseId else c.responseId
  {
    AddedIs(j, a, c);
    PreparedMeans(a, c);
    GrownMore(Prepared(a, c).content, c);
  }

  // ---------------------------------------------------------------------------
  // All chunks
  // ---------------------------------------------------------------------------

  function Accumulated(j: Json, chunks: seq<Chunk>): Accumulator {
    if chunks == [] then NOTHING else Added(j, Accumulated(j, chunks[..|chunks| - 1]), chunks[|chunks| - 1])
  }

  ghost predicate AllAccepted(j: Json, chunks: seq<Chunk>) {
    chunks == [] ||
    (AllAccepted(j, chunks[..|chunks| - 1])
     && Accepts(j, Accumulated(j, chunks[..|chunks| - 1]), chunks[|chunks| - 1]))
  }

  /** The message of an accepted stream: all its text, all its thinking and all its calls, each in the
      order they came, under the last response identifier, with valid calls. */
  lemma {:induction false} MessageIsChunks(j: Json, chunks: seq<Chunk>)
    requires AllAccepted(j, chunks)
    ensures var a := Accumulated(j, chunks);
            && TextOf(a.content) == AllText(chunks) && ThinkingOf(a.content) == AllThoughts(chunks)
            && Calls(a.content) == AllCalls(chunks) && a.responseId == LastResponse(chunks)
            && ValidCalls(j, AllCalls(chunks))
    decreases |chunks|
  {
    if chunks != [] {
      var init, last := chunks[..|chunks| - 1], chunks[|chunks| - 1];
      MessageIsChunks(j, init);
      ChunkMeans(j, Accumulated(j, init), last);
      AcceptedCallsValid(j, Accumulated(j, init), last);
    }
  }
}
