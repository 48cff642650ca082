/** What a stream of module StreamAssembly hands out when something goes wrong, and what it never
    hands out. */
module StreamFailures {
  import opened Common
  import opened Transcript
  import opened StreamAssembly
  import opened StreamMeaning
  import opened StreamParser
  import opened BlockHistory
  import opened StreamContent

  /** Every chunk but the terminal one carries something, and a call's input is JSON. */
  ghost predicate Substantial(r: Reader, c: Chunk) {
    match c.kind
    case TextChunk => c.text != ""
    case ThinkingChunk => c.text != "" || c.signature != ""
    case ToolCallChunk => c.toolCall.Some? && c.toolCall.value.input != "" && r.json.valid(c.toolCall.value.input)
    case _ => true
  }

  ghost predicate AllSubstantial(r: Reader, chunks: seq<Chunk>) {
    forall k :: 0 <= k < |chunks| ==> Substantial(r, chunks[k])
  }

  lemma PiecesSubstantial(r: Reader, s: BlockState, d: Delta)
    ensures AllSubstantial(r, Released(r, s)) && AllSubstantial(r, Streamed(d))
  {
  }

  lemma SubstantialConcat(r: Reader, a: seq<Chunk>, b: seq<Chunk>)
    requires AllSubstantial(r, a) && AllSubstantial(r, b)
    ensures AllSubstantial(r, a + b)
  {
  }

  lemma {:induction false} EndingSubstantial(r: Reader, blocks: map<int, BlockState>)
    ensures AllSubstantial(r, Ending(r, blocks))
    decreases |blocks.Keys|
  {
    if blocks.Keys != {} {
      var i := Lowest(blocks.Keys);
      assert (blocks - {i}).Keys == blocks.Keys - {i};
      EndingSubstantial(r, blocks - {i});
      PiecesSubstantial(r, blocks[i], Delta(TextDelta, "", "", "", ""));
      SubstantialConcat(r, Released(r, blocks[i]), Ending(r, blocks - {i}));
    }
  }

  /** No stream gives an empty piece of text or thinking, nor a call whose input is not JSON: what would
      become an empty block, or one no provider takes back. */
  lemma {:induction false} NothingEmpty(r: Reader, blocks: map<int, BlockState>, acts: seq<Action>)
    ensures AllSubstantial(r, Play(r, blocks, acts))
    decreases |acts|
  {
    if acts == [] || acts[0].Finish? {
      EndingSubstantial(r, blocks);
    } else {
      match acts[0]
      case Skip => NothingEmpty(r, blocks, acts[1..]);
      case Open(i, b) => NothingEmpty(r, blocks[i := Opened(r, b)], acts[1..]);
      case Feed(i, d) =>
        var next := blocks[i := Fed(Current(blocks, i, d), d)];
        NothingEmpty(r, next, acts[1..]);
        PiecesSubstantial(r, Current(blocks, i, d), d);
        SubstantialConcat(r, Streamed(d), Play(r, next, acts[1..]));
      case Close(i) =>
        NothingEmpty(r, blocks, acts[1..]);
        NothingEmpty(r, blocks - {i}, acts[1..]);
        if i in blocks {
          PiecesSubstantial(r, blocks[i], Delta(TextDelta, "", "", "", ""));
          SubstantialConcat(r, Released(r, blocks[i]), Play(r, blocks - {i}, acts[1..]));
        }
      case Fail(text) =>
    }
  }

  /** The only chunk behind what was handed out before a failure. */
  function FailureChunk(text: string): Chunk { Chunk(ErrorChunk, text, None, "", "", "", true) }

  lemma FailPlays(r: Reader, blocks: map<int, BlockState>, text: string, rest: seq<Action>)
    ensures Play(r, blocks, [Fail(text)] + rest) == [FailureChunk(text)]
  {
    assert ([Fail(text)] + rest)[0] == Fail(text);
  }

  lemma FatalClosePlays(r: Reader, blocks: map<int, BlockState>, i: int, rest: seq<Action>)
    requires i in blocks && blocks[i].kind.ToolUseBlock? && !r.json.valid(Arguments(r, blocks[i].json))
    ensures Play(r, blocks, [Close(i)] + rest) == [FailureChunk("")]
  {
    assert ([Close(i)] + rest)[0] == Close(i);
  }

  /** An error the provider reports, or an event that cannot be understood, ends the stream there, with
      what was said about it; blocks still open give nothing, and what comes behind is not looked at. */
  lemma FailureEndsStream(r: Reader, acts: seq<Action>, text: string, rest: seq<Action>)
    requires Playing(acts) && ValidInputs(r, ExpectedCalls(r, acts))
    ensures Play(r, map[], acts + ([Fail(text)] + rest)) == Outs(r, acts) + [FailureChunk(text)]
    ensures ChunkCalls(Outs(r, acts)) == ExpectedCalls(r, acts) && ChunkText(Outs(r, acts)) == ExpectedText(acts)
  {
    OutsAreExpected(r, acts);
    PlayPrefix(r, acts, [Fail(text)] + rest);
    FailPlays(r, BlocksAfter(r, acts), text, rest);
  }

  /** A call is malformed when what its opening and its fragments make up is no JSON. */
  ghost predicate MalformedCall(r: Reader, acts: seq<Action>, i: int) {
    match BegunAt(acts, i)
    case None => false
    case Some(q) =>
      var o := Origin(r, acts[q]);
      o.kind.ToolUseBlock? && !r.json.valid(Arguments(r, o.json + Fragments(acts[q..], i)))
  }

  /** Closing a malformed call ends the stream in an error in its place. */
  lemma MalformedCallEndsStream(r: Reader, acts: seq<Action>, i: int, rest: seq<Action>)
    requires Playing(acts) && ValidInputs(r, ExpectedCalls(r, acts)) && MalformedCall(r, acts, i)
    ensures Play(r, map[], acts + ([Close(i)] + rest)) == Outs(r, acts) + [FailureChunk("")]
  {
    OutsAreExpected(r, acts);
    PlayPrefix(r, acts, [Close(i)] + rest);
    BlockDescribed(r, acts, i);
    FatalClosePlays(r, BlocksAfter(r, acts), i, rest);
  }
}
