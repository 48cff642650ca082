/** The thinking of an assembled message and the signatures that vouch for it, read straight off the
    events. */
module StreamThinking {
  import opened Common
  import opened Transcript
  import opened StreamAssembly
  import opened StreamMeaning
  import opened StreamParser
  import opened BlockHistory
  import opened StreamContent
  import opened Accumulation

  // ---------------------------------------------------------------------------
  // Read off the events
  // ---------------------------------------------------------------------------

  /** The thinking that closing index `i` still owes: that of the opening, unless some delta for the
      block has already been handed out. */
  function OwedThinking(acts: seq<Action>, i: int): string {
    match BegunAt(acts, i)
    case None => ""
    case Some(q) =>
      if acts[q].Open? && acts[q].block.kind.ThinkingBlock? && !Streams(acts[q..], i) then acts[q].block.thinking
      else ""
  }

  /** The signature of the thinking block at index `i`: that of its opening, followed by all signature
      deltas since. */
  function OwedSignature(r: Reader, acts: seq<Action>, i: int): string {
    match BegunAt(acts, i)
    case None => ""
    case Some(q) =>
      var o := Origin(r, acts[q]);
      if o.kind.ThinkingBlock? then o.signature + Signatures(acts[q..], i) else ""
  }

  function ThinkingDeltaOf(a: Action): string {
    if a.Feed? && a.delta.kind.ThinkingDelta? then a.delta.thinking else ""
  }

  /** Every thinking delta, and at each close the thinking it owes. */
  function ExpectedThinking(acts: seq<Action>): string {
    if acts == [] then ""
    else
      var init, last := acts[..|acts| - 1], acts[|acts| - 1];
      ExpectedThinking(init) + if last.Close? then OwedThinking(init, last.index) else ThinkingDeltaOf(last)
  }

  function NotEmpty(s: string): seq<string> { if s == "" then [] else [s] }

  /** The signature of each closed thinking block that has one, in the order they were closed. */
  function ExpectedSignatures(r: Reader, acts: seq<Action>): seq<string> {
    if acts == [] then []
    else
      var init, last := acts[..|acts| - 1], acts[|acts| - 1];
      ExpectedSignatures(r, init) + if last.Close? then NotEmpty(OwedSignature(r, init, last.index)) else []
  }

  // ---------------------------------------------------------------------------
  // Chunks
  // ---------------------------------------------------------------------------

  function ThinkingIn(c: Chunk): string { if c.kind.ThinkingChunk? then c.text else "" }

  function SignatureIn(c: Chunk): seq<string> { NotEmpty(c.signature) }

  function ChunkThinking(chunks: seq<Chunk>): string {
    if chunks == [] then "" else ChunkThinking(chunks[..|chunks| - 1]) + ThinkingIn(chunks[|chunks| - 1])
  }

  function ChunkSignatures(chunks: seq<Chunk>): seq<string> {
    if chunks == [] then [] else ChunkSignatures(chunks[..|chunks| - 1]) + SignatureIn(chunks[|chunks| - 1])
  }

  lemma {:induction false} ThinkingConcat(a: seq<Chunk>, b: seq<Chunk>)
    ensures ChunkThinking(a + b) == ChunkThinking(a) + ChunkThinking(b)
  {
    if b == [] {
      assert a + b == a;
    } else {
      var init, last := b[..|b| - 1], b[|b| - 1];
      assert (a + b)[..|a + b| - 1] == a + init && (a + b)[|a + b| - 1] == last;
      ThinkingConcat(a, init);
      Associates(ChunkThinking(a), ChunkThinking(init), ThinkingIn(last));
    }
  }

  lemma {:induction false} SignaturesConcat(a: seq<Chunk>, b: seq<Chunk>)
    ensures ChunkSignatures(a + b) == ChunkSignatures(a) + ChunkSignatures(b)
  {
    if b == [] {
      assert a + b == a;
    } else {
      var init, last := b[..|b| - 1], b[|b| - 1];
      assert (a + b)[..|a + b| - 1] == a + init && (a + b)[|a + b| - 1] == last;
      SignaturesConcat(a, init);
      Associates(ChunkSignatures(a), ChunkSignatures(init), SignatureIn(last));
    }
  }

  lemma AtMostOne(out: seq<Chunk>)
    requires |out| <= 1
    ensures ChunkThinking(out) == if out == [] then "" else ThinkingIn(out[0])
    ensures ChunkSignatures(out) == if out == [] then [] else SignatureIn(out[0])
  {
    if out != [] {
      assert out[..0] == [] && "" + ThinkingIn(out[0]) == ThinkingIn(out[0]);
      assert [] + SignatureIn(out[0]) == SignatureIn(out[0]);
    }
  }

  lemma ReleasedThinking(r: Reader, s: BlockState)
    ensures ChunkThinking(Released(r, s)) == if s.kind.ThinkingBlock? && !s.streamed then s.thinking else ""
    ensures ChunkSignatures(Released(r, s)) == if s.kind.ThinkingBlock? then NotEmpty(s.signature) else []
  {
    AtMostOne(Released(r, s));
  }

  lemma OriginThinking(r: Reader, a: Action)
    requires a.Open? || a.Feed?
    ensures Origin(r, a).kind ==
            if a.Open? then a.block.kind else if a.delta.kind.OtherDelta? then a.delta.kind.named else OtherBlock
    ensures a.Open? && a.block.kind.ThinkingBlock? ==>
              Origin(r, a).thinking == a.block.thinking && Origin(r, a).signature == a.block.signature
    ensures a.Feed? ==> Origin(r, a).thinking == "" && Origin(r, a).signature == ""
  {
  }

  /** What closing a block hands out, against what the events promise of it. */
  lemma CloseThinks(r: Reader, acts: seq<Action>, i: int)
    ensures var out := Out(r, BlocksAfter(r, acts), Close(i));
            ChunkThinking(out) == OwedThinking(acts, i) && ChunkSignatures(out) == NotEmpty(OwedSignature(r, acts, i))
  {
    BlockDescribed(r, acts, i);
    if i in BlocksAfter(r, acts) {
      OwedByBlock(r, acts, i, BlocksAfter(r, acts)[i]);
      ReleasedThinking(r, BlocksAfter(r, acts)[i]);
    }
  }

  lemma OwedByBlock(r: Reader, acts: seq<Action>, i: int, s: BlockState)
    requires Describes(r, acts, Some(s), i)
    ensures OwedThinking(acts, i) == if s.kind.ThinkingBlock? && !s.streamed then s.thinking else ""
    ensures OwedSignature(r, acts, i) == if s.kind.ThinkingBlock? then s.signature else ""
  {
    OriginThinking(r, acts[BegunAt(acts, i).value]);
  }

  lemma DeltaThinks(r: Reader, blocks: map<int, BlockState>, a: Action)
    requires !a.Close?
    ensures ChunkThinking(Out(r, blocks, a)) == ThinkingDeltaOf(a) && ChunkSignatures(Out(r, blocks, a)) == []
  {
    AtMostOne(Out(r, blocks, a));
  }

  lemma OutThinks(r: Reader, acts: seq<Action>, a: Action)
    ensures var out := Out(r, BlocksAfter(r, acts), a);
            && ChunkThinking(out) == (if a.Close? then OwedThinking(acts, a.index) else ThinkingDeltaOf(a))
            && ChunkSignatures(out) == (if a.Close? then NotEmpty(OwedSignature(r, acts, a.index)) else [])
  {
    if a.Close? {
      CloseThinks(r, acts, a.index);
    } else {
      DeltaThinks(r, BlocksAfter(r, acts), a);
    }
  }

  lemma {:induction false} OutsThink(r: Reader, acts: seq<Action>)
    ensures ChunkThinking(Outs(r, acts)) == ExpectedThinking(acts)
    ensures ChunkSignatures(Outs(r, acts)) == ExpectedSignatures(r, acts)
    decreases |acts|
  {
    if acts != [] {
      var init, last := acts[..|acts| - 1], acts[|acts| - 1];
      OutsThink(r, init);
      OutThinks(r, init, last);
      ThinkingConcat(Outs(r, init), Out(r, BlocksAfter(r, init), last));
      SignaturesConcat(Outs(r, init), Out(r, BlocksAfter(r, init), last));
    }
  }

  // ---------------------------------------------------------------------------
  // The accumulator's view
  // ---------------------------------------------------------------------------

  lemma ChunkThought(j: Json, acc: Accumulator, c: Chunk)
    requires Ordinary(c) && Accepts(j, acc, c)
    ensures ThinkingOf(Added(j, acc, c).content) == ThinkingOf(acc.content) + ThinkingIn(c)
  {
    if c.kind.ToolCallChunk? {
      var content := acc.content + [Call(c)];
      assert content[..|content| - 1] == acc.content;
      assert ThinkingOf(acc.content) + "" == ThinkingOf(acc.content);
    } else {
      MergedThinking(acc.content, PieceBlock(c));
    }
  }

  lemma {:induction false} AssembledThinking(j: Json, acc: Accumulator, chunks: seq<Chunk>)
    requires AllOrdinary(chunks) && Assembled(j, acc, chunks + [DONE]).1
    ensures ThinkingOf(Assembled(j, acc, chunks + [DONE]).0.content) == ThinkingOf(acc.content) + ChunkThinking(chunks)
    decreases |chunks|
  {
    if chunks == [] {
      assert chunks + [DONE] == [DONE] && [DONE][1..] == [];
      assert ThinkingOf(acc.content) + "" == ThinkingOf(acc.content);
    } else {
      var c, rest := chunks[0], chunks[1..];
      assert chunks == [c] + rest && (chunks + [DONE])[1..] == rest + [DONE];
      ChunkThought(j, acc, c);
      AtMostOne([c]);
      ThinkingConcat([c], rest);
      SignaturesConcat([c], rest);
      AssembledThinking(j, Added(j, acc, c), rest);
      Associates(ThinkingOf(acc.content), ThinkingIn(c), ChunkThinking(rest));
    }
  }

  // ---------------------------------------------------------------------------
  // Main results
  // ---------------------------------------------------------------------------

  /** The thinking of the message is that of the thinking deltas and of the openings that no delta
      followed, and every closed thinking block with a signature hands out exactly that signature,
      once, as it closes. */
  lemma StreamThinks(r: Reader, acts: seq<Action>)
    requires Playing(acts) && BlocksAfter(r, acts) == map[]
    requires ValidCalls(r.json, ExpectedCalls(r, acts)) && ValidInputs(r, ExpectedCalls(r, acts))
    ensures var chunks := Play(r, map[], acts);
            && ThinkingOf(Assembled(r.json, NOTHING, chunks).0.content) == ExpectedThinking(acts)
            && ChunkSignatures(chunks) == ExpectedSignatures(r, acts)
  {
    StreamAssembles(r, acts);
    OutsAreExpected(r, acts);
    assert acts + [] == acts;
    PlayPrefix(r, acts, []);
    OutsThink(r, acts);
    AssembledThinking(r.json, NOTHING, Outs(r, acts));
    AtMostOne([DONE]);
    ThinkingConcat(Outs(r, acts), [DONE]);
    SignaturesConcat(Outs(r, acts), [DONE]);
    assert "" + ExpectedThinking(acts) == ExpectedThinking(acts);
    assert ExpectedSignatures(r, acts) + [] == ExpectedSignatures(r, acts);
  }

  /** The same for a stream that stops with blocks still open. */
  lemma OpenStreamThinks(r: Reader, acts: seq<Action>, indexes: seq<int>, tail: seq<Action>)
    requires Playing(acts) && (tail == [] || tail[0].Finish?)
    requires Holds(indexes, BlocksAfter(r, acts).Keys)
    requires var calls := ExpectedCalls(r, acts + CloseAll(indexes)); ValidCalls(r.json, calls) && ValidInputs(r, calls)
    ensures var closed := acts + CloseAll(indexes);
            var chunks := Play(r, map[], acts + tail);
            && ThinkingOf(Assembled(r.json, NOTHING, chunks).0.content) == ExpectedThinking(closed)
            && ChunkSignatures(chunks) == ExpectedSignatures(r, closed)
  {
    var closed := acts + CloseAll(indexes);
    assert forall k :: 0 <= k < |acts| ==> closed[k] == acts[k];
    ClosedEmpty(r, acts, indexes);
    StreamThinks(r, closed);
    OpenPlaysClosed(r, acts, indexes, tail);
  }
}
