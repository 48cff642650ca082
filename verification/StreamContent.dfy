/** The calls and the text of an assembled message, read straight off the events. */
module StreamContent {
  import opened Common
  import opened Transcript
  import opened Text
  import opened StreamAssembly
  import opened StreamMeaning
  import opened StreamParser
  import opened BlockHistory

  // ---------------------------------------------------------------------------
  // Read off the events
  // ---------------------------------------------------------------------------

  /** The call that closing index `i` completes: its input is what the opening brought, followed by
      the fragments, trimmed. */
  function CallAt(r: Reader, acts: seq<Action>, i: int): seq<Block> {
    match BegunAt(acts, i)
    case None => []
    case Some(q) =>
      var o := Origin(r, acts[q]);
      if !o.kind.ToolUseBlock? then []
      else
        var input := Arguments(r, o.json + Fragments(acts[q..], i));
        [PLAIN.(kind := ToolUse, callId := o.id, toolName := o.name, input := input)]
  }

  /** The text that closing index `i` still owes: that of the opening, unless some delta for the
      block has already been handed out. */
  function OwedText(acts: seq<Action>, i: int): string {
    match BegunAt(acts, i)
    case None => ""
    case Some(q) =>
      if acts[q].Open? && acts[q].block.kind.TextBlock? && !Streams(acts[q..], i) then acts[q].block.text else ""
  }

  /** One call per closed tool block, in the order they were closed. */
  function ExpectedCalls(r: Reader, acts: seq<Action>): seq<Block> {
    if acts == [] then []
    else
      var init, last := acts[..|acts| - 1], acts[|acts| - 1];
      ExpectedCalls(r, init) + if last.Close? then CallAt(r, init, last.index) else []
  }

  function TextDeltaOf(a: Action): string {
    if a.Feed? && a.delta.kind.TextDelta? then a.delta.text else ""
  }

  /** Every text delta, in order, whatever its block. */
  function TextDeltas(acts: seq<Action>): string {
    if acts == [] then "" else TextDeltas(acts[..|acts| - 1]) + TextDeltaOf(acts[|acts| - 1])
  }

  /** Every text delta, and at each close the text it owes. */
  function ExpectedText(acts: seq<Action>): string {
    if acts == [] then ""
    else
      var init, last := acts[..|acts| - 1], acts[|acts| - 1];
      ExpectedText(init) + if last.Close? then OwedText(init, last.index) else TextDeltaOf(last)
  }

  ghost predicate ValidInputs(r: Reader, calls: seq<Block>) {
    forall k :: 0 <= k < |calls| ==> r.json.valid(calls[k].input)
  }

  // ---------------------------------------------------------------------------
  // Chunks
  // ---------------------------------------------------------------------------

  function ChunkCalls(chunks: seq<Chunk>): seq<Block> {
    if chunks == [] then []
    else
      var last := chunks[|chunks| - 1];
      ChunkCalls(chunks[..|chunks| - 1]) +
      if last.kind.ToolCallChunk? && last.toolCall.Some? then [last.toolCall.value] else []
  }

  function ChunkText(chunks: seq<Chunk>): string {
    if chunks == [] then ""
    else
      var last := chunks[|chunks| - 1];
      ChunkText(chunks[..|chunks| - 1]) + if last.kind.TextChunk? then last.text else ""
  }

  lemma {:induction false} ChunksConcat(a: seq<Chunk>, b: seq<Chunk>)
    ensures ChunkCalls(a + b) == ChunkCalls(a) + ChunkCalls(b) && ChunkText(a + b) == ChunkText(a) + ChunkText(b)
  {
    if b == [] {
      assert a + b == a;
    } else {
      assert (a + b)[..|a + b| - 1] == a + b[..|b| - 1];
      ChunksConcat(a, b[..|b| - 1]);
    }
  }

  /** The chunks a stream hands out before its terminal one. */
  predicate Ordinary(c: Chunk) {
    !c.failed && c.encrypted == "" && c.responseId == "" &&
    match c.kind
    case TextChunk => true
    case ThinkingChunk => true
    case ToolCallChunk =>
      && c.toolCall.Some? && c.toolCall.value.kind.ToolUse?
      && c.toolCall.value.input != "" && c.toolCall.value.text == ""
    case _ => false
  }

  ghost predicate AllOrdinary(chunks: seq<Chunk>) { forall k :: 0 <= k < |chunks| ==> Ordinary(chunks[k]) }

  /** Output that does not end the stream, with these calls and this text. */
  ghost predicate GivesOut(out: seq<Chunk>, calls: seq<Block>, text: string) {
    !Fatal(out) && AllOrdinary(out) && ChunkCalls(out) == calls && ChunkText(out) == text
  }

  lemma OneChunk(c: Chunk)
    ensures ChunkCalls([c]) == (if c.kind.ToolCallChunk? && c.toolCall.Some? then [c.toolCall.value] else [])
    ensures ChunkText([c]) == if c.kind.TextChunk? then c.text else ""
  {
    assert [c][..0] == [];
    assert c.kind.TextChunk? ==> "" + c.text == c.text;
  }

  /** A block that is no tool call hands out what is left of its thinking, or its text if none of
      it went out before. */
  lemma ReleasedOther(r: Reader, s: BlockState)
    requires !s.kind.ToolUseBlock?
    ensures GivesOut(Released(r, s), [], if s.kind.ThinkingBlock? || s.streamed then "" else s.text)
  {
    var out := Released(r, s);
    if out != [] {
      assert out == [out[0]];
      OneChunk(out[0]);
    }
  }

  lemma ReleasedCall(r: Reader, s: BlockState)
    requires s.kind.ToolUseBlock? && r.json.valid(Arguments(r, s.json))
    ensures var call := PLAIN.(kind := ToolUse, callId := s.id, toolName := s.name, input := Arguments(r, s.json));
            GivesOut(Released(r, s), [call], "")
  {
    OneChunk(CallPiece(s.id, s.name, Arguments(r, s.json)));
  }

  /** What the opening of a block says of its text. */
  lemma OriginText(r: Reader, a: Action)
    requires a.Open? || a.Feed?
    ensures Origin(r, a).text == if a.Open? && a.block.kind.TextBlock? then a.block.text else ""
  {
  }

  /** What closing a block hands out, against what the events promise of it. */
  lemma CloseIsExpected(r: Reader, acts: seq<Action>, i: int, s: BlockState)
    requires Describes(r, acts, Some(s), i) && ValidInputs(r, CallAt(r, acts, i))
    ensures GivesOut(Released(r, s), CallAt(r, acts, i), OwedText(acts, i))
  {
    var q := BegunAt(acts, i).value;
    OriginText(r, acts[q]);
    if s.kind.ToolUseBlock? {
      assert CallAt(r, acts, i)[0].input == Arguments(r, s.json);
      ReleasedCall(r, s);
    } else {
      ReleasedOther(r, s);
    }
  }

  lemma FeedIsExpected(d: Delta)
    ensures GivesOut(Streamed(d), [], if d.kind.TextDelta? then d.text else "")
  {
    if Streamed(d) != [] {
      OneChunk(Streamed(d)[0]);
    }
  }

  lemma OutIsExpected(r: Reader, acts: seq<Action>, a: Action)
    requires a.Close? ==> ValidInputs(r, CallAt(r, acts, a.index))
    ensures GivesOut(Out(r, BlocksAfter(r, acts), a), if a.Close? then CallAt(r, acts, a.index) else [],
                     if a.Close? then OwedText(acts, a.index) else TextDeltaOf(a))
  {
    match a
    case Close(i) =>
      BlockDescribed(r, acts, i);
      if i in BlocksAfter(r, acts) {
        CloseIsExpected(r, acts, i, BlocksAfter(r, acts)[i]);
      }
    case Feed(i, d) => FeedIsExpected(d);
    case _ =>
  }

  lemma ValidInputsSplit(r: Reader, a: seq<Block>, b: seq<Block>)
    requires ValidInputs(r, a + b)
    ensures ValidInputs(r, a) && ValidInputs(r, b)
  {
    assert forall k :: 0 <= k < |a| ==> (a + b)[k] == a[k];
    assert forall k :: 0 <= k < |b| ==> (a + b)[|a| + k] == b[k];
  }

  /** What holds of the outputs of a prefix and of one more action holds of both together. */
  lemma OutsGrow(r: Reader, acts: seq<Action>, calls: seq<Block>, text: string)
    requires acts != []
    requires var init := acts[..|acts| - 1]; Sound(r, init) && AllOrdinary(Outs(r, init))
    requires GivesOut(Out(r, BlocksAfter(r, acts[..|acts| - 1]), acts[|acts| - 1]), calls, text)
    ensures Sound(r, acts) && AllOrdinary(Outs(r, acts))
    ensures ChunkCalls(Outs(r, acts)) == ChunkCalls(Outs(r, acts[..|acts| - 1])) + calls
    ensures ChunkText(Outs(r, acts)) == ChunkText(Outs(r, acts[..|acts| - 1])) + text
  {
    ChunksConcat(Outs(r, acts[..|acts| - 1]), Out(r, BlocksAfter(r, acts[..|acts| - 1]), acts[|acts| - 1]));
  }

  lemma {:induction false} OutsAreExpected(r: Reader, acts: seq<Action>)
    requires Playing(acts) && ValidInputs(r, ExpectedCalls(r, acts))
    ensures Sound(r, acts) && AllOrdinary(Outs(r, acts))
    ensures ChunkCalls(Outs(r, acts)) == ExpectedCalls(r, acts) && ChunkText(Outs(r, acts)) == ExpectedText(acts)
    decreases |acts|
  {
    if acts != [] {
      var init, last := acts[..|acts| - 1], acts[|acts| - 1];
      var calls := if last.Close? then CallAt(r, init, last.index) else [];
      ValidInputsSplit(r, ExpectedCalls(r, init), calls);
      OutsAreExpected(r, init);
      OutIsExpected(r, init, last);
      OutsGrow(r, acts, calls, if last.Close? then OwedText(init, last.index) else TextDeltaOf(last));
    }
  }

  // ---------------------------------------------------------------------------
  // The accumulator's view
  // ---------------------------------------------------------------------------

  lemma ValidCallsPrefix(j: Json, a: seq<Block>, b: seq<Block>)
    requires ValidCalls(j, a + b)
    ensures ValidCalls(j, a)
  {
    assert forall k :: 0 <= k < |a| ==> (a + b)[k] == a[k];
  }

  /** Adding one ordinary chunk to an accumulator that has room for its call. */
  lemma OrdinaryAccepted(j: Json, acc: Accumulator, c: Chunk)
    requires Ordinary(c) && ValidCalls(j, Calls(acc.content) + ChunkCalls([c]))
    ensures Accepts(j, acc, c)
    ensures Calls(Added(j, acc, c).content) == Calls(acc.content) + ChunkCalls([c])
    ensures TextOf(Added(j, acc, c).content) == TextOf(acc.content) + ChunkText([c])
  {
    OneChunk(c);
    if c.kind.ToolCallChunk? {
      var call := c.toolCall.value;
      var all := Calls(acc.content) + [call];
      assert all[|all| - 1] == call;
      assert Call(c) == call;
      var content := acc.content + [call];
      assert content[..|content| - 1] == acc.content;
    } else {
      assert Calls(acc.content) + [] == Calls(acc.content);
      MergedKeepsCalls(acc.content, PieceBlock(c));
      MergedText(acc.content, PieceBlock(c));
    }
  }

  lemma OrdinaryStep(j: Json, acc: Accumulator, c: Chunk, rest: seq<Chunk>) returns (next: Accumulator)
    requires Ordinary(c) && ValidCalls(j, Calls(acc.content) + ChunkCalls([c]))
    ensures Assembled(j, acc, [c] + rest) == Assembled(j, next, rest)
    ensures Calls(next.content) == Calls(acc.content) + ChunkCalls([c])
    ensures TextOf(next.content) == TextOf(acc.content) + ChunkText([c])
  {
    next := Added(j, acc, c);
    OrdinaryAccepted(j, acc, c);
    assert ([c] + rest)[1..] == rest;
  }

  lemma {:induction false} AssembledContent(j: Json, acc: Accumulator, chunks: seq<Chunk>, calls: seq<Block>,
                                            text: string)
    requires AllOrdinary(chunks) && ValidCalls(j, calls)
    requires calls == Calls(acc.content) + ChunkCalls(chunks) && text == TextOf(acc.content) + ChunkText(chunks)
    ensures var (end, ok) := Assembled(j, acc, chunks + [DONE]);
            ok && Calls(end.content) == calls && TextOf(end.content) == text
    decreases |chunks|
  {
    if chunks == [] {
      assert chunks + [DONE] == [DONE] && [DONE][1..] == [];
    } else {
      var c, rest := chunks[0], chunks[1..];
      assert chunks == [c] + rest && chunks + [DONE] == [c] + (rest + [DONE]);
      ChunksConcat([c], rest);
      Associates(Calls(acc.content), ChunkCalls([c]), ChunkCalls(rest));
      Associates(TextOf(acc.content), ChunkText([c]), ChunkText(rest));
      ValidCallsPrefix(j, Calls(acc.content) + ChunkCalls([c]), ChunkCalls(rest));
      var next := OrdinaryStep(j, acc, c, rest + [DONE]);
      AssembledContent(j, next, rest, calls, text);
    }
  }

  // ---------------------------------------------------------------------------
  // Main results
  // ---------------------------------------------------------------------------

  function CloseAll(indexes: seq<int>): seq<Action> {
    seq(|indexes|, k requires 0 <= k < |indexes| => Close(indexes[k]))
  }

  lemma ClosedNext(r: Reader, blocks: map<int, BlockState>, i: int, rest: seq<Action>)
    requires Least(blocks.Keys, i) && Ending(r, blocks - {i}) == Play(r, blocks - {i}, rest)
    ensures Ending(r, blocks) == Play(r, blocks, [Close(i)] + rest)
  {
    EndingStep(r, blocks, i);
    PlayOne(r, blocks, Close(i), rest);
  }

  /** A stream that ends with blocks still open ends as if each had been stopped, in index order. */
  lemma {:induction false} LeftOpenIsClosedInOrder(r: Reader, blocks: map<int, BlockState>, indexes: seq<int>)
    requires Holds(indexes, blocks.Keys)
    ensures Ending(r, blocks) == Play(r, blocks, CloseAll(indexes))
    decreases |indexes|
  {
    if indexes == [] {
      assert (forall x :: x !in blocks.Keys) ==> blocks.Keys == {};
      assert blocks == map[];
    } else {
      assert indexes[0..] == indexes;
      NextIndex(indexes, 0, blocks.Keys);
      assert (blocks - {indexes[0]}).Keys == blocks.Keys - {indexes[0]};
      LeftOpenIsClosedInOrder(r, blocks - {indexes[0]}, indexes[1..]);
      ClosedNext(r, blocks, indexes[0], CloseAll(indexes[1..]));
      assert CloseAll(indexes) == [Close(indexes[0])] + CloseAll(indexes[1..]);
    }
  }

  /** The message assembled from a stream carries exactly one call per closed tool block, in stop
      order, and exactly the text of the text deltas and of the openings that no delta followed. */
  lemma StreamAssembles(r: Reader, acts: seq<Action>)
    requires Playing(acts) && BlocksAfter(r, acts) == map[]
    requires ValidCalls(r.json, ExpectedCalls(r, acts)) && ValidInputs(r, ExpectedCalls(r, acts))
    ensures var (end, ok) := Assembled(r.json, NOTHING, Play(r, map[], acts));
            ok && Calls(end.content) == ExpectedCalls(r, acts) && TextOf(end.content) == ExpectedText(acts)
  {
    OutsAreExpected(r, acts);
    assert acts + [] == acts;
    PlayPrefix(r, acts, []);
    AssembledContent(r.json, NOTHING, Outs(r, acts), ExpectedCalls(r, acts), ExpectedText(acts));
  }

  /** The same for a stream that stops with blocks still open, by its end or by `message_stop`. */
  lemma OpenStreamAssembles(r: Reader, acts: seq<Action>, indexes: seq<int>, tail: seq<Action>)
    requires Playing(acts) && (tail == [] || tail[0].Finish?)
    requires Holds(indexes, BlocksAfter(r, acts).Keys)
    requires var calls := ExpectedCalls(r, acts + CloseAll(indexes)); ValidCalls(r.json, calls) && ValidInputs(r, calls)
    ensures var closed := acts + CloseAll(indexes);
            var (end, ok) := Assembled(r.json, NOTHING, Play(r, map[], acts + tail));
            ok && Calls(end.content) == ExpectedCalls(r, closed) && TextOf(end.content) == ExpectedText(closed)
  {
    var closed := acts + CloseAll(indexes);
    assert forall k :: 0 <= k < |acts| ==> closed[k] == acts[k];
    ClosedEmpty(r, acts, indexes);
    StreamAssembles(r, closed);
    OpenPlaysClosed(r, acts, indexes, tail);
  }

  lemma PrefixSound(r: Reader, acts: seq<Action>, more: seq<Action>)
    requires Playing(acts) && ValidInputs(r, ExpectedCalls(r, acts + more))
    ensures Sound(r, acts)
  {
    var all, some := ExpectedCalls(r, acts + more), ExpectedCalls(r, acts);
    ClosedExpected(r, acts, more);
    assert forall k :: 0 <= k < |some| ==> some[k] == all[k];
    OutsAreExpected(r, acts);
  }

  lemma OpenPlaysClosed(r: Reader, acts: seq<Action>, indexes: seq<int>, tail: seq<Action>)
    requires Playing(acts) && (tail == [] || tail[0].Finish?)
    requires Holds(indexes, BlocksAfter(r, acts).Keys) && ValidInputs(r, ExpectedCalls(r, acts + CloseAll(indexes)))
    ensures Play(r, map[], acts + tail) == Play(r, map[], acts + CloseAll(indexes))
  {
    PrefixSound(r, acts, CloseAll(indexes));
    PlayPrefix(r, acts, tail);
    PlayPrefix(r, acts, CloseAll(indexes));
    LeftOpenIsClosedInOrder(r, BlocksAfter(r, acts), indexes);
  }

  lemma {:induction false} ClosedBlock(r: Reader, acts: seq<Action>, indexes: seq<int>, i: int)
    ensures At(BlocksAfter(r, acts + CloseAll(indexes)), i)
            == if i in indexes then None else At(BlocksAfter(r, acts), i)
    decreases |indexes|
  {
    var all := acts + CloseAll(indexes);
    if indexes == [] {
      assert all == acts;
    } else {
      var init, last := indexes[..|indexes| - 1], indexes[|indexes| - 1];
      assert all[..|all| - 1] == acts + CloseAll(init) && all[|all| - 1] == Close(last);
      ClosedBlock(r, acts, init, i);
      NextIsAfter(r, BlocksAfter(r, acts + CloseAll(init)), Close(last), i);
      assert indexes == init + [last];
    }
  }

  lemma ClosedEmpty(r: Reader, acts: seq<Action>, indexes: seq<int>)
    requires Holds(indexes, BlocksAfter(r, acts).Keys)
    ensures BlocksAfter(r, acts + CloseAll(indexes)) == map[]
  {
    var blocks := BlocksAfter(r, acts + CloseAll(indexes));
    forall i ensures i !in blocks {
      ClosedBlock(r, acts, indexes, i);
    }
  }

  /** The calls of a prefix are a prefix of the calls. */
  lemma {:induction false} ClosedExpected(r: Reader, acts: seq<Action>, more: seq<Action>)
    ensures ExpectedCalls(r, acts) <= ExpectedCalls(r, acts + more)
    decreases |more|
  {
    if more == [] {
      assert acts + more == acts;
    } else {
      var all := acts + more;
      assert all[..|all| - 1] == acts + more[..|more| - 1];
      ClosedExpected(r, acts, more[..|more| - 1]);
    }
  }

  // ---------------------------------------------------------------------------
  // What an opening brings
  // ---------------------------------------------------------------------------

  /** The text deltas for index `i`. */
  function TextFor(acts: seq<Action>, i: int): string {
    if acts == [] then ""
    else
      var last := acts[|acts| - 1];
      TextFor(acts[..|acts| - 1], i) + if last.Feed? && last.index == i then TextDeltaOf(last) else ""
  }

  lemma {:induction false} SilentBlock(acts: seq<Action>, i: int)
    requires !Streams(acts, i)
    ensures TextFor(acts, i) == ""
  {
    if acts != [] {
      SilentBlock(acts[..|acts| - 1], i);
    }
  }

  /** A text block hands out its deltas and what its close owes. That is all the server sent for it,
      opening text included, exactly when the opening brought no text or no delta was handed out. */
  lemma OpeningTextIsLostIff(acts: seq<Action>, q: nat, i: int)
    requires BegunAt(acts, i) == Some(q) && acts[q].Open? && acts[q].block.kind.TextBlock?
    ensures TextFor(acts[q..], i) + OwedText(acts, i) == acts[q].block.text + TextFor(acts[q..], i)
            <==> acts[q].block.text == "" || !Streams(acts[q..], i)
  {
    var opening, deltas := acts[q].block.text, TextFor(acts[q..], i);
    if !Streams(acts[q..], i) {
      SilentBlock(acts[q..], i);
      assert "" + opening == opening + "";
    } else {
      assert |deltas + ""| == |deltas| && |opening + deltas| == |opening| + |deltas|;
      assert opening == "" ==> deltas + "" == opening + deltas;
    }
  }

  /** The text is exactly that of the text deltas if and only if no close owes any. */
  lemma {:induction false} TextIsDeltasIff(acts: seq<Action>)
    ensures |ExpectedText(acts)| >= |TextDeltas(acts)|
    ensures ExpectedText(acts) == TextDeltas(acts)
            <==> forall k :: 0 <= k < |acts| && acts[k].Close? ==> OwedText(acts[..k], acts[k].index) == ""
    decreases |acts|
  {
    if acts != [] {
      var init, last := acts[..|acts| - 1], acts[|acts| - 1];
      TextIsDeltasIff(init);
      assert forall k :: 0 <= k < |init| ==> init[k] == acts[k] && init[..k] == acts[..k];
      assert acts[..|acts| - 1] == init;
      if last.Close? {
        assert TextDeltas(init) + "" == TextDeltas(init);
        assert OwedText(init, last.index) == "" ==> ExpectedText(init) + "" == ExpectedText(init);
      } else {
        SameTail(ExpectedText(init), TextDeltas(init), TextDeltaOf(last));
      }
    }
  }

  lemma SameTail(a: string, b: string, c: string)
    ensures a + c == b + c <==> a == b
  {
    if a + c == b + c {
      assert |a| == |b| && a == (a + c)[..|a|] && b == (b + c)[..|b|];
    }
  }

  /** Text that starts and ends with something else than white space, followed by more. */
  lemma {:induction false} TrimBehind(drop: char -> bool, front: string, s: string)
    requires front != "" && !drop(front[|front| - 1])
    ensures TrimRight(drop, front + s) == front + TrimRight(drop, s)
    decreases |s|
  {
    var all := front + s;
    if s == "" {
      assert all == front;
    } else {
      assert all[..|all| - 1] == front + s[..|s| - 1];
      if drop(s[|s| - 1]) {
        TrimBehind(drop, front, s[..|s| - 1]);
      }
    }
  }

  /** Trimming both ends leaves no more than trimming one, and nothing only where that leaves nothing. */
  lemma {:induction false} TrimmedLonger(drop: char -> bool, s: string)
    ensures |Trim(drop, s)| <= |TrimRight(drop, s)| && (Trim(drop, s) == "" ==> TrimRight(drop, s) == "")
    decreases |s|
  {
    if s != "" && drop(s[0]) {
      TrimmedLonger(drop, s[1..]);
      DropFirst(drop, s);
    }
  }

  lemma {:induction false} DropFirst(drop: char -> bool, s: string)
    requires s != "" && drop(s[0])
    ensures |TrimRight(drop, s[1..])| <= |TrimRight(drop, s)|
            && (TrimRight(drop, s[1..]) == "" ==> TrimRight(drop, s) == "")
    decreases |s|
  {
    if |s| == 1 {
      assert s[..0] == "";
    } else {
      var init := s[..|s| - 1];
      assert init[1..] == s[1..][..|s| - 2];
      if drop(s[|s| - 1]) {
        DropFirst(drop, init);
      }
    }
  }

  lemma TrimFront(drop: char -> bool, front: string, s: string)
    requires front != "" && !drop(front[0]) && !drop(front[|front| - 1])
    ensures Trim(drop, front + s) == front + TrimRight(drop, s)
  {
    var all := front + s;
    assert all[0] == front[0] && TrimLeft(drop, all) == all;
    TrimBehind(drop, front, s);
  }

  lemma OpeningCounts(r: Reader, opening: string, fragments: string)
    requires opening != "" && opening != "{}" && !r.space(opening[0]) && !r.space(opening[|opening| - 1])
    ensures Arguments(r, opening + fragments) != Arguments(r, fragments)
  {
    TrimFront(r.space, opening, fragments);
    TrimmedLonger(r.space, fragments);
    assert opening + "" == opening;
  }

  predicate NoInput(trimmed: string) { trimmed == "" || trimmed == "{}" }

  lemma OpenedInput(r: Reader, b: Opening)
    requires b.kind.ToolUseBlock?
    ensures Opened(r, b).json == if NoInput(Trim(r.space, b.input)) then "" else Trim(r.space, b.input)
  {
  }

  /** The input of a call is that of its fragments alone exactly when the opening brought none. */
  lemma OpeningInputCountsIff(r: Reader, b: Opening, fragments: string)
    requires b.kind.ToolUseBlock?
    ensures Arguments(r, Opened(r, b).json + fragments) == Arguments(r, fragments) <==> NoInput(Trim(r.space, b.input))
  {
    OpenedInput(r, b);
    var trimmed := Trim(r.space, b.input);
    if NoInput(trimmed) {
      assert "" + fragments == fragments;
    } else {
      OpeningCounts(r, trimmed, fragments);
    }
  }

  /** When no opening brings text, the text is exactly that of the text deltas. */
  lemma EmptyOpenings(acts: seq<Action>)
    requires forall k :: 0 <= k < |acts| && acts[k].Open? ==> acts[k].block.text == ""
    ensures ExpectedText(acts) == TextDeltas(acts)
  {
    forall k | 0 <= k < |acts| && acts[k].Close? ensures OwedText(acts[..k], acts[k].index) == "" {
      var q := BegunAt(acts[..k], acts[k].index);
      assert q.Some? ==> acts[..k][q.value] == acts[q.value];
    }
    TextIsDeltasIff(acts);
  }
}
