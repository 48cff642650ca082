/** What a stream means: the message an accumulator assembles from it does not depend on how the
    deltas were cut or interleaved, and its calls and text are those of the fragments. */
module StreamMeaning {
  import opened Common
  import opened Transcript
  import opened StreamAssembly

  /** Feeds chunks to an accumulator until one is refused, as the agent loop does. */
  ghost function Assembled(j: Json, a: Accumulator, chunks: seq<Chunk>): (Accumulator, bool)
    decreases |chunks|
  {
    if chunks == [] then (a, true)
    else if Accepts(j, a, chunks[0]) then Assembled(j, Added(j, a, chunks[0]), chunks[1..])
    else (Added(j, a, chunks[0]), false)
  }

  ghost predicate Usable(j: Json, a: Accumulator) { ValidCalls(j, Calls(a.content)) }

  // ---------------------------------------------------------------------------
  // Cutting and interleaving
  // ---------------------------------------------------------------------------

  function Joined(a: Delta, b: Delta): Delta {
    Delta(a.kind, a.text + b.text, a.thinking + b.thinking, a.signature + b.signature, a.partialJson + b.partialJson)
  }

  predicate Indexed(a: Action) { a.Open? || a.Feed? || a.Close? }

  /** Nothing reaches the consumer while this is handled. */
  predicate Quiet(a: Action) { a.Open? || (a.Feed? && Streamed(a.delta) == []) }

  /** Two ways to resend a stream: join two neighbouring deltas of one block, or let events of
      different blocks, at least one of them quiet, trade places. */
  datatype Move = Join(at: nat) | Swap(at: nat)

  predicate Possible(acts: seq<Action>, m: Move) {
    m.at + 1 < |acts| &&
    var a, b := acts[m.at], acts[m.at + 1];
    match m
    case Join(_) => a.Feed? && b.Feed? && a.index == b.index && a.delta.kind == b.delta.kind
    case Swap(_) => Indexed(a) && Indexed(b) && a.index != b.index && (Quiet(a) || Quiet(b))
  }

  function Moved(acts: seq<Action>, m: Move): seq<Action>
    requires Possible(acts, m)
  {
    var a, b := acts[m.at], acts[m.at + 1];
    var middle := match m
      case Join(_) => [Feed(a.index, Joined(a.delta, b.delta))]
      case Swap(_) => [b, a];
    acts[..m.at] + middle + acts[m.at + 2..]
  }

  /** What one action that does not end the stream hands out. */
  function Out(r: Reader, blocks: map<int, BlockState>, a: Action): (out: seq<Chunk>)
    ensures |out| <= 1
  {
    match a
    case Feed(_, d) => Streamed(d)
    case Close(i) => if i in blocks then Released(r, blocks[i]) else []
    case _ => []
  }

  function After(r: Reader, blocks: map<int, BlockState>, a: Action): map<int, BlockState> {
    match a
    case Open(i, b) => blocks[i := Opened(r, b)]
    case Feed(i, d) => blocks[i := Fed(Current(blocks, i, d), d)]
    case Close(i) => blocks - {i}
    case _ => blocks
  }

  predicate Stops(r: Reader, blocks: map<int, BlockState>, a: Action) {
    a.Finish? || a.Fail? || Fatal(Out(r, blocks, a))
  }

  lemma PlayOne(r: Reader, blocks: map<int, BlockState>, a: Action, rest: seq<Action>)
    ensures !Stops(r, blocks, a) ==>
            Play(r, blocks, [a] + rest) == Out(r, blocks, a) + Play(r, After(r, blocks, a), rest)
    ensures Stops(r, blocks, a) ==>
              Play(r, blocks, [a] + rest)
              == (match a
                  case Finish => Ending(r, blocks)
                  case Fail(text) => [ErrorPiece(text)]
                  case _ => Out(r, blocks, a))
  {
    assert ([a] + rest)[1..] == rest;
    if a.Close? && a.index !in blocks {
      assert blocks - {a.index} == blocks;
    }
  }

  /** A quiet action hands nothing out and leaves what other blocks hand out alone. */
  lemma QuietAside(r: Reader, blocks: map<int, BlockState>, a: Action, b: Action)
    requires Indexed(a) && Indexed(b) && a.index != b.index && Quiet(a)
    ensures Out(r, blocks, a) == [] && Out(r, After(r, blocks, b), a) == []
    ensures !Stops(r, blocks, a) && !Stops(r, After(r, blocks, b), a)
    ensures Out(r, After(r, blocks, a), b) == Out(r, blocks, b)
    ensures Stops(r, After(r, blocks, a), b) <==> Stops(r, blocks, b)
  {
  }

  lemma QuietSwap(r: Reader, blocks: map<int, BlockState>, a: Action, b: Action, rest: seq<Action>)
    requires Indexed(a) && Indexed(b) && a.index != b.index && Quiet(a)
    ensures Play(r, blocks, [a] + ([b] + rest)) == Play(r, blocks, [b] + ([a] + rest))
  {
    QuietAside(r, blocks, a, b);
    PlayOne(r, blocks, a, [b] + rest);
    PlayOne(r, After(r, blocks, a), b, rest);
    PlayOne(r, blocks, b, [a] + rest);
    if !Stops(r, blocks, b) {
      PlayOne(r, After(r, blocks, b), a, rest);
      AfterCommutes(r, blocks, a, b);
    }
  }

  /** Events of different blocks, one of them quiet, may trade places: the consumer sees the very
      same chunks. */
  lemma SwapKeepsChunks(r: Reader, blocks: map<int, BlockState>, a: Action, b: Action, rest: seq<Action>)
    requires Indexed(a) && Indexed(b) && a.index != b.index && (Quiet(a) || Quiet(b))
    ensures Play(r, blocks, [a] + ([b] + rest)) == Play(r, blocks, [b] + ([a] + rest))
  {
    if Quiet(a) {
      QuietSwap(r, blocks, a, b, rest);
    } else {
      QuietSwap(r, blocks, b, a, rest);
    }
  }

  lemma AfterCommutes(r: Reader, blocks: map<int, BlockState>, a: Action, b: Action)
    requires Indexed(a) && Indexed(b) && a.index != b.index
    ensures After(r, After(r, blocks, a), b) == After(r, After(r, blocks, b), a)
  {
  }

  lemma JoinKeepsState(blocks: map<int, BlockState>, i: int, a: Delta, b: Delta)
    requires a.kind == b.kind
    ensures Fed(Fed(Current(blocks, i, a), a), b) == Fed(Current(blocks, i, Joined(a, b)), Joined(a, b))
  {
    assert "" + b.text == b.text && a.text + "" == a.text;
    assert "" + b.thinking == b.thinking && a.thinking + "" == a.thinking;
    var s := Current(blocks, i, a);
    assert s.text + a.text + b.text == s.text + (a.text + b.text);
    assert s.thinking + a.thinking + b.thinking == s.thinking + (a.thinking + b.thinking);
    assert s.signature + a.signature + b.signature == s.signature + (a.signature + b.signature);
    assert s.json + a.partialJson + b.partialJson == s.json + (a.partialJson + b.partialJson);
  }

  /** Two pieces of one delta assemble like the delta itself. */
  lemma JoinKeepsAssembly(j: Json, acc: Accumulator, a: Delta, b: Delta, rest: seq<Chunk>)
    requires Usable(j, acc) && a.kind == b.kind
    ensures Assembled(j, acc, Streamed(a) + (Streamed(b) + rest)) == Assembled(j, acc, Streamed(Joined(a, b)) + rest)
  {
    if Streamed(a) == [] {
      assert Joined(a, b).kind == b.kind && "" + b.text == b.text && "" + b.thinking == b.thinking;
      assert Streamed(Joined(a, b)) == Streamed(b);
      assert Streamed(a) + (Streamed(b) + rest) == Streamed(b) + rest;
    } else if Streamed(b) == [] {
      assert a.text + "" == a.text && a.thinking + "" == a.thinking;
      assert Streamed(Joined(a, b)) == Streamed(a);
      assert Streamed(b) + rest == rest;
    } else {
      var one, two, both := Streamed(a)[0], Streamed(b)[0], Streamed(Joined(a, b))[0];
      TwoPieces(j, acc, one, two, both);
      assert Streamed(a) + (Streamed(b) + rest) == [one] + ([two] + rest);
      assert ([one] + ([two] + rest))[1..] == [two] + rest && ([two] + rest)[1..] == rest;
      assert Streamed(Joined(a, b)) + rest == [both] + rest && ([both] + rest)[1..] == rest;
    }
  }

  predicate Piece(c: Chunk) {
    !c.failed && c.encrypted == "" && c.responseId == "" && c.signature == ""
      && (c.kind.TextChunk? || c.kind.ThinkingChunk?)
  }

  lemma PieceAccepted(j: Json, acc: Accumulator, c: Chunk)
    requires Usable(j, acc) && Piece(c)
    ensures Accepts(j, acc, c) && Usable(j, Added(j, acc, c))
    ensures Added(j, acc, c) == acc.(content := Merged(acc.content, PieceBlock(c)))
  {
    MergedKeepsCalls(acc.content, PieceBlock(c));
  }

  function PieceBlock(c: Chunk): Block {
    if c.kind.TextChunk? then PLAIN.(text := c.text)
    else PLAIN.(kind := Thinking, thinking := c.text, signature := c.signature)
  }

  lemma TwoPieces(j: Json, acc: Accumulator, one: Chunk, two: Chunk, both: Chunk)
    requires Usable(j, acc) && Piece(one) && Piece(two) && one.kind == two.kind
             && both == one.(text := one.text + two.text)
    ensures Accepts(j, acc, one) && Accepts(j, Added(j, acc, one), two) && Accepts(j, acc, both)
    ensures Added(j, Added(j, acc, one), two) == Added(j, acc, both)
  {
    PieceAccepted(j, acc, one);
    PieceAccepted(j, Added(j, acc, one), two);
    PieceAccepted(j, acc, both);
    MergedTwice(acc.content, PieceBlock(one), PieceBlock(two), PieceBlock(both));
  }

  lemma MergedTwice(content: seq<Block>, a: Block, b: Block, both: Block)
    requires a.kind == b.kind && a.kind in {Text, Thinking} && a.signature == b.signature == ""
    requires if a.kind.Text? then b.thinking == "" else b.text == ""
    requires both == a.(text := a.text + b.text, thinking := a.thinking + b.thinking)
    ensures Merged(Merged(content, a), b) == Merged(content, both)
  {
    assert a.text + "" == a.text && a.thinking + "" == a.thinking;
    if content != [] && content[|content| - 1].kind == a.kind {
      var last := content[|content| - 1];
      assert last.text + a.text + b.text == last.text + (a.text + b.text);
      assert last.thinking + a.thinking + b.thinking == last.thinking + (a.thinking + b.thinking);
    } else {
      var m := Merged(content, a);
      assert m == content + [a] && a.text + "" == a.text && a.thinking + "" == a.thinking;
      assert m[|m| - 1 := both] == content + [both];
    }
  }

  lemma AssembledOne(j: Json, acc: Accumulator, out: seq<Chunk>, x: seq<Chunk>, y: seq<Chunk>)
    requires |out| <= 1 && Usable(j, acc)
    requires forall next :: Usable(j, next) ==> Assembled(j, next, x) == Assembled(j, next, y)
    ensures Assembled(j, acc, out + x) == Assembled(j, acc, out + y)
  {
    if out == [] {
      assert out + x == x && out + y == y;
    } else {
      assert (out + x)[1..] == x && (out + y)[1..] == y;
      if Accepts(j, acc, out[0]) {
        AcceptedCallsValid(j, acc, out[0]);
      }
    }
  }

  lemma JoinFirst(r: Reader, acc: Accumulator, blocks: map<int, BlockState>, i: int, a: Delta, b: Delta,
                  rest: seq<Action>)
    requires Usable(r.json, acc) && a.kind == b.kind
    ensures Assembled(r.json, acc, Play(r, blocks, [Feed(i, a)] + ([Feed(i, b)] + rest)))
            == Assembled(r.json, acc, Play(r, blocks, [Feed(i, Joined(a, b))] + rest))
  {
    var one, two, both := Feed(i, a), Feed(i, b), Feed(i, Joined(a, b));
    PlayOne(r, blocks, one, [two] + rest);
    PlayOne(r, After(r, blocks, one), two, rest);
    PlayOne(r, blocks, both, rest);
    JoinKeepsState(blocks, i, a, b);
    assert After(r, After(r, blocks, one), two) == After(r, blocks, both);
    JoinKeepsAssembly(r.json, acc, a, b, Play(r, After(r, blocks, both), rest));
  }

  /** The same first action keeps two streams alike. */
  lemma AlikeAfterOne(r: Reader, acc: Accumulator, blocks: map<int, BlockState>, a: Action, x: seq<Action>,
                      y: seq<Action>)
    requires Usable(r.json, acc)
    requires forall next :: Usable(r.json, next) ==>
               Assembled(r.json, next, Play(r, After(r, blocks, a), x))
                 == Assembled(r.json, next, Play(r, After(r, blocks, a), y))
    ensures Assembled(r.json, acc, Play(r, blocks, [a] + x)) == Assembled(r.json, acc, Play(r, blocks, [a] + y))
  {
    PlayOne(r, blocks, a, x);
    PlayOne(r, blocks, a, y);
    if !Stops(r, blocks, a) {
      AssembledOne(r.json, acc, Out(r, blocks, a), Play(r, After(r, blocks, a), x), Play(r, After(r, blocks, a), y));
    }
  }

  /** A move at the front, and a move further on. */
  lemma MovedNow(acts: seq<Action>, m: Move)
    requires Possible(acts, m) && m.at == 0
    ensures var a, b, rest := acts[0], acts[1], acts[2..];
            && acts == [a] + ([b] + rest)
            && Moved(acts, m)
              == (if m.Swap? then [b] + ([a] + rest) else [Feed(a.index, Joined(a.delta, b.delta))] + rest)
  {
  }

  lemma MovedLater(acts: seq<Action>, m: Move)
    requires Possible(acts, m) && m.at > 0
    ensures var later := m.(at := m.at - 1);
            && acts == [acts[0]] + acts[1..] && Possible(acts[1..], later)
            && Moved(acts, m) == [acts[0]] + Moved(acts[1..], later)
  {
  }

  /** Resending a stream with one delta cut in two, or with events of different blocks in another
      order, assembles the same message and ends the same way. */
  lemma {:induction false} MoveKeepsMessage(r: Reader, acc: Accumulator, blocks: map<int, BlockState>,
                                            acts: seq<Action>, m: Move)
    requires Usable(r.json, acc) && Possible(acts, m)
    ensures Assembled(r.json, acc, Play(r, blocks, acts)) == Assembled(r.json, acc, Play(r, blocks, Moved(acts, m)))
    decreases |acts|
  {
    if m.at == 0 {
      MovedNow(acts, m);
      if m.Swap? {
        SwapKeepsChunks(r, blocks, acts[0], acts[1], acts[2..]);
      } else {
        JoinFirst(r, acc, blocks, acts[0].index, acts[0].delta, acts[1].delta, acts[2..]);
      }
    } else {
      MovedLater(acts, m);
      MoveLater(r, acc, blocks, acts[0], acts[1..], m.(at := m.at - 1));
    }
  }

  lemma {:induction false} MoveLater(r: Reader, acc: Accumulator, blocks: map<int, BlockState>, a: Action,
                                     rest: seq<Action>, m: Move)
    requires Usable(r.json, acc) && Possible(rest, m)
    ensures Assembled(r.json, acc, Play(r, blocks, [a] + rest))
            == Assembled(r.json, acc, Play(r, blocks, [a] + Moved(rest, m)))
    decreases |rest| + 1, 0
  {
    forall next | Usable(r.json, next)
      ensures Assembled(r.json, next, Play(r, After(r, blocks, a), rest))
              == Assembled(r.json, next, Play(r, After(r, blocks, a), Moved(rest, m)))
    {
      MoveKeepsMessage(r, next, After(r, blocks, a), rest, m);
    }
    AlikeAfterOne(r, acc, blocks, a, rest, Moved(rest, m));
  }

  ghost predicate Resends(acts: seq<Action>, moves: seq<Move>)
    decreases |moves|
  {
    moves == [] || (Possible(acts, moves[0]) && Resends(Moved(acts, moves[0]), moves[1..]))
  }

  ghost function Resent(acts: seq<Action>, moves: seq<Move>): seq<Action>
    requires Resends(acts, moves)
    decreases |moves|
  {
    if moves == [] then acts else Resent(Moved(acts, moves[0]), moves[1..])
  }

  /** Any number of cuts and exchanges leaves the assembled message as it was. */
  lemma {:induction false} FragmentationIsInvisible(r: Reader, acts: seq<Action>, moves: seq<Move>)
    requires Resends(acts, moves)
    ensures Assembled(r.json, NOTHING, Play(r, map[], acts))
            == Assembled(r.json, NOTHING, Play(r, map[], Resent(acts, moves)))
    decreases |moves|
  {
    if moves != [] {
      MoveKeepsMessage(r, NOTHING, map[], acts, moves[0]);
      FragmentationIsInvisible(r, Moved(acts, moves[0]), moves[1..]);
    }
  }
}
