/** `parseStream` as the loop it is, proved against the chunk list of module StreamAssembly. */
module StreamParser {
  import opened Common
  import opened Transcript
  import opened Text
  import opened StreamAssembly

  ghost predicate Ascending(indexes: seq<int>) {
    forall a, b :: 0 <= a < b < |indexes| ==> indexes[a] < indexes[b]
  }

  ghost predicate Holds(indexes: seq<int>, keys: set<int>) {
    Ascending(indexes) && forall x :: x in keys <==> x in indexes
  }

  method LowestOf(keys: set<int>) returns (i: int)
    requires keys != {}
    ensures Least(keys, i)
  {
    assert (forall x :: x !in keys) ==> keys == {};
    i :| i in keys;
    var rest := keys - {i};
    while rest != {}
      invariant rest <= keys && i in keys && forall k :: k in keys && k !in rest ==> i <= k
      decreases |rest|
    {
      assert (forall x :: x !in rest) ==> rest == {};
      var k :| k in rest;
      if k < i {
        i := k;
      }
      rest := rest - {k};
    }
  }

  /** `sort.Ints` over the open indexes. */
  method SortedIndexes(keys: set<int>) returns (indexes: seq<int>)
    ensures Holds(indexes, keys)
  {
    indexes := [];
    var rest := keys;
    while rest != {}
      invariant rest <= keys && Ascending(indexes)
      invariant forall x :: x in indexes <==> x in keys && x !in rest
      invariant forall a, x :: 0 <= a < |indexes| && x in rest ==> indexes[a] < x
      decreases |rest|
    {
      var i := LowestOf(rest);
      indexes := indexes + [i];
      rest := rest - {i};
    }
  }

  /** What a consumer has heard when one more chunk is offered. */
  lemma HeardOne(keep: seq<Chunk> -> bool, before: seq<Chunk>, out: seq<Chunk>, rest: seq<Chunk>)
    requires |out| <= 1
    ensures out == [] || keep(before + out) ==> Heard(keep, before, out + rest) == Heard(keep, before + out, rest)
    ensures out != [] && !keep(before + out) ==> Heard(keep, before, out + rest) == before + out
    ensures out != [] ==> Heard(keep, before, out) == before + out
  {
    if out == [] {
      assert out + rest == rest && before + out == before;
    } else {
      assert out == [out[0]] && (out + rest)[0] == out[0] && (out + rest)[1..] == rest && out[1..] == [];
    }
  }

  lemma HeardRelease(keep: seq<Chunk> -> bool, before: seq<Chunk>, out: seq<Chunk>, rest: seq<Chunk>, all: seq<Chunk>)
    requires |out| <= 1 && all == if Fatal(out) then out else out + rest
    ensures !Fatal(out) && (out == [] || keep(before + out)) ==>
            Heard(keep, before, all) == Heard(keep, before + out, rest)
    ensures Fatal(out) || (out != [] && !keep(before + out)) ==> Heard(keep, before, all) == before + out
    ensures out == [] ==> before + out == before
  {
    HeardOne(keep, before, out, rest);
  }

  lemma NextIndex(indexes: seq<int>, k: nat, keys: set<int>)
    requires k < |indexes| && Holds(indexes[k..], keys)
    ensures Least(keys, indexes[k]) && Holds(indexes[k + 1..], keys - {indexes[k]})
  {
    var now, next := indexes[k..], indexes[k + 1..];
    assert now == [indexes[k]] + next && now[0] in keys;
    forall x | x in keys ensures indexes[k] <= x && (x != indexes[k] ==> x in next) {
      var a :| 0 <= a < |now| && now[a] == x;
      assert a > 0 ==> now[0] < now[a] && next[a - 1] == x;
    }
    forall x | x in next ensures x in keys && x != indexes[k] {
      var a :| 0 <= a < |next| && next[a] == x;
      assert now[a + 1] == x && now[0] < now[a + 1];
    }
    forall a, b | 0 <= a < b < |next| ensures next[a] < next[b] {
      assert now[a + 1] < now[b + 1];
    }
  }

  lemma EndingStep(r: Reader, blocks: map<int, BlockState>, i: int)
    requires Least(blocks.Keys, i)
    ensures var out := Released(r, blocks[i]);
            Ending(r, blocks) == if Fatal(out) then out else out + Ending(r, blocks - {i})
  {
    assert Least(blocks.Keys, Lowest(blocks.Keys));
  }

  class Parser {
    const r: Reader
    const keep: seq<Chunk> -> bool
    var blocks: map<int, BlockState>
    var stopped: bool
    var chunks: seq<Chunk>

    constructor (r: Reader, keep: seq<Chunk> -> bool)
      ensures this.r == r && this.keep == keep && blocks == map[] && !stopped && chunks == []
    {
      this.r, this.keep := r, keep;
      blocks, stopped, chunks := map[], false, [];
    }

    method Emit(c: Chunk) returns (ok: bool)
      modifies this`chunks, this`stopped
      ensures chunks == old(chunks) + [c] && ok == keep(chunks)
      ensures stopped == (old(stopped) || !ok)
    {
      chunks := chunks + [c];
      ok := keep(chunks);
      if !ok {
        stopped := true;
      }
    }

    method Release(index: int) returns (go: bool)
      modifies this
      ensures index !in old(blocks) ==> go && blocks == old(blocks) && chunks == old(chunks)
      ensures index in old(blocks) ==>
                var out := Released(r, old(blocks)[index]);
                && chunks == old(chunks) + out && blocks == old(blocks) - {index}
                && go == (!Fatal(out) && (out == [] || keep(chunks)))
    {
      if index !in blocks {
        return true;
      }
      var state := blocks[index];
      blocks := blocks - {index};
      if state.kind.ToolUseBlock? {
        var arguments := Trim(r.space, state.json);
        if arguments == "" {
          arguments := "{}";
        }
        if !r.json.valid(arguments) {
          var _ := Emit(ErrorPiece(""));
          return false;
        }
        go := Emit(CallPiece(state.id, state.name, arguments));
      } else if state.kind.ThinkingBlock? {
        if state.thinking == "" && state.signature == "" {
          return true;
        }
        if state.streamed {
          if state.signature == "" {
            return true;
          }
          go := Emit(ThinkingPiece("", state.signature));
          return;
        }
        go := Emit(ThinkingPiece(state.thinking, state.signature));
      } else {
        if state.streamed || state.text == "" {
          return true;
        }
        go := Emit(TextPiece(state.text));
      }
    }

    method ReleaseAll() returns (go: bool)
      modifies this
      ensures go ==> Heard(keep, old(chunks), Ending(r, old(blocks))) == Heard(keep, chunks, [DONE])
      ensures !go ==> Heard(keep, old(chunks), Ending(r, old(blocks))) == chunks
    {
      var indexes := SortedIndexes(blocks.Keys);
      assert indexes[0..] == indexes;
      ghost var target := Heard(keep, chunks, Ending(r, blocks));
      for k := 0 to |indexes|
        invariant Holds(indexes[k..], blocks.Keys)
        invariant target == Heard(keep, chunks, Ending(r, blocks))
      {
        NextIndex(indexes, k, blocks.Keys);
        EndingStep(r, blocks, indexes[k]);
        HeardRelease(keep, chunks, Released(r, blocks[indexes[k]]), Ending(r, blocks - {indexes[k]}),
          Ending(r, blocks));
        go := Release(indexes[k]);
        if !go {
          return;
        }
      }
      assert (forall x :: x !in blocks.Keys) ==> blocks.Keys == {};
      go := true;
    }

    /** `releaseAll` and the closing chunk. */
    method Close()
      modifies this
      ensures chunks == Heard(keep, old(chunks), Ending(r, old(blocks)))
    {
      var go := ReleaseAll();
      if go {
        HeardOne(keep, chunks, [DONE], []);
        var _ := Emit(DONE);
      }
    }

    /** One event: on `go` the rest of the stream is still to be played, otherwise this was its end. */
    method Handle(action: Action, ghost rest: seq<Action>) returns (go: bool)
      modifies this
      ensures go ==>
                Heard(keep, old(chunks), Play(r, old(blocks), [action] + rest))
                == Heard(keep, chunks, Play(r, blocks, rest))
      ensures !go ==> Heard(keep, old(chunks), Play(r, old(blocks), [action] + rest)) == chunks
    {
      assert ([action] + rest)[1..] == rest;
      match action {
        case Skip => go := true;
        case Open(i, b) =>
          blocks := blocks[i := Opened(r, b)];
          go := true;
        case Feed(i, d) =>
          var state := Current(blocks, i, d);
          var out := Streamed(d);
          HeardOne(keep, chunks, out, Play(r, blocks[i := Fed(state, d)], rest));
          go := true;
          if out != [] {
            go := Emit(out[0]);
            assert old(chunks) + out == chunks;
          } else {
            assert chunks + out == chunks;
          }
          blocks := blocks[i := Fed(state, d)];
        case Close(i) =>
          if i in blocks {
            HeardRelease(keep, chunks, Released(r, blocks[i]), Play(r, blocks - {i}, rest),
              Play(r, blocks, [action] + rest));
          }
          go := Release(i);
        case Finish =>
          Close();
          go := false;
        case Fail(text) =>
          HeardOne(keep, chunks, [ErrorPiece(text)], []);
          var _ := Emit(ErrorPiece(text));
          go := false;
      }
    }

    /** Whatever the events and the consumer, the chunks handed over are the stream's chunks up to
        the one the consumer gave up on. */
    method Parse(events: seq<ServerEvent>)
      requires blocks == map[] && !stopped && chunks == []
      modifies this
      ensures chunks == Heard(keep, [], Play(r, map[], Actions(events)))
    {
      ghost var acts := Actions(events);
      ghost var target := Heard(keep, [], Play(r, map[], acts));
      assert acts[0..] == acts;
      for n := 0 to |events|
        invariant target == Heard(keep, chunks, Play(r, blocks, acts[n..]))
      {
        assert acts[n..] == [ActionOf(events[n])] + acts[n + 1..];
        var go := Handle(ActionOf(events[n]), acts[n + 1..]);
        if !go {
          return;
        }
      }
      Close();
    }
  }
}
