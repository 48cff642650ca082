/** The blocks a stream parser holds, read straight off the events that made them
    (internal/engine/gateway/anthropic_messages.go). */
module BlockHistory {
  import opened Common
  import opened Transcript
  import opened StreamAssembly
  import opened StreamMeaning
  import opened StreamParser

  /** The events before the stream ends or fails. */
  ghost predicate Playing(acts: seq<Action>) {
    forall k :: 0 <= k < |acts| ==> acts[k].Skip? || Indexed(acts[k])
  }

  // ---------------------------------------------------------------------------
  // Read off the events
  // ---------------------------------------------------------------------------

  /** Where the block held at index `i` began: at its opening, or at a delta nobody had opened a
      block for. */
  function BegunAt(acts: seq<Action>, i: int): (at: Option<nat>)
    ensures at.Some? ==> at.value < |acts| && Begins(acts[at.value], i)
  {
    if acts == [] then None
    else
      var before, last := BegunAt(acts[..|acts| - 1], i), acts[|acts| - 1];
      if !Indexed(last) || last.index != i then before
      else if last.Open? then Some(|acts| - 1)
      else if last.Close? then None
      else if before.Some? then before
      else Some(|acts| - 1)
  }

  predicate Begins(a: Action, i: int) {
    (a.Open? || a.Feed?) && a.index == i
  }

  /** A block before the first delta for it. */
  function Origin(r: Reader, a: Action): BlockState
    requires a.Open? || a.Feed?
  {
    if a.Open? then Opened(r, a.block) else Unopened(a.delta)
  }

  /** The argument fragment an action sends for index `i`. */
  function Fragment(a: Action, i: int): string {
    if a.Feed? && a.index == i && a.delta.kind.InputDelta? then a.delta.partialJson else ""
  }

  /** All of them, in order. */
  function Fragments(acts: seq<Action>, i: int): string {
    if acts == [] then "" else Fragments(acts[..|acts| - 1], i) + Fragment(acts[|acts| - 1], i)
  }

  /** The signature an action sends for index `i`. */
  function SignaturePart(a: Action, i: int): string {
    if a.Feed? && a.index == i && a.delta.kind.SignatureDelta? then a.delta.signature else ""
  }

  function Signatures(acts: seq<Action>, i: int): string {
    if acts == [] then "" else Signatures(acts[..|acts| - 1], i) + SignaturePart(acts[|acts| - 1], i)
  }

  /** Some delta for index `i` went straight to the consumer. */
  predicate Streams(acts: seq<Action>, i: int) {
    acts != [] && (Streams(acts[..|acts| - 1], i) || Shows(acts[|acts| - 1], i))
  }

  predicate Shows(a: Action, i: int) {
    a.Feed? && a.index == i && Streamed(a.delta) != []
  }

  // ---------------------------------------------------------------------------
  // The parser's view
  // ---------------------------------------------------------------------------

  function BlocksAfter(r: Reader, acts: seq<Action>): map<int, BlockState> {
    if acts == [] then map[] else After(r, BlocksAfter(r, acts[..|acts| - 1]), acts[|acts| - 1])
  }

  function Outs(r: Reader, acts: seq<Action>): seq<Chunk> {
    if acts == [] then []
    else Outs(r, acts[..|acts| - 1]) + Out(r, BlocksAfter(r, acts[..|acts| - 1]), acts[|acts| - 1])
  }

  predicate Sound(r: Reader, acts: seq<Action>) {
    acts == [] ||
    (Sound(r, acts[..|acts| - 1]) && !Fatal(Out(r, BlocksAfter(r, acts[..|acts| - 1]), acts[|acts| - 1])))
  }

  /** One more action behind a prefix that has been played. */
  lemma PrefixStep(r: Reader, before: seq<Chunk>, blocks: map<int, BlockState>, all: seq<Chunk>, last: Action,
                   tail: seq<Action>)
    requires !Stops(r, blocks, last) && all == before + Play(r, blocks, [last] + tail)
    ensures all == before + Out(r, blocks, last) + Play(r, After(r, blocks, last), tail)
  {
    PlayOne(r, blocks, last, tail);
    Associates(before, Out(r, blocks, last), Play(r, After(r, blocks, last), tail));
  }

  lemma LastApart(acts: seq<Action>, tail: seq<Action>)
    requires acts != []
    ensures acts + tail == acts[..|acts| - 1] + ([acts[|acts| - 1]] + tail)
  {
  }

  lemma {:induction false} PlayPrefix(r: Reader, acts: seq<Action>, tail: seq<Action>)
    requires Playing(acts) && Sound(r, acts)
    ensures Play(r, map[], acts + tail) == Outs(r, acts) + Play(r, BlocksAfter(r, acts), tail)
    decreases |acts|
  {
    if acts == [] {
      assert acts + tail == tail;
    } else {
      var init, last := acts[..|acts| - 1], acts[|acts| - 1];
      LastApart(acts, tail);
      PlayPrefix(r, init, [last] + tail);
      PrefixStep(r, Outs(r, init), BlocksAfter(r, init), Play(r, map[], acts + tail), last, tail);
    }
  }

  function At(blocks: map<int, BlockState>, i: int): Option<BlockState> {
    if i in blocks then Some(blocks[i]) else None
  }

  /** One action, seen from the block at index `i` alone. */
  function Next(r: Reader, at: Option<BlockState>, a: Action, i: int): Option<BlockState> {
    if !Indexed(a) || a.index != i then at
    else
      match a
      case Open(_, b) => Some(Opened(r, b))
      case Feed(_, d) => Some(Fed(if at.Some? then at.value else StreamAssembly.Unopened(d), d))
      case _ => None
  }

  lemma NextIsAfter(r: Reader, blocks: map<int, BlockState>, a: Action, i: int)
    ensures At(After(r, blocks, a), i) == Next(r, At(blocks, i), a, i)
  {
  }

  /** The block is what its origin and the events since then say. */
  predicate Carries(origin: BlockState, since: seq<Action>, i: int, s: BlockState) {
    && s.kind == origin.kind && s.id == origin.id && s.name == origin.name
    && s.json == origin.json + Fragments(since, i) && s.signature == origin.signature + Signatures(since, i)
    && s.streamed == Streams(since, i)
    && (!s.streamed ==> s.text == origin.text && s.thinking == origin.thinking)
  }

  /** What the events say about the block held at index `i`. */
  predicate Describes(r: Reader, acts: seq<Action>, at: Option<BlockState>, i: int) {
    match BegunAt(acts, i)
    case None => at.None?
    case Some(q) => at.Some? && Carries(Origin(r, acts[q]), acts[q..], i, at.value)
  }

  lemma OneEvent(a: Action, i: int)
    ensures Fragments([a], i) == Fragment(a, i) && Signatures([a], i) == SignaturePart(a, i)
    ensures Streams([a], i) == Shows(a, i)
  {
    assert Signatures([a], i) == Signatures([a][..0], i) + SignaturePart(a, i);
    assert "" + SignaturePart(a, i) == SignaturePart(a, i);
    assert [a][..0] == [] && Fragments([a], i) == Fragments([a][..0], i) + Fragment(a, i);
    assert "" + Fragment(a, i) == Fragment(a, i);
  }

  lemma MoreEvents(since: seq<Action>, a: Action, i: int)
    ensures Fragments(since + [a], i) == Fragments(since, i) + Fragment(a, i)
    ensures Signatures(since + [a], i) == Signatures(since, i) + SignaturePart(a, i)
    ensures Streams(since + [a], i) == (Streams(since, i) || Shows(a, i))
  {
    assert (since + [a])[..|since|] == since;
  }

  lemma FedMoves(s: BlockState, d: Delta, i: int)
    ensures var t := Fed(s, d);
            && t.kind == s.kind && t.id == s.id && t.name == s.name && t.json == s.json + Fragment(Feed(i, d), i)
            && t.signature == s.signature + SignaturePart(Feed(i, d), i)
            && t.streamed == (s.streamed || Shows(Feed(i, d), i))
            && (!t.streamed ==> t.text == s.text && t.thinking == s.thinking)
  {
    assert s.json + "" == s.json && s.signature + "" == s.signature;
  }

  /** One more delta. */
  lemma CarriedOn(origin: BlockState, since: seq<Action>, i: int, s: BlockState, d: Delta)
    requires Carries(origin, since, i, s)
    ensures Carries(origin, since + [Feed(i, d)], i, Fed(s, d))
  {
    FedMoves(s, d, i);
    MoreEvents(since, Feed(i, d), i);
    Associates(origin.json, Fragments(since, i), Fragment(Feed(i, d), i));
    Associates(origin.signature, Signatures(since, i), SignaturePart(Feed(i, d), i));
  }

  /** One more event for another block, or for none. */
  lemma CarriedPast(origin: BlockState, since: seq<Action>, i: int, s: BlockState, a: Action)
    requires Carries(origin, since, i, s) && !(Indexed(a) && a.index == i)
    ensures Carries(origin, since + [a], i, s)
  {
    MoreEvents(since, a, i);
    assert Fragments(since, i) + "" == Fragments(since, i) && Signatures(since, i) + "" == Signatures(since, i);
  }

  /** The event a block begins with. */
  lemma JustBegun(r: Reader, a: Action, i: int)
    requires Begins(a, i)
    ensures Carries(Origin(r, a), [a], i, if a.Open? then Opened(r, a.block) else Fed(Unopened(a.delta), a.delta))
  {
    var origin := Origin(r, a);
    if a.Open? {
      OneEvent(a, i);
      assert origin.json + "" == origin.json && origin.signature + "" == origin.signature;
    } else {
      assert [] + [a] == [a];
      CarriedOn(origin, [], i, origin, a.delta);
    }
  }

  lemma DescribedStep(r: Reader, acts: seq<Action>, last: Action, at: Option<BlockState>, i: int)
    requires Describes(r, acts, at, i)
    ensures Describes(r, acts + [last], Next(r, at, last, i), i)
  {
    var all := acts + [last];
    assert all[..|all| - 1] == acts && all[|acts|..] == [last];
    var q := BegunAt(acts, i);
    if q.Some? {
      assert all[q.value..] == acts[q.value..] + [last] && all[q.value] == acts[q.value];
    }
    if !Indexed(last) || last.index != i {
      if q.Some? {
        CarriedPast(Origin(r, acts[q.value]), acts[q.value..], i, at.value, last);
      }
    } else if last.Open? || (last.Feed? && q.None?) {
      JustBegun(r, last, i);
    } else if last.Feed? {
      CarriedOn(Origin(r, acts[q.value]), acts[q.value..], i, at.value, last.delta);
    }
  }

  lemma AtAfter(r: Reader, acts: seq<Action>, last: Action, i: int)
    ensures At(BlocksAfter(r, acts + [last]), i) == Next(r, At(BlocksAfter(r, acts), i), last, i)
  {
    assert (acts + [last])[..|acts|] == acts;
    NextIsAfter(r, BlocksAfter(r, acts), last, i);
  }

  /** Every block the parser holds is the one the events describe. */
  lemma {:induction false} BlockDescribed(r: Reader, acts: seq<Action>, i: int)
    ensures Describes(r, acts, At(BlocksAfter(r, acts), i), i)
    decreases |acts|
  {
    if acts != [] {
      var init, last := acts[..|acts| - 1], acts[|acts| - 1];
      BlockDescribed(r, init, i);
      AtAfter(r, init, last, i);
      DescribedStep(r, init, last, At(BlocksAfter(r, init), i), i);
      assert init + [last] == acts;
    }
  }
}
