/** The stream parser of internal/engine/gateway/anthropic_messages.go: server events, interleaved
    over block indexes, become the chunks an accumulator reads. */
module StreamAssembly {
  import opened Common
  import opened Transcript
  import opened Text

  /** Library checks, kept abstract: which texts are JSON, which characters are white space. */
  datatype Reader = Reader(json: Json, space: char -> bool)

  datatype BlockKind = TextBlock | ThinkingBlock | ToolUseBlock | OtherBlock

  /** A delta of an unknown type also says which block kind its name would stand for. */
  datatype DeltaKind = TextDelta | ThinkingDelta | SignatureDelta | InputDelta | OtherDelta(named: BlockKind)

  function BlockNamed(name: string): BlockKind {
    if name == "text" then TextBlock else if name == "thinking" then ThinkingBlock
    else if name == "tool_use" then ToolUseBlock else OtherBlock
  }

  function DeltaNamed(name: string): DeltaKind {
    if name == "text_delta" then TextDelta else if name == "thinking_delta" then ThinkingDelta
    else if name == "signature_delta" then SignatureDelta else if name == "input_json_delta" then InputDelta
    else OtherDelta(BlockNamed(name))
  }

  datatype Opening = Opening(kind: BlockKind, id: string, name: string, text: string, thinking: string,
                             signature: string, input: string)

  datatype Delta = Delta(kind: DeltaKind, text: string, thinking: string, signature: string, partialJson: string)

  /** The type names of block and delta are kept as sent. */
  datatype Payload = Payload(kind: string, index: int, blockType: string, block: Opening, deltaType: string,
                             delta: Delta, error: string)

  /** The data of one server event: white space only, not decodable, or a payload. */
  datatype Body = Blank | Malformed | Decoded(payload: Payload)

  datatype ServerEvent = ServerEvent(name: string, body: Body)

  datatype BlockState = BlockState(kind: BlockKind, id: string, name: string, text: string, thinking: string,
                                   signature: string, json: string, streamed: bool)

  /** What the parser does about one event. */
  datatype Action = Skip | Open(index: int, block: Opening) | Feed(index: int, delta: Delta) | Close(index: int)
                  | Finish | Fail(text: string)

  const UNSPECIFIED := "provider reported an unspecified error"

  function ActionOf(e: ServerEvent): Action {
    match e.body
    case Blank => Skip
    case Malformed => Fail("")
    case Decoded(p) =>
      var kind := if p.kind == "" then e.name else p.kind;
      if kind == "ping" || kind == "message_start" || kind == "message_delta" then Skip
      else if kind == "content_block_start" then Open(p.index, p.block.(kind := BlockNamed(p.blockType)))
      else if kind == "content_block_delta" then Feed(p.index, p.delta.(kind := DeltaNamed(p.deltaType)))
      else if kind == "content_block_stop" then Close(p.index)
      else if kind == "message_stop" then Finish
      else if kind == "error" then Fail(if p.error == "" then UNSPECIFIED else p.error)
      else Fail("")
  }

  function Actions(es: seq<ServerEvent>): (acts: seq<Action>)
    ensures |acts| == |es| && forall i :: 0 <= i < |es| ==> acts[i] == ActionOf(es[i])
  {
    seq(|es|, i requires 0 <= i < |es| => ActionOf(es[i]))
  }

  // ---------------------------------------------------------------------------
  // Chunks
  // ---------------------------------------------------------------------------

  const EMPTY_CHUNK: Chunk := Chunk(DoneChunk, "", None, "", "", "", false)
  const DONE: Chunk := EMPTY_CHUNK

  function TextPiece(text: string): Chunk { EMPTY_CHUNK.(kind := TextChunk, text := text) }

  function ThinkingPiece(text: string, signature: string): Chunk {
    EMPTY_CHUNK.(kind := ThinkingChunk, text := text, signature := signature)
  }

  function CallPiece(id: string, name: string, input: string): Chunk {
    EMPTY_CHUNK.(kind := ToolCallChunk,
    toolCall := Some(PLAIN.(kind := ToolUse, callId := id, toolName := name, input := input)))
  }

  function ErrorPiece(text: string): Chunk {
    EMPTY_CHUNK.(kind := ErrorChunk, text := text, failed := true)
  }

  predicate Terminal(c: Chunk) { c.kind.DoneChunk? || c.kind.ErrorChunk? }

  /** The arguments of a call: the trimmed fragments, or an empty object. */
  function Arguments(r: Reader, fragments: string): string {
    var trimmed := Trim(r.space, fragments);
    if trimmed == "" then "{}" else trimmed
  }

  // ---------------------------------------------------------------------------
  // One block
  // ---------------------------------------------------------------------------

  function Opened(r: Reader, b: Opening): BlockState {
    var s := BlockState(b.kind, b.id, b.name, "", "", "", "", false);
    if b.kind.TextBlock? then s.(text := b.text)
    else if b.kind.ThinkingBlock? then s.(thinking := b.thinking, signature := b.signature)
    else if b.kind.ToolUseBlock? then
      var trimmed := Trim(r.space, b.input);
      if trimmed != "" && trimmed != "{}" then s.(json := trimmed) else s
    else s
  }

  /** A delta for a block nobody opened starts one of the kind its own type names. */
  function Unopened(d: Delta): BlockState {
    BlockState(if d.kind.OtherDelta? then d.kind.named else OtherBlock, "", "", "", "", "", "", false)
  }

  function Current(blocks: map<int, BlockState>, index: int, d: Delta): BlockState {
    if index in blocks then blocks[index] else Unopened(d)
  }

  function Fed(s: BlockState, d: Delta): BlockState {
    if d.kind.TextDelta? then
      if d.text == "" then s else s.(streamed := true, text := s.text + d.text)
    else if d.kind.ThinkingDelta? then
      if d.thinking == "" then s else s.(streamed := true, thinking := s.thinking + d.thinking)
    else if d.kind.SignatureDelta? then s.(signature := s.signature + d.signature)
    else if d.kind.InputDelta? then s.(json := s.json + d.partialJson)
    else s
  }

  function Streamed(d: Delta): seq<Chunk> {
    if d.kind.TextDelta? && d.text != "" then [TextPiece(d.text)]
    else if d.kind.ThinkingDelta? && d.thinking != "" then [ThinkingPiece(d.thinking, "")]
    else []
  }

  /** What closing a block still owes the consumer: nothing, a chunk, or the error that ends the stream. */
  function Released(r: Reader, s: BlockState): (out: seq<Chunk>)
    ensures |out| <= 1
  {
    if s.kind.ToolUseBlock? then
      var arguments := Arguments(r, s.json);
      if r.json.valid(arguments) then [CallPiece(s.id, s.name, arguments)] else [ErrorPiece("")]
    else if s.kind.ThinkingBlock? then
      if s.thinking == "" && s.signature == "" then []
      else if !s.streamed then [ThinkingPiece(s.thinking, s.signature)]
      else if s.signature == "" then []
      else [ThinkingPiece("", s.signature)]
    else if s.streamed || s.text == "" then []
    else [TextPiece(s.text)]
  }

  predicate Fatal(out: seq<Chunk>) { out != [] && out[0].kind.ErrorChunk? }

  // ---------------------------------------------------------------------------
  // The whole stream, for a consumer that takes everything
  // ---------------------------------------------------------------------------

  ghost predicate Least(keys: set<int>, i: int) {
    i in keys && forall k :: k in keys ==> i <= k
  }

  lemma {:induction false} LeastExists(keys: set<int>, x: int)
    requires x in keys
    ensures exists i :: Least(keys, i)
    decreases |keys|
  {
    if y :| y in keys && y < x {
      LeastExists(keys - {x}, y);
      var m :| Least(keys - {x}, m);
      forall k | k in keys ensures m <= k {
        assert k != x ==> k in keys - {x};
      }
      assert Least(keys, m);
    } else {
      assert Least(keys, x);
    }
  }

  ghost function Lowest(keys: set<int>): (i: int)
    requires keys != {}
    ensures Least(keys, i)
  {
    assert (forall x :: x !in keys) ==> keys == {};
    var x :| x in keys;
    LeastExists(keys, x);
    var i :| Least(keys, i);
    i
  }

  /** `releaseAll` and the closing chunk. */
  ghost function Ending(r: Reader, blocks: map<int, BlockState>): seq<Chunk>
    decreases |blocks.Keys|
  {
    if blocks.Keys == {} then [DONE]
    else
      var i := Lowest(blocks.Keys);
      assert (blocks - {i}).Keys == blocks.Keys - {i};
      var out := Released(r, blocks[i]);
      if Fatal(out) then out else out + Ending(r, blocks - {i})
  }

  /** Every chunk the stream gives rise to. */
  ghost function Play(r: Reader, blocks: map<int, BlockState>, acts: seq<Action>): seq<Chunk>
    decreases |acts|
  {
    if acts == [] then Ending(r, blocks)
    else
      match acts[0]
      case Skip => Play(r, blocks, acts[1..])
      case Open(i, b) => Play(r, blocks[i := Opened(r, b)], acts[1..])
      case Feed(i, d) => Streamed(d) + Play(r, blocks[i := Fed(Current(blocks, i, d), d)], acts[1..])
      case Close(i) =>
        if i !in blocks then Play(r, blocks, acts[1..])
        else
          var out := Released(r, blocks[i]);
          if Fatal(out) then out else out + Play(r, blocks - {i}, acts[1..])
      case Finish => Ending(r, blocks)
      case Fail(text) => [ErrorPiece(text)]
  }

  /** The chunks a consumer sees who may lose interest after any of them. */
  ghost function Heard(keep: seq<Chunk> -> bool, before: seq<Chunk>, all: seq<Chunk>): seq<Chunk>
    decreases |all|
  {
    if all == [] then before
    else
      var now := before + [all[0]];
      if keep(now) then Heard(keep, now, all[1..]) else now
  }

  /** `all` ends with its only terminal chunk. */
  ghost predicate Closed(all: seq<Chunk>) {
    all != [] && forall k :: 0 <= k < |all| ==> (Terminal(all[k]) <==> k == |all| - 1)
  }

  lemma ClosedAfter(out: seq<Chunk>, rest: seq<Chunk>)
    requires Closed(rest) && (forall k :: 0 <= k < |out| ==> !Terminal(out[k]))
    ensures Closed(out + rest)
  {
  }

  lemma {:induction false} EndingCloses(r: Reader, blocks: map<int, BlockState>)
    ensures Closed(Ending(r, blocks))
    decreases |blocks.Keys|
  {
    if blocks.Keys != {} {
      var i := Lowest(blocks.Keys);
      assert (blocks - {i}).Keys == blocks.Keys - {i};
      EndingCloses(r, blocks - {i});
      if !Fatal(Released(r, blocks[i])) {
        ClosedAfter(Released(r, blocks[i]), Ending(r, blocks - {i}));
      }
    }
  }

  lemma NoTerminal(r: Reader, s: BlockState, d: Delta)
    ensures forall k :: 0 <= k < |Streamed(d)| ==> !Terminal(Streamed(d)[k])
    ensures forall k :: 0 <= k < |Released(r, s)| && !Fatal(Released(r, s)) ==> !Terminal(Released(r, s)[k])
    ensures Fatal(Released(r, s)) ==> Closed(Released(r, s))
  {
  }

  /** Whatever the server sends, the chunks end in exactly one terminal chunk. */
  lemma {:induction false} OneTerminalChunk(r: Reader, blocks: map<int, BlockState>, acts: seq<Action>)
    ensures Closed(Play(r, blocks, acts))
    decreases |acts|
  {
    if acts == [] || acts[0].Finish? {
      EndingCloses(r, blocks);
    } else {
      match acts[0]
      case Skip => OneTerminalChunk(r, blocks, acts[1..]);
      case Open(i, b) => OneTerminalChunk(r, blocks[i := Opened(r, b)], acts[1..]);
      case Feed(i, d) =>
        var next := blocks[i := Fed(Current(blocks, i, d), d)];
        OneTerminalChunk(r, next, acts[1..]);
        NoTerminal(r, Current(blocks, i, d), d);
        ClosedAfter(Streamed(d), Play(r, next, acts[1..]));
      case Close(i) =>
        OneTerminalChunk(r, blocks - {i}, acts[1..]);
        if i in blocks {
          NoTerminal(r, blocks[i], Delta(TextDelta, "", "", "", ""));
          if !Fatal(Released(r, blocks[i])) {
            ClosedAfter(Released(r, blocks[i]), Play(r, blocks - {i}, acts[1..]));
          }
        } else {
          assert blocks - {i} == blocks;
        }
      case Fail(text) =>
    }
  }

  /** A consumer that stops early has seen a prefix, and one that never stops has seen it all. */
  lemma {:induction false} HeardIsPrefix(keep: seq<Chunk> -> bool, before: seq<Chunk>, all: seq<Chunk>)
    ensures before <= Heard(keep, before, all) <= before + all
    ensures (forall k :: 0 < k < |all| ==> keep(before + all[..k])) && all != [] ==>
            Heard(keep, before, all) == before + all
    decreases |all|
  {
    if all == [] {
      assert before + all == before;
    } else {
      var now := before + [all[0]];
      assert now + all[1..] == before + all;
      assert before + all[..1] == now;
      if keep(now) {
        forall k | 0 < k < |all[1..]| ensures now + all[1..][..k] == before + all[..k + 1] {}
        HeardIsPrefix(keep, now, all[1..]);
        if |all| == 1 {
          assert all[1..] == [];
        }
      } else {
        assert now <= now + all[1..];
      }
    }
  }
}
