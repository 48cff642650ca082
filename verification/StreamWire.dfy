/** The events of module StreamAssembly as a server puts them on the wire, and what is read back. */
module StreamWire {
  import opened Common
  import opened Transcript
  import opened StreamAssembly

  function BlockName(kind: BlockKind): string {
    match kind
    case TextBlock => "text"
    case ThinkingBlock => "thinking"
    case ToolUseBlock => "tool_use"
    case OtherBlock => "image"
  }

  function DeltaName(kind: DeltaKind): string {
    match kind
    case TextDelta => "text_delta"
    case ThinkingDelta => "thinking_delta"
    case SignatureDelta => "signature_delta"
    case InputDelta => "input_json_delta"
    case OtherDelta(named) => BlockName(named)
  }

  const NO_OPENING: Opening := Opening(OtherBlock, "", "", "", "", "", "")
  const NO_DELTA: Delta := Delta(TextDelta, "", "", "", "")
  const NO_PAYLOAD: Payload := Payload("", 0, "", NO_OPENING, "", NO_DELTA, "")

  /** The type an event of this action bears. */
  function TypeOf(a: Action): string {
    match a
    case Skip => "ping"
    case Open(_, _) => "content_block_start"
    case Feed(_, _) => "content_block_delta"
    case Close(_) => "content_block_stop"
    case Finish => "message_stop"
    case Fail(_) => "error"
  }

  function PayloadOf(a: Action): Payload {
    match a
    case Open(i, b) => NO_PAYLOAD.(index := i, blockType := BlockName(b.kind), block := b)
    case Feed(i, d) => NO_PAYLOAD.(index := i, deltaType := DeltaName(d.kind), delta := d)
    case Close(i) => NO_PAYLOAD.(index := i)
    case Fail(text) => NO_PAYLOAD.(error := text)
    case _ => NO_PAYLOAD
  }

  /** The event on the wire, its type in the payload or, when `outside`, only in the event's name. */
  function Wire(a: Action, outside: bool, name: string): ServerEvent {
    if outside then ServerEvent(TypeOf(a), Decoded(PayloadOf(a)))
    else ServerEvent(name, Decoded(PayloadOf(a).(kind := TypeOf(a))))
  }

  lemma BlockNamesRead(kind: BlockKind)
    ensures BlockNamed(BlockName(kind)) == kind
  {
    assert "image"[0] == 'i' && "text"[1] == 'e' && "thinking"[1] == 'h' && "tool_use"[1] == 'o';
  }

  lemma DeltaNamesRead(kind: DeltaKind)
    ensures DeltaNamed(DeltaName(kind)) == kind
  {
    assert |"text_delta"| == 10 && |"thinking_delta"| == 14 && |"signature_delta"| == 15 && |"input_json_delta"| == 16;
    match kind
    case OtherDelta(named) =>
      BlockNamesRead(named);
      assert |BlockName(named)| < 10;
    case _ =>
  }

  lemma TypesApart()
    ensures "content_block_start" != "content_block_delta" && "message_start" != "message_delta"
    ensures |"ping"| == 4 && |"error"| == 5 && |"message_stop"| == 12 && |"message_start"| == |"message_delta"| == 13
    ensures |"content_block_stop"| == 18 && |"content_block_start"| == |"content_block_delta"| == 19
  {
    assert "content_block_start"[14] == 's' && "content_block_delta"[14] == 'd';
    assert "message_start"[8] == 's' && "message_delta"[8] == 'd';
  }

  /** What a server sends is what is done about it: every type of event, block and delta is told from
      the others, whether its type stands in the payload or only in the event's name. An error without
      a text gets one. */
  lemma WireRead(a: Action, outside: bool, name: string)
    ensures ActionOf(Wire(a, outside, name))
            == if a == Fail("") then Fail("provider reported an unspecified error") else a
  {
    TypesApart();
    match a
    case Open(_, b) => BlockNamesRead(b.kind);
    case Feed(_, d) => DeltaNamesRead(d.kind);
    case _ =>
  }

  /** Events that only bring statistics, and blank ones, pass without effect; anything that cannot be
      decoded or is of another type ends the stream in an error. */
  lemma OtherEventsRead(name: string, p: Payload)
    ensures ActionOf(ServerEvent(name, Blank)) == Skip && ActionOf(ServerEvent(name, Malformed)) == Fail("")
    ensures p.kind == "message_start" || p.kind == "message_delta" ==> ActionOf(ServerEvent(name, Decoded(p))) == Skip
    ensures p.kind !in {"", "message_start", "message_delta"} && (forall a :: p.kind != TypeOf(a)) ==>
              ActionOf(ServerEvent(name, Decoded(p))) == Fail("")
  {
    TypesApart();
    assert TypeOf(Skip) == "ping" && TypeOf(Open(0, NO_OPENING)) == "content_block_start";
    assert TypeOf(Feed(0, NO_DELTA)) == "content_block_delta" && TypeOf(Close(0)) == "content_block_stop";
    assert TypeOf(Finish) == "message_stop" && TypeOf(Fail("")) == "error";
  }

  /** A whole stream of them is read action by action. */
  lemma StreamRead(acts: seq<Action>, name: string)
    requires Fail("") !in acts
    ensures Actions(seq(|acts|, k requires 0 <= k < |acts| => Wire(acts[k], false, name))) == acts
  {
    forall k | 0 <= k < |acts| ensures ActionOf(Wire(acts[k], false, name)) == acts[k] {
      WireRead(acts[k], false, name);
    }
  }
}
