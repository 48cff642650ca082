/** The rows of the audit ledger (internal/engine/storage/sqlite.go), one by one: which record each
    row is, and what a row says of it. */
module LedgerRows {
  import opened Common
  import opened WriteBuffer
  import opened Ledger

  /** The record is a message, stored under this key. */
  predicate MessageOn(d: Decoders, r: Record, key: MessageKey) {
    r.kind == MESSAGE && d.message(r.data).Some? &&
    var id := d.message(r.data).value.id;
    key == (SessionOf(r.stream), if id != "" then id else d.print_(r.seqNo))
  }

  /** The record is a tool call state, stored under this key. */
  predicate ToolOn(d: Decoders, r: Record, key: ToolKey) {
    r.kind == TOOL_CALL_STATE && d.tool(r.data).Some? && key == (r.stream, r.seqNo)
  }

  ghost predicate AnyMessage(d: Decoders, rs: seq<Record>, key: MessageKey) {
    exists i :: 0 <= i < |rs| && MessageOn(d, rs[i], key)
  }

  ghost predicate AnyTool(d: Decoders, rs: seq<Record>, key: ToolKey) {
    exists i :: 0 <= i < |rs| && ToolOn(d, rs[i], key)
  }

  /** The last message under the key. */
  ghost predicate LastMessage(d: Decoders, rs: seq<Record>, i: int, key: MessageKey) {
    0 <= i < |rs| && MessageOn(d, rs[i], key) && forall j :: i < j < |rs| ==> !MessageOn(d, rs[j], key)
  }

  /** The first tool call state under the key. */
  ghost predicate FirstTool(d: Decoders, rs: seq<Record>, i: int, key: ToolKey) {
    0 <= i < |rs| && ToolOn(d, rs[i], key) && forall j :: 0 <= j < i ==> !ToolOn(d, rs[j], key)
  }

  function RowOfMessage(d: Decoders, r: Record): MessageRow
    requires d.message(r.data).Some?
  {
    var m := d.message(r.data).value;
    MessageRow(m.role, if m.content != "" then m.content else r.data, r.ts)
  }

  function RowOfTool(d: Decoders, r: Record): ToolRow
    requires d.tool(r.data).Some?
  {
    var t := d.tool(r.data).value;
    ToolRow(if t.status != "" then t.status else "executed", t.toolName, r.ts)
  }

  /** One record's rows. */
  lemma OneRow(d: Decoders, r: Record)
    ensures forall key :: key in LastWrites(d, [r]) <==> MessageOn(d, r, key)
    ensures forall key :: MessageOn(d, r, key) ==> LastWrites(d, [r])[key] == RowOfMessage(d, r)
    ensures forall key :: key in FirstWrites(d, [r]) <==> ToolOn(d, r, key)
    ensures forall key :: ToolOn(d, r, key) ==> FirstWrites(d, [r])[key] == RowOfTool(d, r)
  {
    assert [r][1..] == [];
  }

  /** A message row exists exactly for a key some record is stored under, and is that of the last such
      record. */
  lemma {:induction false} LastWriterWins(d: Decoders, rs: seq<Record>, key: MessageKey)
    ensures key in LastWrites(d, rs) <==> AnyMessage(d, rs, key)
    ensures forall i :: LastMessage(d, rs, i, key) ==>
              key in LastWrites(d, rs) && LastWrites(d, rs)[key] == RowOfMessage(d, rs[i])
  {
    if rs != [] {
      var init, last := rs[..|rs| - 1], rs[|rs| - 1];
      assert rs == init + [last] && forall i :: 0 <= i < |init| ==> init[i] == rs[i];
      LastWriterWins(d, init, key);
      WritesConcat(d, init, [last]);
      OneRow(d, last);
    }
  }

  /** A tool row exists exactly for a key some record is stored under, and is that of the first such
      record. */
  lemma {:induction false} FirstWriterWins(d: Decoders, rs: seq<Record>, key: ToolKey)
    ensures key in FirstWrites(d, rs) <==> AnyTool(d, rs, key)
    ensures forall i :: FirstTool(d, rs, i, key) ==>
              key in FirstWrites(d, rs) && FirstWrites(d, rs)[key] == RowOfTool(d, rs[i])
  {
    if rs != [] {
      var init, last := rs[..|rs| - 1], rs[|rs| - 1];
      assert rs == init + [last] && forall i :: 0 <= i < |init| ==> init[i] == rs[i];
      FirstWriterWins(d, init, key);
      WritesConcat(d, init, [last]);
      OneRow(d, last);
    }
  }

  /** A batch stored in a ledger that already holds rows: a message row is that of the last record
      stored under its key, or the one from before; a tool row is the one from before, or that of the
      first record. */
  lemma RowsAfter(d: Decoders, t: Tables, rs: seq<Record>, message: MessageKey, tool: ToolKey)
    requires AllStorable(d, rs)
    ensures var after := StoreAll(d, t, rs).messages;
            && (message in after <==> message in t.messages || AnyMessage(d, rs, message))
            && (message in after && !AnyMessage(d, rs, message) ==> after[message] == t.messages[message])
            && (forall i :: LastMessage(d, rs, i, message) ==>
                  message in after && after[message] == RowOfMessage(d, rs[i]))
    ensures var after := StoreAll(d, t, rs).tools;
            && (tool in after <==> tool in t.tools || AnyTool(d, rs, tool))
            && (tool in t.tools ==> tool in after && after[tool] == t.tools[tool])
            && (forall i :: FirstTool(d, rs, i, tool) && tool !in t.tools ==>
                  tool in after && after[tool] == RowOfTool(d, rs[i]))
  {
    StoreAllIs(d, t, rs);
    LastWriterWins(d, rs, message);
    FirstWriterWins(d, rs, tool);
  }

  /** The session of a stream is what stands behind its first colon, unless the kind before it is
      missing; without a colon it is the whole name. */
  lemma SessionIs(kind: string, id: string)
    requires ':' !in kind
    ensures SessionOf(kind) == kind
    ensures SessionOf(kind + [':'] + id) == if kind == "" then [':'] + id else id
  {
    var stream := kind + [':'] + id;
    assert stream[..|kind|] == kind && stream[|kind|] == ':';
    IndexOfFirst(stream, ':', |kind|);
    assert stream[|kind| + 1..] == id;
    if kind == "" {
      assert stream == [':'] + id;
    }
  }
}
