/** The audit ledger of internal/engine/storage/sqlite.go as two keyed tables, together with what
    applying records to it means independently of the order of the loop that does it. */
module Ledger {
  import opened Common
  import opened WriteBuffer

  const MESSAGE: string := "message"
  const TOOL_CALL_STATE: string := "tool_call_state"

  datatype MessageRow = MessageRow(role: string, content: string, ts: nat)
  datatype ToolRow = ToolRow(status: string, toolName: string, ts: nat)

  type MessageKey = (string, string)   // session, message
  type ToolKey = (string, int)         // stream, sequence

  datatype Tables = Tables(messages: map<MessageKey, MessageRow>, tools: map<ToolKey, ToolRow>)

  const NO_ROWS: Tables := Tables(map[], map[])

  datatype MessageData = MessageData(id: string, role: string, content: string)
  datatype ToolData = ToolData(toolName: string, status: string)

  /** JSON decoding of a record's data and decimal printing, kept abstract. */
  datatype Decoders = Decoders(message: string -> Option<MessageData>, tool: string -> Option<ToolData>,
                               print_: int -> string)

  /** The identifier part of a stream name. */
  function SessionOf(stream: string): string {
    var i := IndexOf(stream, ':');
    if 0 < i < |stream| then stream[i + 1..] else stream
  }

  function MessageEntry(d: Decoders, r: Record, m: MessageData): (MessageKey, MessageRow) {
    ((SessionOf(r.stream), if m.id == "" then d.print_(r.seqNo) else m.id),
     MessageRow(m.role, if m.content == "" then r.data else m.content, r.ts))
  }

  function ToolEntry(r: Record, t: ToolData): (ToolKey, ToolRow) {
    ((r.stream, r.seqNo), ToolRow(if t.status == "" then "executed" else t.status, t.toolName, r.ts))
  }

  /** A record a transaction can store. */
  predicate Storable(d: Decoders, r: Record) {
    (r.kind == MESSAGE ==> d.message(r.data).Some?) && (r.kind == TOOL_CALL_STATE ==> d.tool(r.data).Some?)
  }

  predicate AllStorable(d: Decoders, rs: seq<Record>) {
    forall i :: 0 <= i < |rs| ==> Storable(d, rs[i])
  }

  /** One record's row updates: a message overwrites, a tool call state never does. */
  function Store(d: Decoders, t: Tables, r: Record): Tables
    requires Storable(d, r)
  {
    if r.kind == MESSAGE then
      var (key, row) := MessageEntry(d, r, d.message(r.data).value);
      t.(messages := t.messages[key := row])
    else if r.kind == TOOL_CALL_STATE then
      var (key, row) := ToolEntry(r, d.tool(r.data).value);
      if key in t.tools then t else t.(tools := t.tools[key := row])
    else t
  }

  function StoreAll(d: Decoders, t: Tables, rs: seq<Record>): Tables
    requires AllStorable(d, rs)
  {
    if rs == [] then t else Store(d, StoreAll(d, t, rs[..|rs| - 1]), rs[|rs| - 1])
  }

  /** What a batch does to the tables: everything, or nothing if one record cannot be stored. */
  function Apply(d: Decoders, t: Tables, rs: seq<Record>): Option<Tables> {
    if AllStorable(d, rs) then Some(StoreAll(d, t, rs)) else None
  }

  // ---------------------------------------------------------------------------
  // Last writer and first writer
  // ---------------------------------------------------------------------------

  /** The message rows a list of records leaves: the last writer of each key. */
  function LastWrites(d: Decoders, rs: seq<Record>): map<MessageKey, MessageRow> {
    if rs == [] then map[]
    else
      var r, rest := rs[0], LastWrites(d, rs[1..]);
      if r.kind == MESSAGE && d.message(r.data).Some? then
        var (key, row) := MessageEntry(d, r, d.message(r.data).value);
        map[key := row] + rest
      else rest
  }

  /** The tool rows a list of records leaves: the first writer of each key. */
  function FirstWrites(d: Decoders, rs: seq<Record>): map<ToolKey, ToolRow> {
    if rs == [] then map[]
    else
      var r, rest := rs[0], FirstWrites(d, rs[1..]);
      if r.kind == TOOL_CALL_STATE && d.tool(r.data).Some? then
        var (key, row) := ToolEntry(r, d.tool(r.data).value);
        rest + map[key := row]
      else rest
  }

  lemma {:induction false} WritesConcat(d: Decoders, a: seq<Record>, b: seq<Record>)
    ensures LastWrites(d, a + b) == LastWrites(d, a) + LastWrites(d, b)
    ensures FirstWrites(d, a + b) == FirstWrites(d, b) + FirstWrites(d, a)
  {
    if a == [] {
      assert a + b == b;
    } else {
      assert (a + b)[1..] == a[1..] + b;
      WritesConcat(d, a[1..], b);
    }
  }

  lemma OneWrite(d: Decoders, r: Record)
    requires Storable(d, r)
    ensures LastWrites(d, [r]) == if r.kind == MESSAGE then
              var (key, row) := MessageEntry(d, r, d.message(r.data).value); map[key := row] else map[]
    ensures FirstWrites(d, [r]) == if r.kind == TOOL_CALL_STATE then
              var (key, row) := ToolEntry(r, d.tool(r.data).value); map[key := row] else map[]
  {
    assert [r][1..] == [];
  }

  lemma StoreIs(d: Decoders, t: Tables, r: Record)
    requires Storable(d, r)
    ensures Store(d, t, r) == Tables(t.messages + LastWrites(d, [r]), FirstWrites(d, [r]) + t.tools)
  {
    OneWrite(d, r);
    assert t.messages + map[] == t.messages && map[] + t.tools == t.tools;
  }

  lemma UnionAssociates<K, V>(a: map<K, V>, b: map<K, V>, c: map<K, V>)
    ensures a + b + c == a + (b + c)
  {
  }

  /** The row-by-row loop computes exactly: last writer wins over the messages, first writer wins
      over the tool calls, and rows already in the ledger count as earlier writers. */
  lemma {:induction false} StoreAllIs(d: Decoders, t: Tables, rs: seq<Record>)
    requires AllStorable(d, rs)
    ensures StoreAll(d, t, rs) == Tables(t.messages + LastWrites(d, rs), FirstWrites(d, rs) + t.tools)
  {
    if rs == [] {
      assert t.messages + map[] == t.messages && map[] + t.tools == t.tools;
    } else {
      var head, last := rs[..|rs| - 1], rs[|rs| - 1];
      StoreAllIs(d, t, head);
      StoreIs(d, StoreAll(d, t, head), last);
      assert rs == head + [last];
      WritesConcat(d, head, [last]);
      UnionAssociates(t.messages, LastWrites(d, head), LastWrites(d, [last]));
      UnionAssociates(FirstWrites(d, [last]), FirstWrites(d, head), t.tools);
    }
  }

  class AuditSink {
    const decoders: Decoders
    var messages: map<MessageKey, MessageRow>
    var tools: map<ToolKey, ToolRow>
    var events: seq<Record>
    var checkpoints: map<string, int>
    var closed: bool

    constructor (decoders: Decoders)
      ensures this.decoders == decoders && View() == NO_ROWS && events == [] && checkpoints == map[] && !closed
    {
      this.decoders := decoders;
      messages, tools, events, checkpoints, closed := map[], map[], [], map[], false;
    }

    ghost function View(): Tables
      reads this
    {
      Tables(messages, tools)
    }

    /** One transaction per batch. A record without a time is stamped with the transaction's; the
        event table takes every record of a committed batch, again on every replay. */
    method Write(batch: seq<Record>, now: nat) returns (ok: bool)
      modifies this`messages, this`tools, this`events
      ensures var stamped := Timed(batch, now);
              ok <==> batch == [] || (!closed && AllStorable(decoders, stamped))
      ensures var stamped := Timed(batch, now);
              if ok then Apply(decoders, old(View()), stamped) == Some(View()) && events == old(events) + stamped
              else View() == old(View()) && events == old(events)
    {
      if |batch| == 0 {
        assert events + Timed(batch, now) == events;
        return true;
      }
      if closed {
        return false;
      }
      ghost var stamped := Timed(batch, now);
      var m, t, e := messages, tools, events;
      for i := 0 to |batch|
        invariant AllStorable(decoders, stamped[..i])
        invariant Tables(m, t) == StoreAll(decoders, old(View()), stamped[..i])
        invariant e == old(events) + stamped[..i]
        invariant View() == old(View()) && events == old(events)
      {
        var r := batch[i];
        if r.ts == 0 {
          r := r.(ts := now);
        }
        assert stamped[..i + 1] == stamped[..i] + [r];
        e := e + [r];
        if r.kind == MESSAGE {
          match decoders.message(r.data)
          case None =>
            assert !Storable(decoders, stamped[i]);
            return false;
          case Some(data) =>
            var (key, row) := MessageEntry(decoders, r, data);
            m := m[key := row];
        } else if r.kind == TOOL_CALL_STATE {
          match decoders.tool(r.data)
          case None =>
            assert !Storable(decoders, stamped[i]);
            return false;
          case Some(state) =>
            var (key, row) := ToolEntry(r, state);
            if key !in t {
              t := t[key := row];
            }
        }
      }
      assert stamped[..|batch|] == stamped;
      messages, tools, events := m, t, e;
      ok := true;
    }

    method LastAppliedSeq(stream: string) returns (checkpoint: int)
      ensures checkpoint == CheckpointOf(checkpoints, stream)
      ensures checkpoint == if stream in checkpoints then checkpoints[stream] else 0
    {
      checkpoint := if stream in checkpoints then checkpoints[stream] else 0;
    }

    method WriteCheckpoint(stream: string, seqNo: int) returns (ok: bool)
      modifies this`checkpoints
      ensures ok == !closed
      ensures checkpoints == if ok then old(checkpoints)[stream := seqNo] else old(checkpoints)
    {
      ok := !closed;
      if ok {
        checkpoints := checkpoints[stream := seqNo];
      }
    }

    /** The rebuild's first transaction. */
    method Clear() returns (ok: bool)
      modifies this
      ensures ok == !old(closed) && closed == old(closed)
      ensures if ok then View() == NO_ROWS && events == [] && checkpoints == map[]
              else View() == old(View()) && events == old(events) && checkpoints == old(checkpoints)
    {
      ok := !closed;
      if ok {
        messages, tools, events, checkpoints := map[], map[], [], map[];
      }
    }

    /** Clear, then write. When the write fails the ledger has already been emptied. */
    method Rebuild(records: seq<Record>, now: nat) returns (ok: bool)
      modifies this
      ensures ok <==> !old(closed) && AllStorable(decoders, Timed(records, now))
      ensures ok ==> Apply(decoders, NO_ROWS, Timed(records, now)) == Some(View())
      ensures ok ==> events == Timed(records, now) && checkpoints == map[]
      ensures !ok && !old(closed) ==> View() == NO_ROWS && events == []
    {
      ok := Clear();
      if !ok {
        return;
      }
      if |records| == 0 {
        assert Timed(records, now) == [];
        return;
      }
      ok := Write(records, now);
      assert [] + Timed(records, now) == Timed(records, now);
    }
  }

  function CheckpointOf(checkpoints: map<string, int>, stream: string): int {
    if stream in checkpoints then checkpoints[stream] else 0
  }

  function Timed(rs: seq<Record>, now: nat): (out: seq<Record>)
    ensures |out| == |rs|
    ensures forall i :: 0 <= i < |rs| ==> out[i] == if rs[i].ts == 0 then rs[i].(ts := now) else rs[i]
  {
    seq(|rs|, i requires 0 <= i < |rs| => if rs[i].ts == 0 then rs[i].(ts := now) else rs[i])
  }
}
