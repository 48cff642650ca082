/** The write buffer of internal/engine/storage/writebuffer.go: its queue, its bounds and its
    per-stream numbering, as the object whose fields every critical section updates. */
module WriteBuffer {
  import opened Common

  /** One durable entry. `ts == 0` stands for the zero time. */
  datatype Record = Record(stream: string, seqNo: int, kind: string, data: string, ts: nat)

  datatype Limits = Limits(watermarkRecords: nat, watermarkBytes: nat, queueBytes: nat)

  /** `withDefaults` leaves every limit positive. */
  predicate Positive(l: Limits) {
    l.watermarkRecords > 0 && l.watermarkBytes > 0 && l.queueBytes > 0
  }

  datatype AppendError = EmptyStream | EmptyType | InvalidData | BufferClosed | QueueOverflow

  /** What `mu` guards. */
  datatype Queue = Queue(pending: seq<Record>, bytes: int, last: map<string, nat>, closed: bool, dropped: nat)

  const EMPTY: Queue := Queue([], 0, map[], false, 0)

  function Cost(r: Record): nat {
    |r.data| + |r.stream| + |r.kind| + 64
  }

  function LastSeq(q: Queue, stream: string): nat {
    if stream in q.last then q.last[stream] else 0
  }

  /** How many of the oldest records an overflow discards: as long as the queue is over `limit`
      and holds more than one. */
  function Shed(pending: seq<Record>, bytes: int, limit: int): (n: nat)
    ensures n <= |pending| && (pending != [] ==> n < |pending|)
  {
    if bytes > limit && |pending| > 1 then 1 + Shed(pending[1..], bytes - Cost(pending[0]), limit) else 0
  }

  /** The record as it is queued: missing data becomes JSON null, a missing time becomes now. */
  function Normal(r: Record, now: nat): Record {
    r.(data := if r.data == "" then "null" else r.data, ts := if r.ts == 0 then now else r.ts)
  }

  function Refusal(valid: string -> bool, r: Record, closed: bool): Option<AppendError> {
    if r.stream == "" then Some(EmptyStream)
    else if r.kind == "" then Some(EmptyType)
    else if !valid(if r.data == "" then "null" else r.data) then Some(InvalidData)
    else if closed then Some(BufferClosed)
    else None
  }

  function Stamped(q: Queue, r: Record): Record {
    r.(seqNo := LastSeq(q, r.stream) + 1)
  }

  predicate Overflows(q: Queue, l: Limits, r: Record) {
    q.bytes + Cost(r) > l.queueBytes
  }

  /** How many of the queued records, `s` last, are discarded once `s` joins them. */
  function Discards(q: Queue, l: Limits, s: Record): (n: nat)
    ensures n <= |q.pending|
  {
    if Overflows(q, l, s) then Shed(q.pending + [s], q.bytes + Cost(s), l.queueBytes / 2) else 0
  }

  function Enlisted(q: Queue, l: Limits, s: Record): Queue {
    var n := Discards(q, l, s);
    var all := q.pending + [s];
    q.(pending := all[n..], bytes := q.bytes + Cost(s) - Sum(Cost, all[..n]), dropped := q.dropped + n)
  }

  /** `Append` under the lock: number the record, queue it, shed on overflow. */
  function Admit(q: Queue, l: Limits, r: Record): Queue {
    Enlisted(q.(last := q.last[r.stream := LastSeq(q, r.stream) + 1]), l, Stamped(q, r))
  }

  predicate Full(q: Queue, l: Limits) {
    |q.pending| >= l.watermarkRecords || q.bytes >= l.watermarkBytes
  }

  /** The queue's own invariant: the byte count is exact, and the bound holds unless a single
      record is larger than it. */
  ghost predicate QueueOk(q: Queue, l: Limits) {
    && q.bytes == Sum(Cost, q.pending)
    && (q.bytes <= l.queueBytes || |q.pending| <= 1)
    && Numbered(q.pending, q.last)
  }

  lemma {:induction false} SumSplit(rs: seq<Record>, n: nat)
    requires n <= |rs|
    ensures Sum(Cost, rs) == Sum(Cost, rs[..n]) + Sum(Cost, rs[n..])
  {
    assert rs == rs[..n] + rs[n..];
    SumConcat(Cost, rs[..n], rs[n..]);
  }

  lemma SumOne(r: Record)
    ensures Sum(Cost, [r]) == Cost(r)
  {
    assert [r][..0] == [];
    assert Sum(Cost, [r]) == Sum(Cost, [r][..0]) + Cost(r);
  }

  lemma SumFirst(rs: seq<Record>)
    requires rs != []
    ensures Sum(Cost, rs) == Cost(rs[0]) + Sum(Cost, rs[1..])
  {
    SumSplit(rs, 1);
    SumOne(rs[0]);
    assert rs[..1] == [rs[0]];
  }

  lemma DropMore(rs: seq<Record>, k: nat)
    requires 0 < |rs| && k < |rs|
    ensures rs[1..][k..] == rs[k + 1..] && rs[0..] == rs
  {
  }

  /** `n` discards are just enough for `limit`. */
  ghost predicate JustEnough(rs: seq<Record>, n: nat, limit: int) {
    && n < |rs| && (Sum(Cost, rs[n..]) <= limit || |rs[n..]| == 1)
    && (n > 0 ==> Sum(Cost, rs[n - 1..]) > limit)
  }

  lemma OneMoreEnough(rs: seq<Record>, m: nat, limit: int)
    requires |rs| > 1 && Sum(Cost, rs) > limit && JustEnough(rs[1..], m, limit)
    ensures JustEnough(rs, m + 1, limit)
  {
    DropMore(rs, m);
    if m > 0 {
      DropMore(rs, m - 1);
    }
  }

  /** An overflow discards just enough of the oldest records: what is left fits in `limit` or is
      a single record, and one discard fewer would have left too much. */
  lemma {:induction false} ShedIsMinimal(rs: seq<Record>, bytes: int, limit: int)
    requires bytes == Sum(Cost, rs) && rs != []
    ensures JustEnough(rs, Shed(rs, bytes, limit), limit)
    decreases |rs|
  {
    if bytes > limit && |rs| > 1 {
      SumFirst(rs);
      ShedNext(rs, bytes, limit);
      ShedIsMinimal(rs[1..], bytes - Cost(rs[0]), limit);
      OneMoreEnough(rs, Shed(rs[1..], bytes - Cost(rs[0]), limit), limit);
    } else {
      DropMore(rs, 0);
    }
  }

  lemma ShedNext(pending: seq<Record>, bytes: int, limit: int)
    requires bytes > limit && |pending| > 1
    ensures Shed(pending, bytes, limit) == 1 + Shed(pending[1..], bytes - Cost(pending[0]), limit)
  {
  }

  lemma OneMoreShed(rs: seq<Record>, n: nat)
    requires n < |rs|
    ensures Sum(Cost, rs[..n + 1]) == Sum(Cost, rs[..n]) + Cost(rs[n]) && rs[n..][1..] == rs[n + 1..]
  {
    assert rs[..n + 1][..n] == rs[..n];
  }

  /** `n` records shed from `all`, with `left` of them and `bytes` to go on with. */
  ghost predicate ShedSoFar(all: seq<Record>, before: int, limit: int, n: nat, left: seq<Record>, bytes: int) {
    && n <= |all| && left == all[n..] && bytes == before - Sum(Cost, all[..n])
    && Shed(all, before, limit) == n + Shed(left, bytes, limit)
  }

  lemma ShedOne(all: seq<Record>, before: int, limit: int, n: nat, left: seq<Record>, bytes: int)
    requires ShedSoFar(all, before, limit, n, left, bytes) && bytes > limit && |left| > 1
    ensures ShedSoFar(all, before, limit, n + 1, left[1..], bytes - Cost(left[0]))
  {
    OneMoreShed(all, n);
    ShedNext(left, bytes, limit);
  }

  lemma EnlistCounts(q: Queue, l: Limits, s: Record)
    requires q.bytes == Sum(Cost, q.pending) && Positive(l)
    ensures var after := Enlisted(q, l, s);
            after.bytes == Sum(Cost, after.pending) && (after.bytes <= l.queueBytes || |after.pending| <= 1)
  {
    var n, all := Discards(q, l, s), q.pending + [s];
    assert Sum(Cost, all) == q.bytes + Cost(s) by {
      SumConcat(Cost, q.pending, [s]);
      SumOne(s);
    }
    SumSplit(all, n);
    if Overflows(q, l, s) {
      ShedIsMinimal(all, q.bytes + Cost(s), l.queueBytes / 2);
    }
  }

  /** Every queued record, new or old, is numbered within its stream's count. */
  ghost predicate Numbered(rs: seq<Record>, last: map<string, nat>) {
    forall i :: 0 <= i < |rs| ==> rs[i].stream in last && 1 <= rs[i].seqNo <= last[rs[i].stream]
  }

  lemma AdmitNumbers(rs: seq<Record>, last: map<string, nat>, s: Record)
    requires Numbered(rs, last)
    requires s.seqNo == (if s.stream in last then last[s.stream] else 0) + 1
    ensures Numbered(rs + [s], last[s.stream := s.seqNo])
  {
  }

  lemma AdmitKeepsQueue(q: Queue, l: Limits, r: Record)
    requires QueueOk(q, l) && Positive(l)
    ensures QueueOk(Admit(q, l, r), l)
  {
    EnlistCounts(q.(last := q.last[r.stream := LastSeq(q, r.stream) + 1]), l, Stamped(q, r));
    AdmitNumbers(q.pending, q.last, Stamped(q, r));
  }

  lemma TotalCost(pending: seq<Record>, s: Record)
    ensures Sum(Cost, pending + [s]) == Sum(Cost, pending) + Cost(s)
  {
    SumConcat(Cost, pending, [s]);
    SumOne(s);
  }

  /** How much an admission discards: nothing as long as everything fits, and otherwise just enough of
      the oldest for half the bound. */
  lemma DiscardsIs(q: Queue, l: Limits, s: Record)
    requires q.bytes == Sum(Cost, q.pending) && Positive(l)
    ensures var all := q.pending + [s];
            if Sum(Cost, all) <= l.queueBytes then Discards(q, l, s) == 0
            else JustEnough(all, Discards(q, l, s), l.queueBytes / 2)
    ensures Overflows(q, l, s) <==> Sum(Cost, q.pending + [s]) > l.queueBytes
  {
    TotalCost(q.pending, s);
    if Sum(Cost, q.pending + [s]) > l.queueBytes {
      ShedIsMinimal(q.pending + [s], q.bytes + Cost(s), l.queueBytes / 2);
    }
  }

  /** The queue after an admission: the new record, numbered next on its stream, is its last; what was
      discarded was discarded from the front, and counted. */
  lemma AdmitIs(q: Queue, l: Limits, r: Record)
    ensures var all := q.pending + [r.(seqNo := LastSeq(q, r.stream) + 1)];
            var after := Admit(q, l, r);
            var n := after.dropped - q.dropped;
            && n == Discards(q, l, all[|q.pending|]) && after.pending == all[n..] && after.closed == q.closed
            && after.last == q.last[r.stream := LastSeq(q, r.stream) + 1]
  {
  }

  /** What is refused, and the first reason that is given. */
  lemma RefusedIff(valid: string -> bool, r: Record, closed: bool)
    ensures Refusal(valid, r, closed).None? <==>
              r.stream != "" && r.kind != "" && valid(Normal(r, 0).data) && !closed
    ensures r.stream == "" ==> Refusal(valid, r, closed) == Some(EmptyStream)
    ensures r.stream != "" && r.kind == "" ==> Refusal(valid, r, closed) == Some(EmptyType)
    ensures r.stream != "" && r.kind != "" && !valid(Normal(r, 0).data) ==>
              Refusal(valid, r, closed) == Some(InvalidData)
  {
  }

  /** Defaults never replace anything, and leave nothing empty. */
  lemma NormalIs(r: Record, now: nat)
    ensures var n := Normal(r, now);
            && n.stream == r.stream && n.kind == r.kind && n.seqNo == r.seqNo
            && (n.data == r.data || (r.data == "" && n.data == "null")) && n.data != ""
            && (n.ts == r.ts || (r.ts == 0 && n.ts == now)) && (now != 0 ==> n.ts != 0)
  {
  }

  /** One destination of a drain. A broken sink refuses every batch. */
  class Sink {
    var log: seq<Record>
    const broken: bool

    constructor (broken: bool)
      ensures log == [] && this.broken == broken
    {
      log, this.broken := [], broken;
    }

    method Write(batch: seq<Record>) returns (ok: bool)
      modifies this
      ensures ok == !broken
      ensures log == if broken then old(log) else old(log) + batch
    {
      ok := !broken;
      if ok {
        log := log + batch;
      }
    }
  }

  class WriteBuffer {
    const limits: Limits
    const valid: string -> bool
    var pending: seq<Record>
    var bytes: int
    var last: map<string, nat>
    var closed: bool
    var dropped: nat
    var signal: bool

    constructor (limits: Limits, valid: string -> bool)
      requires Positive(limits)
      ensures View() == EMPTY && !signal && this.limits == limits && this.valid == valid && Valid()
    {
      this.limits, this.valid := limits, valid;
      pending, bytes, last, closed, dropped, signal := [], 0, map[], false, 0, false;
    }

    ghost function View(): Queue
      reads this
    {
      Queue(pending, bytes, last, closed, dropped)
    }

    ghost predicate Valid()
      reads this
    {
      QueueOk(View(), limits) && Positive(limits)
    }

    /** The checks and defaults before the lock. */
    method Prepare(record: Record, now: nat) returns (err: Option<AppendError>, r: Record)
      ensures err == Refusal(valid, record, false)
      ensures err.None? ==> r == Normal(record, now)
    {
      r := record;
      if record.stream == "" {
        return Some(EmptyStream), r;
      }
      if record.kind == "" {
        return Some(EmptyType), r;
      }
      if r.data == "" {
        r := r.(data := "null");
      }
      if !valid(r.data) {
        return Some(InvalidData), r;
      }
      if r.ts == 0 {
        r := r.(ts := now);
      }
      err := None;
    }

    /** A closed buffer is noticed only under the lock. */
    method Append(record: Record, now: nat) returns (err: Option<AppendError>)
      requires Valid()
      modifies this
      ensures Valid()
      ensures Refusal(valid, record, old(closed)).Some? ==>
                err == Refusal(valid, record, old(closed)) && View() == old(View()) && signal == old(signal)
      ensures Refusal(valid, record, old(closed)).None? ==>
                && View() == Admit(old(View()), limits, Normal(record, now))
                && err == (if Overflows(old(View()), limits, Normal(record, now)) then Some(QueueOverflow) else None)
                && signal == (old(signal) || Full(View(), limits)
                  || Overflows(old(View()), limits, Normal(record, now)))
    {
      var r;
      err, r := Prepare(record, now);
      if err.Some? {
        return;
      }
      if closed {
        return Some(BufferClosed);
      }
      err := Accept(r);
    }

    /** The locked part, and the wake-up that follows it. */
    method Accept(r: Record) returns (err: Option<AppendError>)
      requires Valid()
      modifies this
      ensures Valid() && View() == Admit(old(View()), limits, r)
      ensures err == (if Overflows(old(View()), limits, r) then Some(QueueOverflow) else None)
      ensures signal == (old(signal) || Full(View(), limits) || Overflows(old(View()), limits, r))
    {
      var overflow := AppendLocked(r);
      if |pending| >= limits.watermarkRecords || bytes >= limits.watermarkBytes || overflow {
        Wake();
      }
      err := if overflow then Some(QueueOverflow) else None;
    }

    /** The sequence number is assigned here, and an overflow is reported even though the record
        itself was queued. */
    method AppendLocked(r: Record) returns (overflow: bool)
      requires Valid()
      modifies this`pending, this`bytes, this`last, this`dropped
      ensures Valid()
      ensures View() == Admit(old(View()), limits, r) && overflow == Overflows(old(View()), limits, r)
    {
      ghost var q := View();
      assert QueueOk(q, limits);
      var next := (if r.stream in last then last[r.stream] else 0) + 1;
      last := last[r.stream := next];
      assert r.(seqNo := next) == Stamped(q, r);
      overflow := Enlist(r.(seqNo := next));
      assert View() == Admit(q, limits, r);
      AdmitKeepsQueue(q, limits, r);
    }

    /** The record joins the queue, and an overflow sheds the oldest. */
    method Enlist(s: Record) returns (overflow: bool)
      modifies this`pending, this`bytes, this`dropped
      ensures overflow == Overflows(old(View()), limits, s)
      ensures View() == Enlisted(old(View()), limits, s)
    {
      pending := pending + [s];
      bytes := bytes + Cost(s);
      overflow := bytes > limits.queueBytes;
      if overflow {
        DropOverflowLocked();
      }
    }

    method DropOverflowLocked()
      requires pending != []
      modifies this`pending, this`bytes, this`dropped
      ensures var n := Shed(old(pending), old(bytes), limits.queueBytes / 2);
              && pending == old(pending)[n..]
              && bytes == old(bytes) - Sum(Cost, old(pending)[..n])
              && dropped == old(dropped) + n
    {
      var limit := limits.queueBytes / 2;
      ghost var all, before, n := pending, bytes, 0;
      while bytes > limit && |pending| > 1
        invariant pending != [] && dropped == old(dropped) + n
        invariant ShedSoFar(all, before, limit, n, pending, bytes)
        decreases |pending|
      {
        ShedOne(all, before, limit, n, pending, bytes);
        var oldest := pending[0];
        pending := pending[1..];
        bytes := bytes - (|oldest.data| + |oldest.stream| + |oldest.kind| + 64);
        dropped := dropped + 1;
        n := n + 1;
      }
    }

    method Wake()
      modifies this`signal
      ensures signal
    {
      signal := true;
    }

    method MarkClosed()
      modifies this`closed
      ensures View() == old(View()).(closed := true)
    {
      closed := true;
    }

    /** The locked part of `drain`. */
    method TakeLocked() returns (batch: seq<Record>)
      requires Valid()
      modifies this`pending, this`bytes
      ensures Valid()
      ensures batch == old(pending)
      ensures View() == old(View()).(pending := [], bytes := 0)
    {
      batch := pending;
      if |pending| == 0 {
        assert bytes == 0;
        return;
      }
      pending := [];
      bytes := 0;
    }

    /** A drain nobody interrupts: the batch reaches the sinks in order and stops at the first one
        that refuses it. The queue is empty either way. */
    method Drain(sinks: seq<Sink>) returns (ok: bool)
      requires Valid() && Distinct(sinks)
      modifies this`pending, this`bytes, set s | s in sinks
      ensures Valid() && View() == old(View()).(pending := [], bytes := 0)
      ensures ok <==> old(pending) == [] || forall i :: 0 <= i < |sinks| ==> !sinks[i].broken
      ensures forall i :: 0 <= i < |sinks| ==>
                sinks[i].log == if exists j :: 0 <= j <= i && sinks[j].broken then old(sinks[i].log)
                                else old(sinks[i].log) + old(pending)
    {
      var batch := TakeLocked();
      if |batch| == 0 {
        return true;
      }
      for i := 0 to |sinks|
        invariant Valid() && View() == old(View()).(pending := [], bytes := 0)
        invariant forall j :: 0 <= j < i ==> !sinks[j].broken && sinks[j].log == old(sinks[j].log) + batch
        invariant forall j :: i <= j < |sinks| ==> sinks[j].log == old(sinks[j].log)
      {
        ok := sinks[i].Write(batch);
        if !ok {
          return;
        }
      }
      ok := true;
    }
  }
}
