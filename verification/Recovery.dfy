/** Recovery and reindexing (internal/engine/storage/recovery.go and reindex.go): repair the
    journal, replay what lies above the checkpoint, or rebuild the ledger from the journal. */
module Recovery {
  import opened Common
  import opened WriteBuffer
  import opened Journal
  import opened JournalRepair
  import opened Ledger

  const BROKER_MESSAGE: string := "broker_msg"
  const PARTIAL_STREAM: string := "partial_stream"

  predicate WellFormed(r: Record) {
    r.kind != "" && r.stream != ""
  }

  function Count(p: Record -> bool, rs: seq<Record>): nat {
    if rs == [] then 0 else Count(p, rs[..|rs| - 1]) + if p(rs[|rs| - 1]) then 1 else 0
  }

  /** The records a recovery replays. */
  function Above(rs: seq<Record>, checkpoint: int): seq<Record> {
    if rs == [] then []
    else
      var last := rs[|rs| - 1];
      Above(rs[..|rs| - 1], checkpoint) + if WellFormed(last) && last.seqNo > checkpoint then [last] else []
  }

  predicate NoNegative(rs: seq<Record>) {
    forall i :: 0 <= i < |rs| ==> rs[i].seqNo >= 0
  }

  /** What a recovery of one stream makes of the tables; `None` when it fails. */
  function Recovered(c: Codec<Record>, d: Decoders, file: seq<Byte>, t: Tables, checkpoint: int, now: nat)
    : Option<Tables>
  {
    var rs := Parse(c, file).records;
    if NoNegative(rs) then Apply(d, t, Timed(Above(rs, checkpoint), now)) else None
  }

  /** What a rebuild takes from a list of journals, one after the other. */
  function Collected(c: Codec<Record>, files: seq<seq<Byte>>): seq<Record> {
    if files == [] then []
    else Collected(c, files[..|files| - 1]) + Indexable(Parse(c, files[|files| - 1]).records)
  }

  /** What reindexing these journals makes of any ledger. */
  function Reindexed(c: Codec<Record>, d: Decoders, files: seq<seq<Byte>>, now: nat): Option<Tables> {
    Apply(d, NO_ROWS, Timed(Collected(c, files), now))
  }

  function Indexable(rs: seq<Record>): seq<Record> {
    if rs == [] then []
    else
      var last := rs[|rs| - 1];
      Indexable(rs[..|rs| - 1]) + if WellFormed(last) && last.seqNo >= 0 then [last] else []
  }

  datatype Report = Report(records: nat, truncatedBytes: nat, skipped: nat, replayed: nat, skippedReplay: nat,
                           orphaned: nat, incomplete: nat, ledgerAhead: bool)

  datatype Failure = NegativeSequence | LedgerRefused

  predicate IsOrphan(r: Record) { WellFormed(r) && r.kind == BROKER_MESSAGE }
  predicate IsPartial(r: Record) { WellFormed(r) && r.kind == PARTIAL_STREAM }
  predicate IsMalformed(r: Record) { !WellFormed(r) }

  // ---------------------------------------------------------------------------
  // What is replayed, and what is collected
  // ---------------------------------------------------------------------------

  lemma {:induction false} AboveConcat(a: seq<Record>, b: seq<Record>, checkpoint: int)
    ensures Above(a + b, checkpoint) == Above(a, checkpoint) + Above(b, checkpoint)
  {
    if b == [] {
      assert a + b == a;
    } else {
      assert (a + b)[..|a + b| - 1] == a + b[..|b| - 1];
      AboveConcat(a, b[..|b| - 1], checkpoint);
    }
  }

  /** Exactly the well-formed records above the checkpoint are replayed, in journal order. */
  lemma ReplayedExactly(before: seq<Record>, r: Record, after: seq<Record>, checkpoint: int)
    ensures Above(before + [r] + after, checkpoint)
            == Above(before, checkpoint)
               + (if r.kind != "" && r.stream != "" && r.seqNo > checkpoint then [r] else [])
               + Above(after, checkpoint)
  {
    AboveConcat(before, [r], checkpoint);
    AboveConcat(before + [r], after, checkpoint);
    assert [r][..0] == [];
  }

  lemma {:induction false} CountConcat(p: Record -> bool, a: seq<Record>, b: seq<Record>)
    ensures Count(p, a + b) == Count(p, a) + Count(p, b)
  {
    if b == [] {
      assert a + b == a;
    } else {
      assert (a + b)[..|a + b| - 1] == a + b[..|b| - 1];
      CountConcat(p, a, b[..|b| - 1]);
    }
  }

  lemma CountedOne(p: Record -> bool, before: seq<Record>, r: Record, after: seq<Record>)
    ensures Count(p, before + [r] + after) == Count(p, before) + (if p(r) then 1 else 0) + Count(p, after)
  {
    CountConcat(p, before, [r]);
    CountConcat(p, before + [r], after);
    assert [r][..0] == [];
  }

  /** Every record that lacks its kind or its stream counts as skipped, every other one that is a broker
      message as orphaned, and every other one that is an unfinished stream as incomplete. */
  lemma CountedExactly(before: seq<Record>, r: Record, after: seq<Record>)
    ensures Count(IsMalformed, before + [r] + after)
            == Count(IsMalformed, before) + (if r.kind == "" || r.stream == "" then 1 else 0)
               + Count(IsMalformed, after)
    ensures Count(IsOrphan, before + [r] + after)
            == Count(IsOrphan, before) + (if r.kind == "broker_msg" && r.stream != "" then 1 else 0)
               + Count(IsOrphan, after)
    ensures Count(IsPartial, before + [r] + after)
            == Count(IsPartial, before) + (if r.kind == "partial_stream" && r.stream != "" then 1 else 0)
               + Count(IsPartial, after)
  {
    CountedOne(IsMalformed, before, r, after);
    CountedOne(IsOrphan, before, r, after);
    CountedOne(IsPartial, before, r, after);
  }

  lemma {:induction false} IndexableConcat(a: seq<Record>, b: seq<Record>)
    ensures Indexable(a + b) == Indexable(a) + Indexable(b)
  {
    if b == [] {
      assert a + b == a;
    } else {
      assert (a + b)[..|a + b| - 1] == a + b[..|b| - 1];
      IndexableConcat(a, b[..|b| - 1]);
    }
  }

  lemma {:induction false} CollectedConcat(c: Codec<Record>, a: seq<seq<Byte>>, b: seq<seq<Byte>>)
    ensures Collected(c, a + b) == Collected(c, a) + Collected(c, b)
  {
    if b == [] {
      assert a + b == a;
    } else {
      assert (a + b)[..|a + b| - 1] == a + b[..|b| - 1];
      CollectedConcat(c, a, b[..|b| - 1]);
    }
  }

  /** Exactly the records with a kind, a stream and a number are collected, from every journal, journal
      by journal and in the order they stand in each. */
  lemma CollectedExactly(c: Codec<Record>, before: seq<seq<Byte>>, file: seq<Byte>, after: seq<seq<Byte>>,
                         front: seq<Record>, r: Record, back: seq<Record>)
    requires Parse(c, file).records == front + [r] + back
    ensures Collected(c, before + [file] + after)
            == Collected(c, before)
               + (Indexable(front)
                  + (if r.kind != "" && r.stream != "" && r.seqNo >= 0 then [r] else [])
                  + Indexable(back))
               + Collected(c, after)
  {
    CollectedConcat(c, before, [file]);
    CollectedConcat(c, before + [file], after);
    IndexableConcat(front, [r]);
    IndexableConcat(front + [r], back);
    OneJournal(c, file);
    assert [r][..0] == [];
  }

  lemma OneJournal(c: Codec<Record>, file: seq<Byte>)
    ensures Collected(c, [file]) == Indexable(Parse(c, file).records)
  {
    assert [file][..0] == [] && Collected(c, [file][..0]) == [];
  }

  /** A record is collected if and only if it stands in one of the journals and can be indexed. */
  lemma {:induction false} CollectedIff(c: Codec<Record>, files: seq<seq<Byte>>, r: Record)
    ensures r in Collected(c, files) <==>
              WellFormed(r) && r.seqNo >= 0 && exists k :: 0 <= k < |files| && r in Parse(c, files[k]).records
  {
    if files != [] {
      var init, last := files[..|files| - 1], files[|files| - 1];
      CollectedIff(c, init, r);
      IndexableIff(Parse(c, last).records, r);
      assert forall k :: 0 <= k < |init| ==> init[k] == files[k];
    }
  }

  lemma {:induction false} IndexableIff(rs: seq<Record>, r: Record)
    ensures r in Indexable(rs) <==> r in rs && WellFormed(r) && r.seqNo >= 0
  {
    if rs != [] {
      IndexableIff(rs[..|rs| - 1], r);
      assert rs == rs[..|rs| - 1] + [rs[|rs| - 1]];
    }
  }

  method HighestSequence(rs: seq<Record>) returns (highest: Option<int>)
    ensures highest.Some? <==> NoNegative(rs)
    ensures highest.None? <==> exists i :: 0 <= i < |rs| && rs[i].seqNo < 0
    ensures highest.Some? ==> highest.value >= 0 && (forall i :: 0 <= i < |rs| ==> rs[i].seqNo <= highest.value)
    ensures highest.Some? && highest.value > 0 ==> exists i :: 0 <= i < |rs| && rs[i].seqNo == highest.value
  {
    var top := 0;
    for i := 0 to |rs|
      invariant top >= 0 && forall j :: 0 <= j < i ==> 0 <= rs[j].seqNo <= top
      invariant top > 0 ==> exists j :: 0 <= j < i && rs[j].seqNo == top
    {
      if rs[i].seqNo < 0 {
        return None;
      }
      if rs[i].seqNo > top {
        top := rs[i].seqNo;
      }
    }
    highest := Some(top);
  }

  /** Repairs one journal and replays it. The journal is repaired before anything can fail. */
  method RecoverStream(journal: JournalSink<Record>, stream: string, audit: AuditSink?, now: nat)
    returns (result: Result<Report, Failure>)
    modifies journal`file, audit
    ensures var p := Parse(journal.codec, old(journal.file));
            Truncated(old(journal.file), p.partial) == Some(journal.file)
    ensures audit != null ==> audit.checkpoints == old(audit.checkpoints) && audit.closed == old(audit.closed)
    ensures audit != null ==>
              var rs := Parse(journal.codec, old(journal.file)).records;
              var checkpoint := CheckpointOf(audit.checkpoints, stream);
              var before := old(audit.View());
              var outcome := Recovered(journal.codec, audit.decoders, old(journal.file), before, checkpoint, now);
              if result.Ok? then outcome == Some(audit.View())
              else audit.View() == old(audit.View()) && (audit.closed || outcome.None?)
    ensures result.Err? && result.error.NegativeSequence?
            <==> var rs := Parse(journal.codec, old(journal.file)).records; exists i :: 0 <= i < |rs| && rs[i].seqNo < 0
    ensures audit == null && NoNegative(Parse(journal.codec, old(journal.file)).records) ==> result.Ok?
    ensures result.Ok? ==>
              var p := Parse(journal.codec, old(journal.file));
              var checkpoint := if audit == null then 0 else CheckpointOf(audit.checkpoints, stream);
              var r := result.value;
              && r.records == |p.records| && r.truncatedBytes == |p.partial|
              && r.skipped == Count(IsMalformed, p.records)
              && r.skipped + |Above(p.records, checkpoint)| + r.skippedReplay == r.records
              && r.replayed == (if audit == null then 0 else |Above(p.records, checkpoint)|)
              && r.orphaned == Count(IsOrphan, p.records) && r.incomplete == Count(IsPartial, p.records)
              && (r.ledgerAhead <==>
                    && audit != null && checkpoint > 0
                    && forall i :: 0 <= i < |p.records| ==> p.records[i].seqNo < checkpoint)
  {
    var records, partial := ReadJournal(journal.codec, journal.file);
    RepairIs(journal.codec, journal.file);
    var repaired := journal.TruncatePartial(partial);
    var checkpoint := 0;
    if audit != null {
      checkpoint := audit.LastAppliedSeq(stream);
    }
    var highest := HighestSequence(records);
    if highest.None? {
      return Err(NegativeSequence);
    }
    var replay, skipped, skippedReplay, orphaned, incomplete := Sift(records, checkpoint);
    var replayed := 0;
    if audit != null && |replay| > 0 {
      var ok := audit.Write(replay, now);
      if !ok {
        return Err(LedgerRefused);
      }
      replayed := |replay|;
    }
    result := Ok(Report(|records|, |partial|, skipped, replayed, skippedReplay, orphaned, incomplete,
                        audit != null && checkpoint > highest.value));
  }

  /** The loop over the journal's records. */
  method Sift(records: seq<Record>, checkpoint: int)
    returns (replay: seq<Record>, skipped: nat, skippedReplay: nat, orphaned: nat, incomplete: nat)
    ensures replay == Above(records, checkpoint)
    ensures skipped == Count(IsMalformed, records)
    ensures skipped + |replay| + skippedReplay == |records|
    ensures orphaned == Count(IsOrphan, records) && incomplete == Count(IsPartial, records)
  {
    replay, skipped, skippedReplay, orphaned, incomplete := [], 0, 0, 0, 0;
    for i := 0 to |records|
      invariant replay == Above(records[..i], checkpoint)
      invariant skipped == Count(IsMalformed, records[..i]) && skipped + |replay| + skippedReplay == i
      invariant orphaned == Count(IsOrphan, records[..i]) && incomplete == Count(IsPartial, records[..i])
    {
      var r := records[i];
      assert records[..i + 1][..i] == records[..i];
      if r.kind == "" || r.stream == "" {
        skipped := skipped + 1;
        continue;
      }
      if r.seqNo > checkpoint {
        replay := replay + [r];
      } else {
        skippedReplay := skippedReplay + 1;
      }
      if r.kind == BROKER_MESSAGE {
        orphaned := orphaned + 1;
      } else if r.kind == PARTIAL_STREAM {
        incomplete := incomplete + 1;
      }
    }
    assert records[..|records|] == records;
  }

  /** The files of a list of journals. */
  function Files(journals: seq<JournalSink<Record>>): (files: seq<seq<Byte>>)
    reads journals
    ensures |files| == |journals| && forall i :: 0 <= i < |journals| ==> files[i] == journals[i].file
  {
    seq(|journals|, i requires 0 <= i < |journals| reads journals => journals[i].file)
  }

  /** Every record of one journal that can be indexed, and the journal repaired. */
  method CollectJournal(journal: JournalSink<Record>) returns (all: seq<Record>)
    modifies journal`file
    ensures Truncated(old(journal.file), Parse(journal.codec, old(journal.file)).partial) == Some(journal.file)
    ensures all == Indexable(Parse(journal.codec, old(journal.file)).records)
  {
    var records, partial := ReadJournal(journal.codec, journal.file);
    RepairIs(journal.codec, journal.file);
    var repaired := journal.TruncatePartial(partial);
    all := KeepIndexable(records);
  }

  /** The loop over one journal's records. */
  method KeepIndexable(records: seq<Record>) returns (all: seq<Record>)
    ensures all == Indexable(records)
  {
    all := [];
    for i := 0 to |records|
      invariant all == Indexable(records[..i])
    {
      assert records[..i + 1][..i] == records[..i];
      if records[i].kind == "" || records[i].stream == "" || records[i].seqNo < 0 {
        continue;
      }
      all := all + [records[i]];
    }
    assert records[..|records|] == records;
  }

  /** Reads every journal of a scope, repairing each. */
  method CollectJournalRecords(c: Codec<Record>, journals: seq<JournalSink<Record>>) returns (all: seq<Record>)
    requires Distinct(journals) && forall i :: 0 <= i < |journals| ==> journals[i].codec == c
    modifies journals
    ensures forall i :: 0 <= i < |journals| ==>
              Truncated(old(journals[i].file), Parse(c, old(journals[i].file)).partial) == Some(journals[i].file)
    ensures all == Collected(c, old(Files(journals)))
  {
    ghost var files := Files(journals);
    all := [];
    for i := 0 to |journals|
      invariant forall k :: 0 <= k < i ==> Truncated(files[k], Parse(c, files[k]).partial) == Some(journals[k].file)
      invariant forall k :: i <= k < |journals| ==> journals[k].file == files[k]
      invariant all == Collected(c, files[..i])
    {
      var some := CollectJournal(journals[i]);
      assert files[..i + 1][..i] == files[..i];
      all := all + some;
    }
    assert files[..|journals|] == files;
  }

  lemma RebuiltRows(d: Decoders, rs: seq<Record>)
    requires AllStorable(d, rs)
    ensures Apply(d, NO_ROWS, rs) == Some(Tables(LastWrites(d, rs), FirstWrites(d, rs)))
  {
    StoreAllIs(d, NO_ROWS, rs);
    assert map[] + LastWrites(d, rs) == LastWrites(d, rs) && FirstWrites(d, rs) + map[] == FirstWrites(d, rs);
  }

  /** Rebuilds the ledger from the journals. */
  method Reindex(c: Codec<Record>, journals: seq<JournalSink<Record>>, audit: AuditSink, now: nat) returns (ok: bool)
    requires Distinct(journals) && forall i :: 0 <= i < |journals| ==> journals[i].codec == c
    modifies journals, audit
    ensures forall i :: 0 <= i < |journals| ==>
              Truncated(old(journals[i].file), Parse(c, old(journals[i].file)).partial) == Some(journals[i].file)
    ensures ok ==>
              var all := Timed(Collected(c, old(Files(journals))), now);
              audit.View() == Tables(LastWrites(audit.decoders, all), FirstWrites(audit.decoders, all))
    ensures var outcome := Reindexed(c, audit.decoders, old(Files(journals)), now);
            if ok then outcome == Some(audit.View()) && audit.checkpoints == map[]
            else old(audit.closed) || outcome.None?
  {
    var all := CollectJournalRecords(c, journals);
    ok := audit.Rebuild(all, now);
    if ok {
      RebuiltRows(audit.decoders, Timed(all, now));
    }
  }
}
