/** Replay convergence: a crash anywhere, one recovery, and the ledger agrees with the journal. */
module RecoveryConverges {
  import opened Common
  import opened WriteBuffer
  import opened WriteBufferRuns
  import opened Journal
  import opened Ledger
  import opened Recovery

  /** The journal of one stream as the write buffer produces it: typed, timed records of that
      stream, numbered upwards. */
  ghost predicate OneStream(rs: seq<Record>, stream: string) {
    && stream != ""
    && (forall i :: 0 <= i < |rs| ==> rs[i].stream == stream && rs[i].kind != "" && rs[i].ts != 0 && rs[i].seqNo >= 1)
    && Increasing(rs)
  }

  lemma PrefixOneStream(rs: seq<Record>, stream: string, n: nat)
    requires OneStream(rs, stream) && n <= |rs|
    ensures OneStream(rs[..n], stream)
  {
  }

  lemma {:induction false} AboveNone(rs: seq<Record>, checkpoint: int)
    requires forall i :: 0 <= i < |rs| ==> rs[i].seqNo <= checkpoint
    ensures Above(rs, checkpoint) == []
  {
    if rs != [] {
      AboveNone(rs[..|rs| - 1], checkpoint);
    }
  }

  /** Along one stream numbers grow, so what lies above the checkpoint is a suffix. */
  lemma {:induction false} AboveIsSuffix(rs: seq<Record>, stream: string, checkpoint: int) returns (j: nat)
    requires OneStream(rs, stream)
    ensures j <= |rs| && Above(rs, checkpoint) == rs[j..]
    ensures forall i :: 0 <= i < |rs| ==> (rs[i].seqNo > checkpoint <==> i >= j)
  {
    if rs == [] {
      j := 0;
    } else if rs[|rs| - 1].seqNo > checkpoint {
      PrefixOneStream(rs, stream, |rs| - 1);
      j := AboveIsSuffix(rs[..|rs| - 1], stream, checkpoint);
      AboveSnoc(rs, j, checkpoint);
    } else {
      j := |rs|;
      assert forall i :: 0 <= i < |rs| - 1 ==> rs[i].seqNo < rs[|rs| - 1].seqNo;
      AboveNone(rs, checkpoint);
    }
  }

  lemma AboveSnoc(rs: seq<Record>, j: nat, checkpoint: int)
    requires rs != [] && WellFormed(rs[|rs| - 1]) && rs[|rs| - 1].seqNo > checkpoint && j < |rs|
    requires Above(rs[..|rs| - 1], checkpoint) == rs[..|rs| - 1][j..]
    requires forall i :: 0 <= i < |rs| - 1 ==> (rs[i].seqNo > checkpoint <==> i >= j)
    ensures Above(rs, checkpoint) == rs[j..]
    ensures forall i :: 0 <= i < |rs| ==> (rs[i].seqNo > checkpoint <==> i >= j)
  {
    assert rs[..|rs| - 1][j..] + [rs[|rs| - 1]] == rs[j..];
  }

  lemma TimedAlready(rs: seq<Record>, now: nat)
    requires forall i :: 0 <= i < |rs| ==> rs[i].ts != 0
    ensures Timed(rs, now) == rs
  {
  }

  /** Applying an overlapping stretch again changes nothing: a ledger holding the first `k` records
      and then given the records from `j <= k` on ends as if given all of them once. */
  lemma OverlapIsHarmless(d: Decoders, rs: seq<Record>, j: nat, k: nat)
    requires j <= k <= |rs| && AllStorable(d, rs)
    ensures StoreAll(d, StoreAll(d, NO_ROWS, rs[..k]), rs[j..]) == StoreAll(d, NO_ROWS, rs)
  {
    var a, b, c := rs[..j], rs[j..k], rs[k..];
    assert rs[..k] == a + b && rs[j..] == b + c && rs == a + (b + c);
    StoreAllIs(d, NO_ROWS, rs[..k]);
    StoreAllIs(d, StoreAll(d, NO_ROWS, rs[..k]), rs[j..]);
    StoreAllIs(d, NO_ROWS, rs);
    WritesConcat(d, a, b);
    WritesConcat(d, b, c);
    WritesConcat(d, a, b + c);
    LastOverlap(LastWrites(d, a), LastWrites(d, b), LastWrites(d, c));
    FirstOverlap(FirstWrites(d, a), FirstWrites(d, b), FirstWrites(d, c));
  }

  lemma LastOverlap<K, V>(a: map<K, V>, b: map<K, V>, c: map<K, V>)
    ensures map[] + (a + b) + (b + c) == map[] + (a + (b + c))
  {
  }

  lemma FirstOverlap<K, V>(a: map<K, V>, b: map<K, V>, c: map<K, V>)
    ensures c + b + (b + a + map[]) == c + b + a + map[]
  {
  }

  /** Replay driven by the checkpoint, for one stream: if the ledger holds any prefix of the journal
      that covers every record up to the checkpoint, replaying what lies above it gives the tables
      of the whole journal, and fails exactly when applying the whole journal would. */
  lemma ReplayConverges(d: Decoders, rs: seq<Record>, stream: string, k: nat, checkpoint: int)
    requires OneStream(rs, stream) && k <= |rs| && AllStorable(d, rs[..k])
    requires forall i :: 0 <= i < |rs| && rs[i].seqNo <= checkpoint ==> i < k
    ensures Apply(d, StoreAll(d, NO_ROWS, rs[..k]), Above(rs, checkpoint)) == Apply(d, NO_ROWS, rs)
  {
    var j := AboveIsSuffix(rs, stream, checkpoint);
    if k < |rs| {
      assert rs[k].seqNo > checkpoint;
    }
    if AllStorable(d, rs) {
      OverlapIsHarmless(d, rs, j, k);
    } else {
      assert forall m :: 0 <= m < k ==> rs[..k][m] == rs[m];
      var i :| 0 <= i < |rs| && !Storable(d, rs[i]);
      assert i >= k;
      assert rs[j..][i - j] == rs[i];
    }
  }

  // ---------------------------------------------------------------------------
  // Records as they come back
  // ---------------------------------------------------------------------------

  predicate SameHeader(r: Record, s: Record) {
    r.stream == s.stream && r.seqNo == s.seqNo && r.kind == s.kind && r.ts == s.ts
  }

  /** The ledger makes the same rows of both. */
  ghost predicate StoredAlike(d: Decoders, r: Record, s: Record) {
    SameHeader(r, s) && Storable(d, r) == Storable(d, s)
    && (Storable(d, r) ==> LastWrites(d, [r]) == LastWrites(d, [s]) && FirstWrites(d, [r]) == FirstWrites(d, [s]))
  }

  /** Data that decodes the same is stored the same, except by a message without content: its row
      holds the data itself, as written by an append and as rewritten by the journal after a replay. */
  lemma StoredAlikeIff(d: Decoders, r: Record, s: Record)
    requires SameHeader(r, s) && d.message(r.data) == d.message(s.data) && d.tool(r.data) == d.tool(s.data)
    ensures StoredAlike(d, r, s) <==>
              r.kind != MESSAGE || d.message(r.data).None? || d.message(r.data).value.content != "" || r.data == s.data
  {
    if Storable(d, r) {
      OneWrite(d, r);
      OneWrite(d, s);
      if r.kind == MESSAGE {
        var (key, row) := MessageEntry(d, r, d.message(r.data).value);
        var (other, rewritten) := MessageEntry(d, s, d.message(s.data).value);
        assert key == other && map[key := row][key] == row && map[key := rewritten][key] == rewritten;
      }
    }
  }

  ghost predicate AllStoredAlike(d: Decoders, rs: seq<Record>, ss: seq<Record>) {
    |rs| == |ss| && forall i :: 0 <= i < |rs| ==> StoredAlike(d, rs[i], ss[i])
  }

  lemma {:induction false} SameWrites(d: Decoders, rs: seq<Record>, ss: seq<Record>)
    requires AllStoredAlike(d, rs, ss) && AllStorable(d, rs)
    ensures AllStorable(d, ss) && LastWrites(d, rs) == LastWrites(d, ss) && FirstWrites(d, rs) == FirstWrites(d, ss)
    decreases |rs|
  {
    if rs != [] {
      assert rs == [rs[0]] + rs[1..] && ss == [ss[0]] + ss[1..];
      assert StoredAlike(d, rs[0], ss[0]);
      SameWrites(d, rs[1..], ss[1..]);
      WritesConcat(d, [rs[0]], rs[1..]);
      WritesConcat(d, [ss[0]], ss[1..]);
    }
  }

  lemma SameTables(d: Decoders, t: Tables, rs: seq<Record>, ss: seq<Record>)
    requires AllStoredAlike(d, rs, ss)
    ensures Apply(d, t, rs) == Apply(d, t, ss)
  {
    if AllStorable(d, rs) {
      SameWrites(d, rs, ss);
      StoreAllIs(d, t, rs);
      StoreAllIs(d, t, ss);
    } else {
      var i :| 0 <= i < |rs| && !Storable(d, rs[i]);
      assert StoredAlike(d, rs[i], ss[i]) && !Storable(d, ss[i]);
    }
  }

  lemma SameStream(d: Decoders, rs: seq<Record>, ss: seq<Record>, stream: string)
    requires OneStream(rs, stream) && AllStoredAlike(d, rs, ss)
    ensures OneStream(ss, stream)
  {
    assert forall i :: 0 <= i < |rs| ==> StoredAlike(d, rs[i], ss[i]);
  }

  /** Crash anywhere, recover once. The journal file is cut at any byte, and the ledger holds any
      prefix of what survived that covers the checkpoint. One recovery brings the tables to what
      the surviving journal says; a second one, under any checkpoint, and a reindex agree with it.
      That the journal rewrites the data of a record must make no difference to its row. */
  lemma CrashThenRecover(c: Codec<Record>, d: Decoders, rs: seq<Record>, stream: string, n: nat, k: nat,
                         checkpoint: int, now: nat)
    requires Lawful(c) && OneStream(rs, stream) && n <= |Encoded(c, rs)| && k <= Whole(c, rs, n)
    requires AllStoredAlike(d, rs, Canon(c, rs)) && AllStorable(d, rs[..k])
    requires forall i :: 0 <= i < Whole(c, rs, n) && rs[i].seqNo <= checkpoint ==> i < k
    ensures var file := Encoded(c, rs)[..n];
            var kept := rs[..Whole(c, rs, n)];
            var target := Apply(d, NO_ROWS, kept);
            && Recovered(c, d, file, StoreAll(d, NO_ROWS, rs[..k]), checkpoint, now) == target
            && Truncated(file, Parse(c, file).partial).Some?
            && var repaired := Truncated(file, Parse(c, file).partial).value;
               && Reindexed(c, d, [repaired], now) == target
               && (target.Some? ==> forall later :: Recovered(c, d, repaired, target.value, later, now) == target)
  {
    var file, kept := Encoded(c, rs)[..n], rs[..Whole(c, rs, n)];
    CutAnywhere(c, rs, n);
    PrefixOneStream(rs, stream, |kept|);
    AlikePrefix(d, rs, Canon(c, rs), |kept|);
    assert Canon(c, rs)[..|kept|] == Canon(c, kept) && kept[..k] == rs[..k];
    BackFromFile(c, d, kept, Canon(c, kept), stream, k, checkpoint, now, file);
    AgainFromFile(c, d, kept, Canon(c, kept), stream, now, Truncated(file, Parse(c, file).partial).value);
  }

  lemma BackFromFile(c: Codec<Record>, d: Decoders, kept: seq<Record>, back: seq<Record>, stream: string, k: nat,
                     checkpoint: int, now: nat, file: seq<Byte>)
    requires OneStream(kept, stream) && AllStoredAlike(d, kept, back) && Parse(c, file).records == back
    requires k <= |kept| && AllStorable(d, kept[..k])
    requires forall i :: 0 <= i < |kept| && kept[i].seqNo <= checkpoint ==> i < k
    ensures Recovered(c, d, file, StoreAll(d, NO_ROWS, kept[..k]), checkpoint, now) == Apply(d, NO_ROWS, kept)
  {
    SameTables(d, NO_ROWS, kept, back);
    SameStream(d, kept, back, stream);
    SamePrefix(d, kept, back, k);
    assert forall i :: 0 <= i < |kept| ==> StoredAlike(d, kept[i], back[i]);
    RecoverKept(c, d, back, stream, back[..k], checkpoint, now, file);
  }

  lemma AgainFromFile(c: Codec<Record>, d: Decoders, kept: seq<Record>, back: seq<Record>, stream: string, now: nat,
                      file: seq<Byte>)
    requires OneStream(kept, stream) && AllStoredAlike(d, kept, back) && Parse(c, file).records == back
    ensures var target := Apply(d, NO_ROWS, kept);
            && Reindexed(c, d, [file], now) == target
            && (target.Some? ==> forall later :: Recovered(c, d, file, target.value, later, now) == target)
  {
    SameTables(d, NO_ROWS, kept, back);
    SameStream(d, kept, back, stream);
    ReindexKept(c, d, back, stream, now, file);
    if AllStorable(d, back) {
      forall later ensures Recovered(c, d, file, StoreAll(d, NO_ROWS, back), later, now) == Apply(d, NO_ROWS, back) {
        AgainKept(c, d, back, stream, later, now, file);
      }
    }
  }

  lemma AlikePrefix(d: Decoders, rs: seq<Record>, ss: seq<Record>, k: nat)
    requires AllStoredAlike(d, rs, ss) && k <= |rs|
    ensures AllStoredAlike(d, rs[..k], ss[..k])
  {
    assert forall i :: 0 <= i < k ==> rs[..k][i] == rs[i] && ss[..k][i] == ss[i];
  }

  lemma SamePrefix(d: Decoders, rs: seq<Record>, ss: seq<Record>, k: nat)
    requires AllStoredAlike(d, rs, ss) && k <= |rs| && AllStorable(d, rs[..k])
    ensures AllStorable(d, ss[..k]) && StoreAll(d, NO_ROWS, rs[..k]) == StoreAll(d, NO_ROWS, ss[..k])
  {
    AlikePrefix(d, rs, ss, k);
    SameTables(d, NO_ROWS, rs[..k], ss[..k]);
  }

  lemma ReindexKept(c: Codec<Record>, d: Decoders, kept: seq<Record>, stream: string, now: nat, file: seq<Byte>)
    requires OneStream(kept, stream) && Parse(c, file).records == kept
    ensures Reindexed(c, d, [file], now) == Apply(d, NO_ROWS, kept)
  {
    AllIndexable(kept, stream);
    OneJournal(c, file);
    TimedAlready(kept, now);
  }

  lemma AgainKept(c: Codec<Record>, d: Decoders, kept: seq<Record>, stream: string, later: int, now: nat,
                  file: seq<Byte>)
    requires OneStream(kept, stream) && Parse(c, file).records == kept && AllStorable(d, kept)
    ensures Recovered(c, d, file, StoreAll(d, NO_ROWS, kept), later, now) == Apply(d, NO_ROWS, kept)
  {
    assert kept[..|kept|] == kept;
    RecoverKept(c, d, kept, stream, kept, later, now, file);
  }

  /** Recovering any file that reads back as `kept`, over a ledger holding a prefix of it. */
  lemma RecoverKept(c: Codec<Record>, d: Decoders, kept: seq<Record>, stream: string, applied: seq<Record>,
                    checkpoint: int, now: nat, file: seq<Byte>)
    requires OneStream(kept, stream) && |applied| <= |kept| && applied == kept[..|applied|] && AllStorable(d, applied)
    requires forall i :: 0 <= i < |kept| && kept[i].seqNo <= checkpoint ==> i < |applied|
    requires Parse(c, file).records == kept
    ensures Recovered(c, d, file, StoreAll(d, NO_ROWS, applied), checkpoint, now) == Apply(d, NO_ROWS, kept)
  {
    AboveTimed(kept, stream, checkpoint, now);
    ReplayConverges(d, kept, stream, |applied|, checkpoint);
  }

  lemma AboveTimed(rs: seq<Record>, stream: string, checkpoint: int, now: nat)
    requires OneStream(rs, stream)
    ensures Timed(Above(rs, checkpoint), now) == Above(rs, checkpoint) && NoNegative(rs)
  {
    var j := AboveIsSuffix(rs, stream, checkpoint);
    TimedAlready(rs[j..], now);
  }

  lemma {:induction false} IndexableKeeps(rs: seq<Record>)
    requires forall i :: 0 <= i < |rs| ==> WellFormed(rs[i]) && rs[i].seqNo >= 0
    ensures Indexable(rs) == rs
    decreases |rs|
  {
    if rs != [] {
      IndexableKeeps(rs[..|rs| - 1]);
      assert rs == rs[..|rs| - 1] + [rs[|rs| - 1]];
    }
  }

  lemma AllIndexable(rs: seq<Record>, stream: string)
    requires OneStream(rs, stream)
    ensures Indexable(rs) == rs
  {
    IndexableKeeps(rs);
  }

  /** A ledger ahead of its journal wins: when the checkpoint is above everything the journal still
      holds, recovery replays nothing. */
  lemma LedgerAheadWins(rs: seq<Record>, stream: string, checkpoint: int)
    requires OneStream(rs, stream) && forall i :: 0 <= i < |rs| ==> rs[i].seqNo < checkpoint
    ensures Above(rs, checkpoint) == []
  {
    var j := AboveIsSuffix(rs, stream, checkpoint);
    if rs != [] {
      assert rs[|rs| - 1].seqNo < checkpoint;
    }
  }

  /** When the journal lost records the ledger has but the checkpoint does not cover them, replay
      leaves the tool calls alone, and leaves the messages alone exactly when no lost record
      rewrote a replayed message with another row. */
  lemma LedgerAheadReplay(d: Decoders, rs: seq<Record>, stream: string, kept: nat, k: nat, checkpoint: int)
    requires OneStream(rs, stream) && kept <= k <= |rs| && AllStorable(d, rs[..k])
    ensures AllStorable(d, Above(rs[..kept], checkpoint))
    ensures var before := StoreAll(d, NO_ROWS, rs[..k]);
            var replay := Above(rs[..kept], checkpoint);
            var lost := LastWrites(d, rs[kept..k]);
            && StoreAll(d, before, replay).tools == before.tools
            && (StoreAll(d, before, replay).messages == before.messages <==>
                  forall key :: key in LastWrites(d, replay) && key in lost ==> LastWrites(d, replay)[key] == lost[key])
  {
    PrefixOneStream(rs, stream, kept);
    var j := AboveIsSuffix(rs[..kept], stream, checkpoint);
    assert rs[..kept][j..] == rs[j..kept];
    OverlapBelowLoss(d, rs, j, kept, k);
  }

  lemma OverlapBelowLoss(d: Decoders, rs: seq<Record>, j: nat, kept: nat, k: nat)
    requires j <= kept <= k <= |rs| && AllStorable(d, rs[..k])
    ensures AllStorable(d, rs[j..kept])
    ensures var before := StoreAll(d, NO_ROWS, rs[..k]);
            var replay := rs[j..kept];
            var lost := LastWrites(d, rs[kept..k]);
            && StoreAll(d, before, replay).tools == before.tools
            && (StoreAll(d, before, replay).messages == before.messages <==>
                  forall key :: key in LastWrites(d, replay) && key in lost ==> LastWrites(d, replay)[key] == lost[key])
  {
    var a, b, l := rs[..j], rs[j..kept], rs[kept..k];
    assert rs[..k] == a + (b + l);
    assert forall i :: 0 <= i < |b| ==> b[i] == rs[..k][j + i];
    StoreAllIs(d, NO_ROWS, rs[..k]);
    StoreAllIs(d, StoreAll(d, NO_ROWS, rs[..k]), b);
    WritesConcat(d, a, b + l);
    WritesConcat(d, b, l);
    LostOverwrites(LastWrites(d, a), LastWrites(d, b), LastWrites(d, l));
    FirstKept(FirstWrites(d, a), FirstWrites(d, b), FirstWrites(d, l));
  }

  lemma LostOverwrites<K, V>(a: map<K, V>, b: map<K, V>, lost: map<K, V>)
    ensures map[] + (a + (b + lost)) + b == map[] + (a + (b + lost))
            <==> forall key :: key in b && key in lost ==> b[key] == lost[key]
  {
    var before := map[] + (a + (b + lost));
    if before + b == before {
      forall key | key in b && key in lost ensures b[key] == lost[key] {
        assert (before + b)[key] == b[key];
      }
    }
  }

  lemma FirstKept<K, V>(a: map<K, V>, b: map<K, V>, lost: map<K, V>)
    ensures b + (lost + b + a + map[]) == lost + b + a + map[]
  {
  }
}
