/** Repairing a journal file, whatever it holds (internal/engine/storage/journal.go): when the repair
    removes the remnant and nothing else. */
module JournalRepair {
  import opened Common
  import opened Journal

  /** Where the remnant that stopped the reading starts. */
  function RemnantAt<R>(c: Codec<R>, file: seq<Byte>): (at: nat)
    ensures at <= |file|
    decreases |file|
  {
    if file == [] then 0
    else
      var n := LineLength(file);
      var line := TrimLineEnd(file[..n]);
      if line != [] && c.dec(line).None? then 0 else n + RemnantAt(c, file[n..])
  }

  lemma {:induction false} TrimIsPrefix(line: seq<Byte>)
    ensures TrimLineEnd(line) <= line
    ensures forall k :: |TrimLineEnd(line)| <= k < |line| ==> line[k] == NEWLINE || line[k] == RETURN
  {
    if line != [] {
      TrimIsPrefix(line[..|line| - 1]);
    }
  }

  /** Line ends behind a trimmed line are trimmed. */
  lemma {:induction false} TrimMore(line: seq<Byte>, k: nat)
    requires |TrimLineEnd(line)| <= k <= |line|
    ensures TrimLineEnd(line[..k]) == TrimLineEnd(line)
    decreases |line|
  {
    if k == |line| {
      assert line[..k] == line;
    } else {
      assert line[..|line| - 1][..k] == line[..k];
      TrimMore(line[..|line| - 1], k);
    }
  }

  lemma {:induction false} TrimAll(line: seq<Byte>)
    requires NEWLINE !in line
    ensures TrimLineEnd(line) == [] <==> forall k :: 0 <= k < |line| ==> line[k] == RETURN
  {
    if line != [] {
      assert forall k :: 0 <= k < |line| - 1 ==> line[..|line| - 1][k] == line[k];
      TrimAll(line[..|line| - 1]);
    }
  }

  predicate StandsAt(file: seq<Byte>, at: nat, part: seq<Byte>) {
    at + |part| <= |file| && file[at..at + |part|] == part
  }

  lemma StandsLater(file: seq<Byte>, n: nat, at: nat, part: seq<Byte>)
    requires n <= |file| && StandsAt(file[n..], at, part)
    ensures StandsAt(file, n + at, part) && file[n + at + |part|..] == file[n..][at + |part|..]
    ensures file[..n + at] == file[..n] + file[n..][..at]
  {
    assert file[n + at..n + at + |part|] == file[n..][at..at + |part|];
  }

  lemma StandsFirst(line: seq<Byte>, file: seq<Byte>)
    requires line <= file
    ensures StandsAt(file, 0, TrimLineEnd(line))
  {
    TrimIsPrefix(line);
  }

  /** The remnant is where it was found. */
  lemma {:induction false} RemnantThere<R>(c: Codec<R>, file: seq<Byte>)
    ensures StandsAt(file, RemnantAt(c, file), Parse(c, file).partial)
    decreases |file|
  {
    if file != [] {
      var n := LineLength(file);
      var line := TrimLineEnd(file[..n]);
      if line != [] && c.dec(line).None? {
        StandsFirst(file[..n], file);
      } else {
        RemnantThere(c, file[n..]);
        StandsLater(file, n, RemnantAt(c, file[n..]), Parse(c, file[n..]).partial);
      }
    }
  }

  /** What stands behind the remnant. */
  function Behind<R>(c: Codec<R>, file: seq<Byte>): seq<Byte> {
    RemnantThere(c, file);
    file[RemnantAt(c, file) + |Parse(c, file).partial|..]
  }

  /** A repair leaves the records and no remnant: nothing stands behind the remnant, or so little
      that what the repair leaves of it is white space. */
  predicate RepairComplete(partial: seq<Byte>, behind: seq<Byte>) {
    partial == [] || (|behind| < |partial| && forall k :: 0 <= k < |behind| ==> partial[k] == RETURN)
  }

  /** A file whose first line is the remnant. */
  lemma RepairFirstLine<R>(c: Codec<R>, file: seq<Byte>, partial: seq<Byte>)
    requires file != [] && partial == TrimLineEnd(file[..LineLength(file)]) != [] && c.dec(partial).None?
    ensures |partial| <= |file|
    ensures Parse(c, file[..|file| - |partial|]) == Parsed([], []) <==> RepairComplete(partial, file[|partial|..])
  {
    var line := file[..LineLength(file)];
    TrimIsPrefix(line);
    var m := |file| - |partial|;
    var left := file[..m];
    if m >= |line| {
      SameFirstLine(file, m);
    } else if m >= |partial| {
      PartOfLine(file, m);
      TrimMore(line, m);
      assert line[..m] == left && left[..m] == left;
    } else if m > 0 {
      PartOfLine(file, m);
      TrimAll(left);
      assert left[..m] == left && left[m..] == [];
    }
  }

  lemma SameFirstLine(file: seq<Byte>, m: nat)
    requires LineLength(file) <= m <= |file| && 0 < m < |file|
    ensures LineLength(file[..m]) == LineLength(file) && file[..m][..LineLength(file)] == file[..LineLength(file)]
  {
    var i := IndexOf(file, NEWLINE);
    assert file[..m][..i] == file[..i];
    if i < m {
      IndexOfFirst(file[..m], NEWLINE, i);
    }
  }

  lemma PartOfLine(file: seq<Byte>, m: nat)
    requires m < LineLength(file)
    ensures NEWLINE !in file[..m] && LineLength(file[..m]) == m
  {
    var i := IndexOf(file, NEWLINE);
    assert forall k :: 0 <= k < m ==> file[k] == file[..i][k];
  }

  /** The first line, when it is no remnant, stays as it is under a repair. */
  lemma FirstLineStays<R>(c: Codec<R>, file: seq<Byte>, rest: seq<Byte>)
    requires file != [] && LineLength(file) < |file|
    requires var line := TrimLineEnd(file[..LineLength(file)]); line == [] || c.dec(line).Some?
    ensures var n := LineLength(file);
            var line := TrimLineEnd(file[..n]);
            Parse(c, file[..n] + rest) == After(if line == [] then [] else [c.dec(line).value], Parse(c, rest))
  {
    var n := LineLength(file);
    var all := file[..n] + rest;
    assert all[..n - 1] == file[..n - 1];
    IndexOfFirst(all, NEWLINE, n - 1);
    assert all[..n] == file[..n] && all[n..] == rest;
    AfterAfter([], [], Parse(c, rest));
  }

  /** The file after the repair. */
  function Repaired<R>(c: Codec<R>, file: seq<Byte>): seq<Byte> {
    RemnantThere(c, file);
    file[..|file| - |Parse(c, file).partial|]
  }

  /** A remnant is part of its file, so removing it never fails; with nothing behind it, it is
      exactly what is removed. */
  lemma RepairIs<R>(c: Codec<R>, file: seq<Byte>)
    ensures Truncated(file, Parse(c, file).partial) == Some(Repaired(c, file))
    ensures Behind(c, file) == [] ==> Repaired(c, file) == file[..RemnantAt(c, file)]
  {
    RemnantThere(c, file);
    assert file[..|file|] == file;
  }

  lemma AfterSame<R>(rs: seq<R>, p: Parsed<R>, records: seq<R>)
    ensures After(rs, p) == Parsed(rs + records, []) <==> p == Parsed(records, [])
  {
    if After(rs, p) == Parsed(rs + records, []) {
      assert p.records == (rs + p.records)[|rs|..] == (rs + records)[|rs|..] == records;
    }
  }

  lemma SameRemnant<R>(c: Codec<R>, file: seq<Byte>)
    requires file != []
    requires var line := TrimLineEnd(file[..LineLength(file)]); line == [] || c.dec(line).Some?
    ensures Parse(c, file).partial == Parse(c, file[LineLength(file)..]).partial
    ensures RemnantAt(c, file) == LineLength(file) + RemnantAt(c, file[LineLength(file)..])
  {
  }

  lemma TailSlices(file: seq<Byte>, n: nat, at: nat, size: nat)
    requires n <= |file| && at + size <= |file| - n
    ensures file[..|file| - size] == file[..n] + file[n..][..|file| - n - size]
    ensures file[n + at + size..] == file[n..][at + size..]
  {
  }

  lemma SlicedAt<R>(c: Codec<R>, file: seq<Byte>, at: nat, size: nat)
    requires at == RemnantAt(c, file) && size == |Parse(c, file).partial|
    ensures at + size <= |file| && Repaired(c, file) == file[..|file| - size] && Behind(c, file) == file[at + size..]
  {
    RemnantThere(c, file);
  }

  lemma RepairedBehind<R>(c: Codec<R>, file: seq<Byte>, rest: seq<Byte>)
    requires file != [] && rest == file[LineLength(file)..]
    requires var line := TrimLineEnd(file[..LineLength(file)]); line == [] || c.dec(line).Some?
    ensures Repaired(c, file) == file[..LineLength(file)] + Repaired(c, rest) && Behind(c, file) == Behind(c, rest)
  {
    var n, at, size := LineLength(file), RemnantAt(c, rest), |Parse(c, rest).partial|;
    SameRemnant(c, file);
    SlicedAt(c, rest, at, size);
    SlicedAt(c, file, n + at, size);
    TailSlices(file, n, at, size);
  }

  /** Reading the repaired file gives the same records and no remnant. */
  ghost predicate Final<R>(c: Codec<R>, file: seq<Byte>) {
    Parse(c, Repaired(c, file)) == Parsed(Parse(c, file).records, [])
  }

  lemma FinalBehind<R>(c: Codec<R>, file: seq<Byte>, rest: seq<Byte>)
    requires file != [] && LineLength(file) < |file| && rest == file[LineLength(file)..]
    requires var line := TrimLineEnd(file[..LineLength(file)]); line == [] || c.dec(line).Some?
    ensures Final(c, file) <==> Final(c, rest)
    ensures Parse(c, file).partial == Parse(c, rest).partial && Behind(c, file) == Behind(c, rest)
  {
    var line := TrimLineEnd(file[..LineLength(file)]);
    RepairedBehind(c, file, rest);
    FirstLineStays(c, file, Repaired(c, rest));
    AfterSame(if line == [] then [] else [c.dec(line).value], Parse(c, Repaired(c, rest)), Parse(c, rest).records);
    if line == [] {
      AfterAfter([], [], Parse(c, Repaired(c, rest)));
    }
  }

  /** Whatever the file: a repair leaves the same records and no remnant, and so is the last one
      needed, if and only if nothing stands behind the remnant (or less than its own length, and only
      as much as the carriage returns it starts with). */
  lemma {:induction false} RepairIsFinalIff<R>(c: Codec<R>, file: seq<Byte>)
    ensures Final(c, file) <==> RepairComplete(Parse(c, file).partial, Behind(c, file))
    decreases |file|
  {
    var p, n := Parse(c, file), LineLength(file);
    var line := TrimLineEnd(file[..n]);
    if p.partial == [] {
      assert file[..|file|] == file;
    } else if line != [] && c.dec(line).None? {
      RepairFirstLine(c, file, line);
    } else {
      RepairIsFinalIff(c, file[n..]);
      FinalBehind(c, file, file[n..]);
    }
  }

  /** The merged line that an append after the carved-out cut leaves is such a remnant, with its
      line end behind it: the next repair cuts into it and keeps the first byte alone. Both records
      are gone, and yet another repair is needed. */
  lemma RepairAfterMerge<R(!new)>(c: Codec<R>, a: R, b: R)
    requires Lawful(c) && |c.enc(a)| > 1
    ensures var file := c.enc(a) + c.enc(b) + [NEWLINE];
            && Parse(c, file) == Parsed([], c.enc(a) + c.enc(b))
            && Truncated(file, c.enc(a) + c.enc(b)) == Some(c.enc(a)[..1])
            && Parse(c, c.enc(a)[..1]) == Parsed([], c.enc(a)[..1])
  {
    MergedLine(c, a, [b]);
    assert [b][1..] == [] && Encoded(c, [b][1..]) == [];
    var merged := c.enc(a) + c.enc(b);
    assert merged + [NEWLINE] + [] == merged + [NEWLINE];
    assert (merged + [NEWLINE])[..1] == c.enc(a)[..1];
    ParseOpenLine(c, c.enc(a)[..1]);
  }
}
