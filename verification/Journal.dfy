/** The line journal of internal/engine/storage/journal.go on the level of bytes: appending a
    batch, reading a file that a crash may have cut anywhere, and removing the remnant. */
module Journal {
  import opened Common

  type Byte = b: int | 0 <= b < 256

  const NEWLINE: Byte := 10
  const RETURN: Byte := 13

  /** The JSON encoder and decoder, kept abstract. Encoding compacts and escapes the data a record
      carries, so `canon` says what a record comes back as. */
  datatype Codec<!R> = Codec(enc: R -> seq<Byte>, dec: seq<Byte> -> Option<R>, canon: R -> R)

  /** What the journal relies on: an encoding is one line, decodes to its canonical record, and
      neither a proper part of it nor it followed by the start of another encoding decodes at all. */
  ghost predicate Lawful<R(!new)>(c: Codec<R>) {
    && (forall r :: c.enc(r) != [] && NEWLINE !in c.enc(r) && RETURN !in c.enc(r))
    && (forall r :: c.dec(c.enc(r)) == Some(c.canon(r)))
    && (forall r, n :: 0 < n < |c.enc(r)| ==> c.dec(c.enc(r)[..n]) == None)
    && (forall a, b, n :: 0 < n <= |c.enc(b)| ==> c.dec(c.enc(a) + c.enc(b)[..n]) == None)
  }

  /** The bytes `Write` appends for a batch: one encoding and one newline per record. */
  function Encoded<R>(c: Codec<R>, rs: seq<R>): seq<Byte> {
    if rs == [] then [] else c.enc(rs[0]) + [NEWLINE] + Encoded(c, rs[1..])
  }

  /** The records as they come back. */
  function Canon<R>(c: Codec<R>, rs: seq<R>): (out: seq<R>)
    ensures |out| == |rs| && forall i :: 0 <= i < |rs| ==> out[i] == c.canon(rs[i])
  {
    seq(|rs|, i requires 0 <= i < |rs| => c.canon(rs[i]))
  }

  lemma CanonConcat<R>(c: Codec<R>, a: seq<R>, b: seq<R>)
    ensures Canon(c, a + b) == Canon(c, a) + Canon(c, b)
  {
  }

  function TrimLineEnd(line: seq<Byte>): seq<Byte> {
    if line != [] && (line[|line| - 1] == NEWLINE || line[|line| - 1] == RETURN)
    then TrimLineEnd(line[..|line| - 1]) else line
  }

  /** What reading a journal yields: its records and the remnant that stopped the reading. */
  datatype Parsed<R> = Parsed(records: seq<R>, partial: seq<Byte>)

  function After<R>(rs: seq<R>, p: Parsed<R>): Parsed<R> {
    Parsed(rs + p.records, p.partial)
  }

  lemma AfterAfter<R>(a: seq<R>, b: seq<R>, p: Parsed<R>)
    ensures After(a, After(b, p)) == After(a + b, p)
    ensures After([], p) == p
  {
    assert a + (b + p.records) == a + b + p.records;
  }

  /** The length of the first line, its newline included. */
  function LineLength(file: seq<Byte>): (n: nat)
    ensures n <= |file| && (file != [] ==> n > 0)
  {
    var i := IndexOf(file, NEWLINE);
    if i < |file| then i + 1 else i
  }

  function Parse<R>(c: Codec<R>, file: seq<Byte>): Parsed<R>
    decreases |file|
  {
    if file == [] then Parsed([], [])
    else
      var n := LineLength(file);
      var line := TrimLineEnd(file[..n]);
      if line == [] then Parse(c, file[n..])
      else match c.dec(line)
        case None => Parsed([], line)
        case Some(r) => After([r], Parse(c, file[n..]))
  }

  /** The file after removing a remnant; `None` when the file is shorter than the remnant. */
  function Truncated(file: seq<Byte>, partial: seq<Byte>): Option<seq<Byte>> {
    if partial == [] then Some(file)
    else if |file| < |partial| then None
    else Some(file[..|file| - |partial|])
  }

  method TrimLine(line: seq<Byte>) returns (trimmed: seq<Byte>)
    ensures trimmed == TrimLineEnd(line)
  {
    trimmed := line;
    while |trimmed| > 0 && (trimmed[|trimmed| - 1] == NEWLINE || trimmed[|trimmed| - 1] == RETURN)
      invariant TrimLineEnd(trimmed) == TrimLineEnd(line)
      decreases |trimmed|
    {
      trimmed := trimmed[..|trimmed| - 1];
    }
  }

  /** Reads line by line until the end of the file or the first line that does not decode. */
  method ReadJournal<R>(c: Codec<R>, file: seq<Byte>) returns (records: seq<R>, partial: seq<Byte>)
    ensures Parsed(records, partial) == Parse(c, file)
  {
    records, partial := [], [];
    var rest := file;
    AfterAfter([], [], Parse(c, file));
    while |rest| > 0
      invariant partial == [] && Parse(c, file) == After(records, Parse(c, rest))
      decreases |rest|
    {
      var n := LineLength(rest);
      var line := TrimLine(rest[..n]);
      if |line| > 0 {
        match c.dec(line)
        case None =>
          partial := partial + line;
          assert records + [] == records;
          return;
        case Some(r) =>
          AfterAfter(records, [r], Parse(c, rest[n..]));
          records := records + [r];
      }
      rest := rest[n..];
    }
    assert records + [] == records;
  }

  class JournalSink<R> {
    const codec: Codec<R>
    var file: seq<Byte>
    var closed: bool

    constructor (codec: Codec<R>, file: seq<Byte>)
      ensures this.codec == codec && this.file == file && !closed
    {
      this.codec, this.file, closed := codec, file, false;
    }

    /** The whole batch is rendered first and appended in one piece. */
    method Write(batch: seq<R>) returns (ok: bool)
      modifies this`file
      ensures ok <==> batch == [] || !closed
      ensures file == if closed then old(file) else old(file) + Encoded(codec, batch)
    {
      if |batch| == 0 {
        assert file + [] == file;
        return true;
      }
      var builder := [];
      for i := 0 to |batch|
        invariant builder + Encoded(codec, batch[i..]) == Encoded(codec, batch)
      {
        assert batch[i..][1..] == batch[i + 1..];
        builder := builder + codec.enc(batch[i]) + [NEWLINE];
      }
      assert batch[|batch|..] == [];
      if closed {
        return false;
      }
      file := file + builder;
      ok := true;
    }

    /** Removes a remnant from the end of the file. */
    method TruncatePartial(partial: seq<Byte>) returns (ok: bool)
      modifies this`file
      ensures ok <==> Truncated(old(file), partial).Some?
      ensures file == if ok then Truncated(old(file), partial).value else old(file)
    {
      if |partial| == 0 {
        return true;
      }
      var size := |file| - |partial|;
      if size < 0 {
        return false;
      }
      file := file[..size];
      ok := true;
    }
  }

  // ---------------------------------------------------------------------------
  // Reading what was written
  // ---------------------------------------------------------------------------

  lemma TrimPlain(line: seq<Byte>)
    requires NEWLINE !in line && RETURN !in line
    ensures TrimLineEnd(line) == line && TrimLineEnd(line + [NEWLINE]) == line
  {
    assert (line + [NEWLINE])[..|line|] == line;
  }

  lemma ParseLine<R(!new)>(c: Codec<R>, r: R, rest: seq<Byte>)
    requires Lawful(c)
    ensures Parse(c, c.enc(r) + [NEWLINE] + rest) == After([c.canon(r)], Parse(c, rest))
  {
    var file := c.enc(r) + [NEWLINE] + rest;
    IndexOfFirst(file, NEWLINE, |c.enc(r)|) by { assert file[..|c.enc(r)|] == c.enc(r); }
    assert file[..|c.enc(r)| + 1] == c.enc(r) + [NEWLINE] && file[|c.enc(r)| + 1..] == rest;
    TrimPlain(c.enc(r));
  }

  lemma {:induction false} ParseConcat<R(!new)>(c: Codec<R>, rs: seq<R>, tail: seq<Byte>)
    requires Lawful(c)
    ensures Parse(c, Encoded(c, rs) + tail) == After(Canon(c, rs), Parse(c, tail))
  {
    AfterAfter([], [], Parse(c, tail));
    if rs == [] {
      assert Encoded(c, rs) + tail == tail;
    } else {
      var rest := Encoded(c, rs[1..]) + tail;
      assert Encoded(c, rs) + tail == c.enc(rs[0]) + [NEWLINE] + rest;
      ParseLine(c, rs[0], rest);
      ParseConcat(c, rs[1..], tail);
      AfterAfter([c.canon(rs[0])], Canon(c, rs[1..]), Parse(c, tail));
      assert [c.canon(rs[0])] + Canon(c, rs[1..]) == Canon(c, rs);
    }
  }

  /** A last line without its newline: a record if it decodes, a remnant if it does not. */
  lemma ParseOpenLine<R>(c: Codec<R>, line: seq<Byte>)
    requires line != [] && NEWLINE !in line && RETURN !in line
    ensures Parse(c, line) == match c.dec(line) case None => Parsed([], line) case Some(r) => Parsed([r], [])
  {
    assert line[..|line|] == line && line[|line|..] == [];
    TrimPlain(line);
  }

  /** How many encodings lie completely within the first `n` bytes. */
  function Whole<R>(c: Codec<R>, rs: seq<R>, n: nat): (k: nat)
    ensures k <= |rs|
  {
    if rs == [] || n < |c.enc(rs[0])| then 0
    else if n == |c.enc(rs[0])| then 1
    else 1 + Whole(c, rs[1..], n - |c.enc(rs[0])| - 1)
  }

  /** The carved-out cut: just before a newline. */
  predicate Unterminated<R>(c: Codec<R>, rs: seq<R>, n: nat) {
    rs != [] && n >= |c.enc(rs[0])| &&
    (n == |c.enc(rs[0])| || Unterminated(c, rs[1..], n - |c.enc(rs[0])| - 1))
  }

  /** The pieces of a cut file: complete lines, then the start of the next line, which in the
      carved-out case is a whole encoding. */
  lemma {:induction false} CutPieces<R(!new)>(c: Codec<R>, rs: seq<R>, n: nat) returns (lines: nat, open: seq<Byte>)
    requires Lawful(c) && n <= |Encoded(c, rs)|
    ensures lines <= |rs| && Encoded(c, rs)[..n] == Encoded(c, rs[..lines]) + open
    ensures open != [] ==> lines < |rs| && |open| <= |c.enc(rs[lines])| && open == c.enc(rs[lines])[..|open|]
    ensures Unterminated(c, rs, n) <==> lines < |rs| && open == c.enc(rs[lines])
    ensures Whole(c, rs, n) == if Unterminated(c, rs, n) then lines + 1 else lines
  {
    if rs == [] {
      lines, open := 0, [];
    } else if n <= |c.enc(rs[0])| {
      lines, open := 0, c.enc(rs[0])[..n];
      assert rs[..0] == [];
    } else {
      var m := n - |c.enc(rs[0])| - 1;
      var l;
      l, open := CutPieces(c, rs[1..], m);
      lines := l + 1;
      assert rs[..lines][1..] == rs[1..][..l];
      assert Encoded(c, rs)[..n] == c.enc(rs[0]) + [NEWLINE] + Encoded(c, rs[1..])[..m];
    }
  }

  lemma Reads<R(!new)>(c: Codec<R>, rs: seq<R>, n: nat, lines: nat, open: seq<Byte>)
    requires Lawful(c) && lines <= |rs|
    requires open != [] ==> lines < |rs| && |open| <= |c.enc(rs[lines])| && open == c.enc(rs[lines])[..|open|]
    ensures var p := Parse(c, Encoded(c, rs[..lines]) + open);
            if lines < |rs| && open == c.enc(rs[lines]) then p == Parsed(Canon(c, rs[..lines + 1]), [])
            else p == Parsed(Canon(c, rs[..lines]), open)
  {
    ParseConcat(c, rs[..lines], open);
    if open != [] {
      ParseOpenLine(c, open);
      if open == c.enc(rs[lines]) {
        assert Canon(c, rs[..lines]) + [c.canon(rs[lines])] == Canon(c, rs[..lines + 1]);
      }
    }
    assert Canon(c, rs[..lines]) + [] == Canon(c, rs[..lines]);
  }

  /** A journal cut at any byte reads back as exactly the records whose encodings survived whole.
      Removing the remnant leaves their lines and nothing else (without the last line end in the
      carved-out case), and reading or repairing again changes nothing. */
  lemma CutAnywhere<R(!new)>(c: Codec<R>, rs: seq<R>, n: nat)
    requires Lawful(c) && n <= |Encoded(c, rs)|
    ensures var file := Encoded(c, rs)[..n];
            var p := Parse(c, file);
            var kept := rs[..Whole(c, rs, n)];
            && p.records == Canon(c, kept)
            && Truncated(file, p.partial).Some?
            && var repaired := Truncated(file, p.partial).value;
               && (if Unterminated(c, rs, n) then repaired + [NEWLINE] == Encoded(c, kept)
                   else repaired == Encoded(c, kept))
               && Parse(c, repaired) == Parsed(Canon(c, kept), [])
  {
    var file := Encoded(c, rs)[..n];
    var lines, open := CutPieces(c, rs, n);
    Reads(c, rs, n, lines, open);
    Reads(c, rs, n, lines, []);
    assert file[..|file| - |open|] == Encoded(c, rs[..lines])
      && Encoded(c, rs[..lines]) + [] == Encoded(c, rs[..lines]);
    if Unterminated(c, rs, n) {
      EncodedSnoc(c, rs, lines);
    }
  }

  lemma {:induction false} EncodedSnoc<R>(c: Codec<R>, rs: seq<R>, k: nat)
    requires k < |rs|
    ensures Encoded(c, rs[..k + 1]) == Encoded(c, rs[..k]) + c.enc(rs[k]) + [NEWLINE]
  {
    if k == 0 {
      assert rs[..1][1..] == [] && rs[..0] == [];
    } else {
      EncodedSnoc(c, rs[1..], k - 1);
      assert rs[..k + 1][1..] == rs[1..][..k] && rs[..k][1..] == rs[1..][..k - 1];
    }
  }

  /** The next append after a repair. The repair promises that it starts on a record boundary,
      and everything reads back, if and only if the crash did not fall just before a newline. */
  lemma AppendAfterRepair<R(!new)>(c: Codec<R>, rs: seq<R>, n: nat, more: seq<R>)
    requires Lawful(c) && n <= |Encoded(c, rs)| && more != []
    ensures var file := Encoded(c, rs)[..n];
            var kept := rs[..Whole(c, rs, n)];
            && Truncated(file, Parse(c, file).partial).Some?
            && var grown := Truncated(file, Parse(c, file).partial).value + Encoded(c, more);
               && (Parse(c, grown) == Parsed(Canon(c, kept + more), []) <==> !Unterminated(c, rs, n))
               && (Unterminated(c, rs, n) ==>
                     && kept != []
                     && Parse(c, grown).records == Canon(c, kept[..|kept| - 1])
                     && Parse(c, grown).partial == c.enc(kept[|kept| - 1]) + c.enc(more[0]))
  {
    CutAnywhere(c, rs, n);
    var file := Encoded(c, rs)[..n];
    var kept := rs[..Whole(c, rs, n)];
    var repaired := Truncated(file, Parse(c, file).partial).value;
    if Unterminated(c, rs, n) {
      MergedAppend(c, rs, n, repaired, more);
    } else {
      assert Encoded(c, more) + [] == Encoded(c, more) && Canon(c, more) + [] == Canon(c, more);
      ParseConcat(c, more, []);
      ParseConcat(c, kept, Encoded(c, more));
      CanonConcat(c, kept, more);
    }
  }

  lemma Regroup(repaired: seq<Byte>, head: seq<Byte>, a: seq<Byte>, b: seq<Byte>, rest: seq<Byte>)
    requires repaired + [NEWLINE] == head + a + [NEWLINE]
    ensures repaired + (b + [NEWLINE] + rest) == head + (a + b + [NEWLINE] + rest)
  {
    assert repaired == head + a by {
      assert (repaired + [NEWLINE])[..|repaired|] == (head + a + [NEWLINE])[..|repaired|];
    }
  }

  lemma MergedAppend<R(!new)>(c: Codec<R>, rs: seq<R>, n: nat, repaired: seq<Byte>, more: seq<R>)
    requires Lawful(c) && n <= |Encoded(c, rs)| && more != [] && Unterminated(c, rs, n)
    requires repaired + [NEWLINE] == Encoded(c, rs[..Whole(c, rs, n)])
    ensures var kept := rs[..Whole(c, rs, n)];
            && kept != []
            && Parse(c, repaired + Encoded(c, more))
              == Parsed(Canon(c, kept[..|kept| - 1]), c.enc(kept[|kept| - 1]) + c.enc(more[0]))
  {
    var lines, open := CutPieces(c, rs, n);
    EncodedSnoc(c, rs, lines);
    Regroup(repaired, Encoded(c, rs[..lines]), c.enc(rs[lines]), c.enc(more[0]), Encoded(c, more[1..]));
    MergedLine(c, rs[lines], more);
    ParseConcat(c, rs[..lines], c.enc(rs[lines]) + c.enc(more[0]) + [NEWLINE] + Encoded(c, more[1..]));
    assert rs[..lines + 1][..lines] == rs[..lines] && Canon(c, rs[..lines]) + [] == Canon(c, rs[..lines]);
  }

  lemma MergedLine<R(!new)>(c: Codec<R>, a: R, more: seq<R>)
    requires Lawful(c) && more != []
    ensures Parse(c, c.enc(a) + c.enc(more[0]) + [NEWLINE] + Encoded(c, more[1..]))
            == Parsed([], c.enc(a) + c.enc(more[0]))
  {
    var merged := c.enc(a) + c.enc(more[0]);
    var file := merged + [NEWLINE] + Encoded(c, more[1..]);
    IndexOfFirst(file, NEWLINE, |merged|) by { assert file[..|merged|] == merged; }
    assert file[..|merged| + 1] == merged + [NEWLINE];
    TrimPlain(merged);
    assert c.enc(more[0])[..|c.enc(more[0])|] == c.enc(more[0]);
  }

  // ---------------------------------------------------------------------------
  // The laws can be met
  // ---------------------------------------------------------------------------

  /** A brace, one stroke per unit, a brace. */
  function Strokes(n: nat): seq<Byte> {
    [123] + seq(n, i => 49) + [125]
  }

  function CountStrokes(line: seq<Byte>): Option<nat> {
    if |line| >= 2 && line == Strokes(|line| - 2) then Some(|line| - 2) else None
  }

  lemma LawfulCodecExists()
    ensures Lawful(Codec(Strokes, CountStrokes, (n: nat) => n))
  {
    var c := Codec(Strokes, CountStrokes, (n: nat) => n);
    forall r: nat, n | 0 < n < |c.enc(r)| ensures c.dec(c.enc(r)[..n]) == None {
      if n >= 2 {
        assert c.enc(r)[..n][n - 1] != Strokes(n - 2)[n - 1];
      }
    }
    forall a: nat, b: nat, n | 0 < n <= |c.enc(b)| ensures c.dec(c.enc(a) + c.enc(b)[..n]) == None {
      var line := c.enc(a) + c.enc(b)[..n];
      assert line[a + 1] != Strokes(|line| - 2)[a + 1];
    }
  }
}
