/** Message framing of internal/engine/lsp/protocol.go (Language Server Protocol 3.17, base
    protocol, header part), on bytes modelled as characters. */
module Lsp {
  import opened Common
  import opened Decimal
  import opened Text

  /** What one header line says. */
  datatype Header = End | Malformed | Length(n: int) | Type(contentType: string) | Other

  /** How a stream is framed. JSON is kept abstract; `version` and `stamp` read and fill the
      protocol field, `line` prints the header line of a payload length, `header` and `supported` read header lines
      and content types. */
  datatype Framing<!M> = Framing(
    encode: M -> string, decode: string -> Option<M>, version: M -> string, stamp: M -> M,
    limit: int, line: nat -> string, header: string -> Header, supported: string -> bool)

  /** Encoding can be undone, stamping gives an acceptable version, and header lines as the writer
      prints them are understood. */
  ghost predicate Lawful<M(!new)>(f: Framing<M>) {
    && (forall m: M :: f.decode(f.encode(m)) == Some(m))
    && (forall m: M :: f.version(f.stamp(m)) == if f.version(m) == "" then "2.0" else f.version(m))
    && f.limit <= MAX_INT64 && f.supported("") && f.header(['\r', '\n']) == End
    && (forall n: nat :: n <= MAX_INT64 ==> Understood(f, n))
  }

  ghost predicate Understood<M>(f: Framing<M>, n: nat) {
    && f.header(f.line(n) + ['\n']) == Length(n)
    && '\n' !in f.line(n) && f.line(n) != "" && !Space()(f.line(n)[0])
  }

  datatype Outcome<M> = Got(message: M, rest: string) | Eof | Failed

  const MAX_INT64: int := 0x7fff_ffff_ffff_ffff

  /** `strconv.ParseInt` in base ten. */
  function ParseInt(s: string): Option<int> {
    var signed := s != "" && (s[0] == '-' || s[0] == '+');
    var digits := if signed then s[1..] else s;
    if digits == "" || !AllDigits(digits) then None
    else
      var n: int := if signed && s[0] == '-' then 0 - Value(digits) else Value(digits);
      if -MAX_INT64 - 1 <= n <= MAX_INT64 then Some(n) else None
  }

  predicate SupportedType(contentType: string) {
    contentType == "" || "application/json" <= contentType || "application/vscode-jsonrpc" <= contentType
  }

  /** The switch on the header's name. */
  function ParseField(name: string, value: string): Header {
    if name == "content-" + "length" then
      match ParseInt(value)
      case None => Malformed
      case Some(n) => Length(n)
    else if name == "content-" + "type" then Type(Lower(value))
    else Other
  }

  /** A header without its line end, with its first colon. */
  function ParseParts(trimmed: string, colon: nat): Header
    requires colon <= |trimmed|
  {
    if trimmed == "" then End
    else if colon == |trimmed| then Malformed
    else ParseField(Lower(Trim(Space(), trimmed[..colon])), Trim(Space(), trimmed[colon + 1..]))
  }

  function ParseHeader(line: string): Header {
    var trimmed := TrimRight(LineEnd(), line);
    ParseParts(trimmed, IndexOf(trimmed, ':'))
  }

  /** Once the headers are read. */
  function Body<M>(f: Framing<M>, s: string, length: int, contentType: string): (r: Outcome<M>)
    ensures r.Got? ==> |r.rest| <= |s|
  {
    if length < 0 || length > f.limit || !f.supported(contentType) || |s| < length then Failed
    else
      match f.decode(s[..length])
      case None => Failed
      case Some(m) => if f.version(m) != "" && f.version(m) != "2.0" then Failed else Got(m, s[length..])
  }

  /** One message off the front of `s`, with what the headers have said so far. */
  function ReadFrom<M>(f: Framing<M>, s: string, length: int, contentType: string): (r: Outcome<M>)
    ensures r.Got? ==> |r.rest| < |s|
    decreases |s|
  {
    var at := IndexOf(s, '\n');
    if at == |s| then
      if Trim(Space(), s) == "" then Eof else Failed
    else
      var rest := s[at + 1..];
      match f.header(s[..at + 1])
      case End => Body(f, rest, length, contentType)
      case Malformed => Failed
      case Length(n) => ReadFrom(f, rest, n, contentType)
      case Type(t) => ReadFrom(f, rest, length, t)
      case Other => ReadFrom(f, rest, length, contentType)
  }

  function ReadOne<M>(f: Framing<M>, s: string): (r: Outcome<M>)
    ensures r.Got? ==> |r.rest| < |s|
  {
    ReadFrom(f, s, -1, "")
  }

  /** Every message read until the stream ends or fails; the flag says which. */
  function ReadAll<M>(f: Framing<M>, s: string): (seq<M>, bool)
    decreases |s|
  {
    match ReadOne(f, s)
    case Eof => ([], true)
    case Failed => ([], false)
    case Got(m, rest) =>
      var (ms, clean) := ReadAll(f, rest);
      ([m] + ms, clean)
  }

  // ---------------------------------------------------------------------------
  // Frames
  // ---------------------------------------------------------------------------

  const LENGTH_HEADER := "Content-" + "Length"

  function Announce(name: string, value: string): string { name + ([':'] + ([' '] + value)) }

  function HeaderLine(n: nat): string { Announce(LENGTH_HEADER, Print(n)) + ['\r'] }

  function Payload<M>(f: Framing<M>, m: M): string { f.encode(f.stamp(m)) }

  /** The blank line that ends the headers, and what follows it. */
  function Blank(rest: string): string { ['\r'] + ['\n'] + rest }

  function Frame<M>(f: Framing<M>, m: M): string { f.line(|Payload(f, m)|) + ['\n'] + Blank(Payload(f, m)) }

  function Frames<M>(f: Framing<M>, ms: seq<M>): string {
    if ms == [] then "" else Frame(f, ms[0]) + Frames(f, ms[1..])
  }

  function Stamped<M>(f: Framing<M>, ms: seq<M>): (r: seq<M>)
    ensures |r| == |ms| && forall k :: 0 <= k < |ms| ==> r[k] == f.stamp(ms[k])
  {
    seq(|ms|, k requires 0 <= k < |ms| => f.stamp(ms[k]))
  }

  /** A message the reader takes: within the limit, and not claiming another protocol. */
  predicate Fits<M>(f: Framing<M>, m: M) {
    |Payload(f, m)| <= f.limit && f.version(m) in {"", "2.0"}
  }

  lemma ParsePrinted(n: nat)
    requires n <= MAX_INT64
    ensures ParseInt(Print(n)) == Some(n)
  {
    ValuePrint(n);
    assert IsDigit(Print(n)[0]);
  }

  /** A header line loses its line end and keeps everything else. */
  lemma LineTrimmed(content: string)
    requires content != "" && !LineEnd()(content[|content| - 1])
    ensures TrimRight(LineEnd(), content + ['\r'] + ['\n']) == content
  {
    var line := content + ['\r'];
    assert TrimRight(LineEnd(), content) == content;
    assert line[..|line| - 1] == content && TrimRight(LineEnd(), line) == content;
    assert (line + ['\n'])[..|line|] == line;
  }

  lemma LowerConcat(a: string, b: string)
    ensures Lower(a + b) == Lower(a) + Lower(b)
  {
  }

  lemma NameLowered()
    ensures Lower(Trim(Space(), LENGTH_HEADER)) == "content-" + "length" && LENGTH_HEADER[0] == 'C'
    ensures ':' !in LENGTH_HEADER && '\n' !in LENGTH_HEADER
  {
    var a, b := "Content-", "Length";
    assert Lower(a) == "content-" && ':' !in a && '\n' !in a;
    assert Lower(b) == "length" && ':' !in b && '\n' !in b;
    LowerConcat(a, b);
    assert (a + b)[0] == a[0] && (a + b)[|a + b| - 1] == b[|b| - 1];
    TrimNothing(Space(), a + b);
  }

  lemma DigitStays(c: char)
    requires IsDigit(c)
    ensures !Space()(c)
  {
  }

  lemma ValueTrimmed(digits: string)
    requires digits != "" && IsDigit(digits[0]) && IsDigit(digits[|digits| - 1])
    ensures Trim(Space(), [' '] + digits) == digits
  {
    DigitStays(digits[0]);
    DigitStays(digits[|digits| - 1]);
    LeadingSpace(Space(), digits);
  }

  lemma LeadingSpace(drop: char -> bool, s: string)
    requires drop(' ') && s != "" && !drop(s[0]) && !drop(s[|s| - 1])
    ensures Trim(drop, [' '] + s) == s
  {
    assert ([' '] + s)[1..] == s;
    assert TrimLeft(drop, s) == s;
    assert TrimLeft(drop, [' '] + s) == s;
    assert TrimRight(drop, s) == s;
  }

  lemma SplitAt(name: string, value: string)
    requires ':' !in name
    ensures var s := name + ([':'] + value);
            IndexOf(s, ':') == |name| && s[..|name|] == name && s[|name| + 1..] == value
  {
    var s := name + ([':'] + value);
    assert s[..|name|] == name && s[|name|] == ':';
    IndexOfFirst(s, ':', |name|);
  }

  lemma LineCut(name: string, digits: string)
    requires ':' !in name && digits != "" && IsDigit(digits[0]) && IsDigit(digits[|digits| - 1])
    ensures var content := Announce(name, digits);
            var colon := IndexOf(content, ':');
            colon < |content| && content[..colon] == name && Trim(Space(), content[colon + 1..]) == digits
  {
    SplitAt(name, [' '] + digits);
    ValueTrimmed(digits);
  }

  lemma FieldIsLength(n: nat)
    requires n <= MAX_INT64
    ensures ParseField("content-" + "length", Print(n)) == Length(n)
  {
    ParsePrinted(n);
  }

  lemma AnnounceEnds(name: string, digits: string)
    requires digits != "" && IsDigit(digits[|digits| - 1])
    ensures var content := Announce(name, digits); content != "" && !LineEnd()(content[|content| - 1])
  {
    var content := Announce(name, digits);
    assert content[|content| - 1] == digits[|digits| - 1];
  }

  /** Any header whose value is a number is read as such. */
  lemma NumberHeader(name: string, lower: string, digits: string, content: string, line: string)
    requires ':' !in name && Lower(Trim(Space(), name)) == lower
    requires digits != "" && IsDigit(digits[0]) && IsDigit(digits[|digits| - 1])
    requires content == Announce(name, digits) && line == content + ['\r'] + ['\n']
    ensures ParseHeader(line) == ParseField(lower, digits)
  {
    AnnounceEnds(name, digits);
    LineTrimmed(content);
    LineCut(name, digits);
  }

  /** The header line says how long the payload is. */
  lemma HeaderSaysLength(n: nat)
    requires n <= MAX_INT64
    ensures ParseHeader(HeaderLine(n) + ['\n']) == Length(n)
  {
    NameLowered();
    NumberHeader(LENGTH_HEADER, "content-" + "length", Print(n), Announce(LENGTH_HEADER, Print(n)),
      HeaderLine(n) + ['\n']);
    FieldIsLength(n);
  }

  /** It is one line, and starts with a letter. */
  lemma LinePlain(name: string, digits: string)
    requires name != "" && '\n' !in name && '\n' !in digits
    ensures var line := Announce(name, digits) + ['\r']; '\n' !in line && line[0] == name[0]
  {
  }

  lemma DigitsPlain(n: nat)
    ensures '\n' !in Print(n)
  {
    assert !IsDigit('\n');
  }

  lemma BlankLineEnds()
    ensures ParseHeader(['\r', '\n']) == End
  {
    assert ['\r', '\n'][..1] == ['\r'] && ['\r'][..0] == [];
  }

  /** The header line in front of anything has been read. */
  lemma HeaderRead<M(!new)>(f: Framing<M>, n: nat, rest: string)
    requires Lawful(f) && n <= MAX_INT64
    ensures ReadOne(f, f.line(n) + ['\n'] + rest) == ReadFrom(f, rest, n, "")
  {
    var line := f.line(n);
    var s := line + ['\n'] + rest;
    assert Understood(f, n);
    FirstBreak(line, rest);
    assert s[..|line| + 1] == line + ['\n'] && s[|line| + 1..] == rest;
  }

  /** The blank line in front of anything has been read. */
  lemma BlankRead<M(!new)>(f: Framing<M>, n: int, rest: string)
    requires Lawful(f)
    ensures ReadFrom(f, Blank(rest), n, "") == Body(f, rest, n, "")
  {
    var s := Blank(rest);
    FirstBreak(['\r'], rest);
    assert s[..2] == ['\r', '\n'] && s[2..] == rest;
  }

  /** A whole frame in front of anything is read back. */
  lemma FrameReadBack<M(!new)>(f: Framing<M>, m: M, rest: string)
    requires Lawful(f) && Fits(f, m)
    ensures ReadOne(f, Frame(f, m) + rest) == Got(f.stamp(m), rest)
  {
    var payload := Payload(f, m);
    assert Frame(f, m) + rest == f.line(|payload|) + ['\n'] + Blank(payload + rest);
    HeaderRead(f, |payload|, Blank(payload + rest));
    BlankRead(f, |payload|, payload + rest);
    assert (payload + rest)[..|payload|] == payload && (payload + rest)[|payload|..] == rest;
  }

  lemma {:induction false} FramesReadBack<M(!new)>(f: Framing<M>, ms: seq<M>)
    requires Lawful(f) && forall k :: 0 <= k < |ms| ==> Fits(f, ms[k])
    ensures ReadAll(f, Frames(f, ms)) == (Stamped(f, ms), true)
    decreases |ms|
  {
    if ms == [] {
      assert IndexOf("", '\n') == 0;
    } else {
      FrameReadBack(f, ms[0], Frames(f, ms[1..]));
      FramesReadBack(f, ms[1..]);
      assert Stamped(f, ms) == [f.stamp(ms[0])] + Stamped(f, ms[1..]);
    }
  }

  // ---------------------------------------------------------------------------
  // A stream cut anywhere
  // ---------------------------------------------------------------------------

  /** Where a cut frame looks like a clean end of the stream: before it, or between its header line
      and the end of its blank line. */
  predicate LooksClean<M>(f: Framing<M>, m: M, k: nat) {
    var line := |f.line(|Payload(f, m)|)|;
    k == 0 || k == line + 1 || k == line + 2
  }

  lemma CutText(line: string, tail: string, k: nat)
    requires k <= |line| + 1 + |tail|
    ensures k <= |line| ==> (line + ['\n'] + tail)[..k] == line[..k]
    ensures k > |line| ==> (line + ['\n'] + tail)[..k] == line + ['\n'] + tail[..k - |line| - 1]
  {
  }

  lemma CutInHeader<M(!new)>(f: Framing<M>, n: nat, k: nat)
    requires Lawful(f) && n <= MAX_INT64 && k <= |f.line(n)|
    ensures ReadOne(f, f.line(n)[..k]) == if k == 0 then Eof else Failed
  {
    assert Understood(f, n);
    CutHeader(f.line(n), k);
  }

  /** A frame cut within its header line. */
  lemma CutEarly<M(!new)>(f: Framing<M>, m: M, k: nat)
    requires Lawful(f) && Fits(f, m) && k <= |f.line(|Payload(f, m)|)|
    ensures k < |Frame(f, m)| && ReadOne(f, Frame(f, m)[..k]) == if k == 0 then Eof else Failed
  {
    var n := |Payload(f, m)|;
    CutText(f.line(n), Blank(Payload(f, m)), k);
    CutInHeader(f, n, k);
  }

  /** A frame cut behind it. */
  lemma CutLate<M(!new)>(f: Framing<M>, m: M, k: nat)
    requires Lawful(f) && Fits(f, m) && |f.line(|Payload(f, m)|)| < k < |Frame(f, m)|
    ensures ReadOne(f, Frame(f, m)[..k]) == if k <= |f.line(|Payload(f, m)|)| + 2 then Eof else Failed
  {
    var payload := Payload(f, m);
    var n := |payload|;
    var left := k - |f.line(n)| - 1;
    CutText(f.line(n), Blank(payload), k);
    HeaderRead(f, n, Blank(payload)[..left]);
    CutRest(f, n, payload, left);
  }

  /** A frame cut before its end gives no message. */
  lemma CutFrame<M(!new)>(f: Framing<M>, m: M, k: nat)
    requires Lawful(f) && Fits(f, m) && k < |Frame(f, m)|
    ensures ReadOne(f, Frame(f, m)[..k]) == if LooksClean(f, m, k) then Eof else Failed
  {
    if k <= |f.line(|Payload(f, m)|)| {
      CutEarly(f, m, k);
    } else {
      CutLate(f, m, k);
    }
  }

  /** The same once the header line is read. */
  lemma CutRest<M(!new)>(f: Framing<M>, n: nat, payload: string, k: nat)
    requires Lawful(f) && n == |payload| && k < n + 2
    ensures ReadFrom(f, Blank(payload)[..k], n, "") == if k <= 1 then Eof else Failed
  {
    var rest := Blank(payload)[..k];
    if k <= 1 {
      assert rest == if k == 0 then "" else "\r";
      NearlyBlank();
    } else {
      assert rest == Blank(rest[2..]);
      BlankRead(f, n, rest[2..]);
    }
  }

  lemma NearlyBlank()
    ensures Trim(Space(), "") == "" && Trim(Space(), "\r") == ""
    ensures IndexOf("", '\n') == 0 && IndexOf("\r", '\n') == 1
  {
    assert "\r"[1..] == "";
    assert TrimLeft(Space(), "\r") == "";
  }

  lemma CutHeader(line: string, k: nat)
    requires k <= |line| && '\n' !in line && line != "" && !Space()(line[0])
    ensures IndexOf(line[..k], '\n') == k && (Trim(Space(), line[..k]) == "" <==> k == 0)
  {
    if k > 0 {
      assert line[..k][0] == line[0];
      TrimKeeps(line[..k]);
    }
  }

  lemma TrimKeeps(s: string)
    requires s != "" && !Space()(s[0])
    ensures Trim(Space(), s) != ""
  {
    TrimRightKeeps(s);
  }

  lemma {:induction false} TrimRightKeeps(s: string)
    requires s != "" && !Space()(s[0])
    ensures TrimRight(Space(), s) != ""
    decreases |s|
  {
    if |s| > 1 && Space()(s[|s| - 1]) {
      TrimRightKeeps(s[..|s| - 1]);
    }
  }

  /** How many frames lie whole within the first `k` bytes. */
  function Complete<M>(f: Framing<M>, ms: seq<M>, k: nat): (n: nat)
    ensures n <= |ms|
  {
    if ms == [] || k < |Frame(f, ms[0])| then 0 else 1 + Complete(f, ms[1..], k - |Frame(f, ms[0])|)
  }

  lemma ReadAllFirst<M(!new)>(f: Framing<M>, m: M, rest: string)
    requires Lawful(f) && Fits(f, m)
    ensures ReadAll(f, Frame(f, m) + rest).0 == [f.stamp(m)] + ReadAll(f, rest).0
  {
    FrameReadBack(f, m, rest);
  }

  lemma StampedFirst<M>(f: Framing<M>, ms: seq<M>, n: nat)
    requires ms != [] && n < |ms|
    ensures Stamped(f, ms)[..n + 1] == [f.stamp(ms[0])] + Stamped(f, ms[1..])[..n]
  {
  }

  lemma {:induction false} CutFrames<M(!new)>(f: Framing<M>, ms: seq<M>, k: nat)
    requires Lawful(f) && (forall i :: 0 <= i < |ms| ==> Fits(f, ms[i])) && k <= |Frames(f, ms)|
    ensures ReadAll(f, Frames(f, ms)[..k]).0 == Stamped(f, ms)[..Complete(f, ms, k)]
    decreases |ms|
  {
    if ms == [] {
      assert IndexOf("", '\n') == 0;
      assert Frames(f, ms)[..k] == "";
    } else {
      var frame, more := Frame(f, ms[0]), Frames(f, ms[1..]);
      if k < |frame| {
        assert (frame + more)[..k] == frame[..k];
        CutFrame(f, ms[0], k);
      } else {
        var left := k - |frame|;
        assert (frame + more)[..k] == frame + more[..left];
        ReadAllFirst(f, ms[0], more[..left]);
        CutFrames(f, ms[1..], left);
        StampedFirst(f, ms, Complete(f, ms[1..], left));
      }
    }
  }

  // ---------------------------------------------------------------------------
  // The framing of the protocol
  // ---------------------------------------------------------------------------

  /** Header lines and content types as the code prints and reads them. */
  function Standard<M>(f: Framing<M>): Framing<M> {
    f.(line := (n: nat) => HeaderLine(n), header := (line: string) => ParseHeader(line),
      supported := (t: string) => SupportedType(t))
  }

  ghost predicate Json<M(!new)>(f: Framing<M>) {
    && (forall m: M :: f.decode(f.encode(m)) == Some(m))
    && (forall m: M :: f.version(f.stamp(m)) == if f.version(m) == "" then "2.0" else f.version(m))
  }

  lemma HeaderLinePlain(n: nat)
    ensures '\n' !in HeaderLine(n) && HeaderLine(n) != "" && !Space()(HeaderLine(n)[0])
  {
    NameLowered();
    DigitsPlain(n);
    LinePlain(LENGTH_HEADER, Print(n));
    LetterStays();
  }

  lemma LetterStays()
    ensures !Space()('C')
  {
  }

  lemma StandardUnderstands<M(!new)>(f: Framing<M>, n: nat)
    requires n <= MAX_INT64
    ensures Understood(Standard(f), n)
  {
    HeaderSaysLength(n);
    HeaderLinePlain(n);
  }

  lemma StandardIsLawful<M(!new)>(f: Framing<M>)
    requires Json(f) && f.limit <= MAX_INT64
    ensures Lawful(Standard(f))
  {
    BlankLineEnds();
    forall n: nat | n <= MAX_INT64 ensures Understood(Standard(f), n) {
      StandardUnderstands(f, n);
    }
  }

  /** A framing of plain text, to show that the laws can be met. */
  function PlainText(limit: int): Framing<string> {
    Standard(Framing((m: string) => m, (s: string) => Some(s), (m: string) => "2.0", (m: string) => m, limit,
                     (n: nat) => "", (line: string) => End, (t: string) => true))
  }

  lemma PlainTextIsLawful(limit: int)
    requires limit <= MAX_INT64
    ensures Json(PlainText(limit)) && Lawful(PlainText(limit))
  {
    assert forall m: string :: PlainText(limit).version(PlainText(limit).stamp(m)) == "2.0" && "2.0" != "";
    StandardIsLawful(PlainText(limit));
    assert Standard(PlainText(limit)) == PlainText(limit);
  }

  /** Reading the frames of any list of messages within the limit returns that list, and then the
      end of the stream. */
  lemma RoundTrip<M(!new)>(f: Framing<M>, ms: seq<M>)
    requires Json(f) && f.limit <= MAX_INT64 && forall k :: 0 <= k < |ms| ==> Fits(f, ms[k])
    ensures ReadAll(Standard(f), Frames(Standard(f), ms)) == (Stamped(f, ms), true)
  {
    var g := Standard(f);
    StandardIsLawful(f);
    assert forall k :: 0 <= k < |ms| ==> Fits(f, ms[k]) ==> Fits(g, ms[k]);
    FramesReadBack(g, ms);
    assert Stamped(g, ms) == Stamped(f, ms);
  }

  /** Cut anywhere, the stream gives the messages whose frames are complete and nothing else. */
  lemma CutAnywhere<M(!new)>(f: Framing<M>, ms: seq<M>, k: nat)
    requires Json(f) && f.limit <= MAX_INT64 && (forall i :: 0 <= i < |ms| ==> Fits(f, ms[i]))
             && k <= |Frames(Standard(f), ms)|
    ensures ReadAll(Standard(f), Frames(Standard(f), ms)[..k]).0 == Stamped(f, ms)[..Complete(Standard(f), ms, k)]
  {
    var g := Standard(f);
    StandardIsLawful(f);
    assert forall i :: 0 <= i < |ms| ==> Fits(f, ms[i]) ==> Fits(g, ms[i]);
    CutFrames(g, ms, k);
    assert Stamped(g, ms) == Stamped(f, ms);
  }

  // ---------------------------------------------------------------------------
  // The reader and the writer
  // ---------------------------------------------------------------------------

  class Reader<M> {
    const f: Framing<M>
    var input: string

    constructor (f: Framing<M>, input: string)
      ensures this.f == f && this.input == input
    {
      this.f, this.input := f, input;
    }

    /** The header loop: it ends the read, or leaves the body to be read. */
    method ReadHeaders() returns (ended: Option<Outcome<M>>, length: int, contentType: string)
      modifies this`input
      ensures ended.Some? ==> !ended.value.Got? && ended.value == ReadOne(f, old(input))
      ensures ended.None? ==> ReadOne(f, old(input)) == Body(f, input, length, contentType)
    {
      length, contentType := -1, "";
      ghost var target := ReadOne(f, input);
      while true
        invariant target == ReadFrom(f, input, length, contentType)
        decreases |input|
      {
        var at := IndexOf(input, '\n');
        if at == |input| {
          return Some(if Trim(Space(), input) == "" then Eof else Failed), length, contentType;
        }
        var header := f.header(input[..at + 1]);
        input := input[at + 1..];
        match header {
          case End => return None, length, contentType;
          case Malformed => return Some(Failed), length, contentType;
          case Length(n) => length := n;
          case Type(t) => contentType := t;
          case Other =>
        }
      }
    }

    method ReadBody(length: int, contentType: string) returns (r: Outcome<M>)
      modifies this`input
      ensures r == Body(f, old(input), length, contentType)
      ensures r.Got? ==> input == r.rest
      ensures (0 <= length <= f.limit && length <= |old(input)| && f.supported(contentType)
               && f.decode(old(input)[..length]).Some?
               && f.version(f.decode(old(input)[..length]).value) in {"", "2.0"})
              <==> r.Got?
      ensures if r.Got? then f.decode(old(input)[..length]) == Some(r.message) && r.rest == old(input)[length..]
              else r.Failed?
    {
      if length < 0 || length > f.limit || !f.supported(contentType) || |input| < length {
        return Failed;
      }
      var payload := input[..length];
      var m := f.decode(payload);
      if m.None? || (f.version(m.value) != "" && f.version(m.value) != "2.0") {
        return Failed;
      }
      input := input[length..];
      r := Got(m.value, input);
    }

    method Read() returns (r: Outcome<M>)
      modifies this`input
      ensures r == ReadOne(f, old(input))
      ensures r.Got? ==> input == r.rest
    {
      var ended, length, contentType := ReadHeaders();
      if ended.Some? {
        return ended.value;
      }
      r := ReadBody(length, contentType);
    }
  }

  class Writer<M> {
    const f: Framing<M>
    var output: string
    var buffer: string

    constructor (f: Framing<M>)
      ensures this.f == f && output == ""
    {
      this.f, output, buffer := f, "", "";
    }

    /** The whole frame is assembled before any of it is written. */
    method Write(m: M)
      modifies this
      ensures output == old(output) + Frame(f, m)
    {
      var payload := f.encode(f.stamp(m));
      buffer := "";
      buffer := buffer + f.line(|payload|) + ['\n'] + ['\r', '\n'];
      buffer := buffer + payload;
      assert buffer == Frame(f, m);
      output := output + buffer;
    }
  }
}
