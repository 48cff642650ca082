/** How the reader of module Lsp understands headers that another writer may have sent: any fields in
    any order and spelling, with any line ends. */
module LspHeaders {
  import opened Common
  import opened Decimal
  import opened Text
  import opened Lsp

  // ---------------------------------------------------------------------------
  // One header line
  // ---------------------------------------------------------------------------

  /** A decimal numeral with an optional sign. */
  ghost predicate Numeral(sign: string, digits: string) {
    (sign == "" || sign == "+" || sign == "-") && digits != "" && AllDigits(digits)
  }

  function Signed(sign: string, digits: string): int
    requires AllDigits(digits)
  {
    if sign == "-" then 0 - Value(digits) else Value(digits)
  }

  /** Every numeral is read as its value, as long as 64 bits hold it. */
  lemma NumeralRead(sign: string, digits: string)
    requires Numeral(sign, digits)
    ensures var n := Signed(sign, digits);
            ParseInt(sign + digits) == if -MAX_INT64 - 1 <= n <= MAX_INT64 then Some(n) else None
  {
    var s := sign + digits;
    if sign == "" {
      assert s == digits && IsDigit(s[0]);
    } else {
      assert s[0] == sign[0] && s[1..] == digits;
    }
  }

  /** And nothing but a numeral is read as a number. */
  lemma OnlyNumeralsRead(s: string) returns (sign: string, digits: string)
    requires ParseInt(s).Some?
    ensures Numeral(sign, digits) && s == sign + digits && ParseInt(s) == Some(Signed(sign, digits))
  {
    assert "+"[0] == '+' && "-"[0] == '-';
    if s[0] == '-' || s[0] == '+' {
      sign, digits := if s[0] == '-' then "-" else "+", s[1..];
      assert s == sign + digits;
    } else {
      sign, digits := "", s;
      assert s == sign + digits;
    }
  }

  ghost predicate AllLineEnds(ends: string) { forall k :: 0 <= k < |ends| ==> LineEnd()(ends[k]) }

  ghost predicate NoLineEnd(content: string) { content == "" || !LineEnd()(content[|content| - 1]) }

  /** Whatever line ends stand behind it, they are cut off and nothing else is. */
  lemma {:induction false} LineEndsOff(content: string, ends: string)
    requires NoLineEnd(content) && AllLineEnds(ends)
    ensures TrimRight(LineEnd(), content + ends) == content
    decreases |ends|
  {
    if ends == "" {
      assert content + ends == content;
    } else {
      var init := ends[..|ends| - 1];
      assert (content + ends)[..|content + ends| - 1] == content + init;
      assert (content + ends)[|content + ends| - 1] == ends[|ends| - 1];
      LineEndsOff(content, init);
    }
  }

  /** Only line ends: the headers are over. No colon: the header is malformed. */
  lemma PlainLineMeans(content: string, ends: string)
    requires NoLineEnd(content) && AllLineEnds(ends) && ':' !in content
    ensures ParseHeader(content + ends) == if content == "" then End else Malformed
  {
    LineEndsOff(content, ends);
  }

  /** A field, by its name in any letter case and with any space around it. */
  lemma FieldMeans(name: string, value: string, ends: string)
    requires ':' !in name && NoLineEnd(value) && AllLineEnds(ends)
    ensures var r, field := ParseHeader(name + ([':'] + value) + ends), Lower(Trim(Space(), name));
            if field == "content-" + "length" then
              r == match ParseInt(Trim(Space(), value)) case None => Malformed case Some(n) => Length(n)
            else if field == "content-" + "type" then r == Type(Lower(Trim(Space(), value)))
            else r == Other
  {
    var content := name + ([':'] + value);
    assert content[|content| - 1] == if value == "" then ':' else value[|value| - 1];
    LineEndsOff(content, ends);
    SplitAt(name, value);
  }

  // ---------------------------------------------------------------------------
  // All header lines
  // ---------------------------------------------------------------------------

  /** A line as the stream has it, with its line break. */
  ghost predicate IsLine(line: string) {
    line != "" && line[|line| - 1] == '\n' && '\n' !in line[..|line| - 1]
  }

  function Joined(lines: seq<string>): string {
    if lines == [] then "" else Joined(lines[..|lines| - 1]) + lines[|lines| - 1]
  }

  /** The length that the last length header gives. */
  function LengthSaid<M>(f: Framing<M>, lines: seq<string>, default: int): int {
    if lines == [] then default
    else
      match f.header(lines[|lines| - 1])
      case Length(n) => n
      case _ => LengthSaid(f, lines[..|lines| - 1], default)
  }

  /** The type that the last type header gives. */
  function TypeSaid<M>(f: Framing<M>, lines: seq<string>, default: string): string {
    if lines == [] then default
    else
      match f.header(lines[|lines| - 1])
      case Type(t) => t
      case _ => TypeSaid(f, lines[..|lines| - 1], default)
  }

  ghost predicate SomeMalformed<M>(f: Framing<M>, lines: seq<string>) {
    exists k :: 0 <= k < |lines| && f.header(lines[k]) == Malformed
  }

  lemma OneLineRead<M>(f: Framing<M>, line: string, rest: string, length: int, contentType: string)
    requires IsLine(line)
    ensures ReadFrom(f, line + rest, length, contentType) ==
            var h := f.header(line);
            if h.End? then Body(f, rest, length, contentType)
            else if h.Malformed? then Failed
            else ReadFrom(f, rest, if h.Length? then h.n else length, if h.Type? then h.contentType else contentType)
  {
    var content := line[..|line| - 1];
    assert line == content + ['\n'];
    FirstBreak(content, rest);
    assert (line + rest)[..|content| + 1] == line && (line + rest)[|content| + 1..] == rest;
  }

  lemma {:induction false} LinesRead<M>(f: Framing<M>, lines: seq<string>, rest: string, length: int,
                                        contentType: string)
    requires forall k :: 0 <= k < |lines| ==> IsLine(lines[k]) && f.header(lines[k]) != End
    ensures ReadFrom(f, Joined(lines) + rest, length, contentType)
            == if SomeMalformed(f, lines) then Failed
               else ReadFrom(f, rest, LengthSaid(f, lines, length), TypeSaid(f, lines, contentType))
    decreases |lines|
  {
    if lines == [] {
      assert "" + rest == rest;
    } else {
      var init, last := lines[..|lines| - 1], lines[|lines| - 1];
      Associates(Joined(init), last, rest);
      LinesRead(f, init, last + rest, length, contentType);
      LastMalformed(f, lines);
      OneLineRead(f, last, rest, LengthSaid(f, init, length), TypeSaid(f, init, contentType));
    }
  }

  lemma LastMalformed<M>(f: Framing<M>, lines: seq<string>)
    requires lines != []
    ensures SomeMalformed(f, lines)
            <==> SomeMalformed(f, lines[..|lines| - 1]) || f.header(lines[|lines| - 1]) == Malformed
  {
    var init := lines[..|lines| - 1];
    if SomeMalformed(f, init) {
      var k :| 0 <= k < |init| && f.header(init[k]) == Malformed;
      assert lines[k] == init[k];
    }
    if SomeMalformed(f, lines) && f.header(lines[|lines| - 1]) != Malformed {
      var k :| 0 <= k < |lines| && f.header(lines[k]) == Malformed;
      assert init[k] == lines[k];
    }
  }

  /** Whatever header lines come before the blank one: a malformed one fails the read, and otherwise
      the body is read by the last length and the last type they give. */
  lemma HeadersRead<M>(f: Framing<M>, lines: seq<string>, blank: string, rest: string)
    requires forall k :: 0 <= k < |lines| ==> IsLine(lines[k]) && f.header(lines[k]) != End
    requires IsLine(blank) && f.header(blank) == End
    ensures ReadOne(f, Joined(lines) + (blank + rest))
            == if SomeMalformed(f, lines) then Failed
               else Body(f, rest, LengthSaid(f, lines, -1), TypeSaid(f, lines, ""))
  {
    LinesRead(f, lines, blank + rest, -1, "");
    OneLineRead(f, blank, rest, LengthSaid(f, lines, -1), TypeSaid(f, lines, ""));
  }

  /** Content types that are taken: none, and the two that stand for JSON with whatever follows. */
  lemma TypesTaken(t: string, tail: string)
    ensures SupportedType("") && SupportedType("application/json" + tail)
            && SupportedType("application/vscode-jsonrpc" + tail)
    ensures SupportedType(t) && t != "" ==>
              |t| >= 16 && (t[..16] == "application/json" || t[..16] == "application/vsco")
  {
    var a, b, c := "application/json", "application/vscode-jsonrpc", "application/vsco";
    assert |a| == 16 && |c| == 16 && b[..16] == c;
  }
}
