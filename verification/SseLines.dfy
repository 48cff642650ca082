/** How the decoder of module Sse understands streams that another writer may have sent: any fields in
    any order, with any line ends. */
module SseLines {
  import opened Common
  import opened Text
  import opened Sse

  // ---------------------------------------------------------------------------
  // One line
  // ---------------------------------------------------------------------------

  function FieldOf(name: string, value: string): Field {
    if name == "event" then Name(value)
    else if name == "data" then Data(value)
    else if name == "id" then Id(value)
    else Ignored
  }

  lemma ColonAt(name: string, value: string)
    requires ':' !in name
    ensures var line := name + ([':'] + value);
            IndexOf(line, ':') == |name| && line[..|name|] == name && line[|name| + 1..] == value
  {
    var line := name + ([':'] + value);
    assert line[..|name|] == name && line[|name|] == ':';
    IndexOfFirst(line, ':', |name|);
  }

  /** A field is told by its exact name. One space in front of its value does not belong to it, and
      only one. */
  lemma LineMeans(name: string, value: string)
    requires name != "" && ':' !in name
    ensures ParseLine(name + ([':'] + ([' '] + value))) == FieldOf(name, value)
    ensures value == "" || value[0] != ' ' ==> ParseLine(name + ([':'] + value)) == FieldOf(name, value)
  {
    ColonAt(name, [' '] + value);
    ColonAt(name, value);
    assert (name + ([':'] + value))[0] == name[0] && (name + ([':'] + ([' '] + value)))[0] == name[0];
    assert ([' '] + value)[1..] == value;
  }

  /** Comments, and lines that are no field at all. */
  lemma LineMeansNothing(text: string)
    ensures ParseLine([':'] + text) == Ignored && (':' !in text ==> ParseLine(text) == Ignored)
  {
  }

  // ---------------------------------------------------------------------------
  // One event
  // ---------------------------------------------------------------------------

  /** The last name given, or `default`. */
  function LastName(f: Format, lines: seq<string>, default: string): string {
    if lines == [] then default
    else
      match f.parse(lines[|lines| - 1])
      case Name(v) => v
      case _ => LastName(f, lines[..|lines| - 1], default)
  }

  function LastId(f: Format, lines: seq<string>, default: string): string {
    if lines == [] then default
    else
      match f.parse(lines[|lines| - 1])
      case Id(v) => v
      case _ => LastId(f, lines[..|lines| - 1], default)
  }

  /** All data given, in order. */
  function AllData(f: Format, lines: seq<string>): seq<string> {
    if lines == [] then []
    else
      AllData(f, lines[..|lines| - 1])
      + match f.parse(lines[|lines| - 1])
        case Data(v) => [v]
        case _ => []
  }

  /** The event that a block of lines makes, if any of them carries data. */
  function EventOf(f: Format, lines: seq<string>): seq<StreamEvent> {
    if AllData(f, lines) == [] then []
    else [StreamEvent(LastName(f, lines, ""), Join(AllData(f, lines)), LastId(f, lines, ""))]
  }

  function CollectAll(f: Format, p: Pending, lines: seq<string>): Pending {
    if lines == [] then p else Collect(f, CollectAll(f, p, lines[..|lines| - 1]), lines[|lines| - 1])
  }

  lemma {:induction false} CollectedIs(f: Format, lines: seq<string>)
    ensures CollectAll(f, FRESH, lines)
            == Pending(LastName(f, lines, ""), LastId(f, lines, ""), AllData(f, lines), AllData(f, lines) != [])
  {
    if lines != [] {
      CollectedIs(f, lines[..|lines| - 1]);
    }
  }

  /** A line of a stream: no line break in it, not blank and not too long. */
  ghost predicate Plain(line: string) {
    '\n' !in line && |line| < MAX_LINE && WithoutReturn(line) != ""
  }

  /** Lines as the stream has them. */
  function Printed(lines: seq<string>): string {
    if lines == [] then "" else Printed(lines[..|lines| - 1]) + Terminated(lines[|lines| - 1])
  }

  lemma {:induction false} LinesCollected(f: Format, lines: seq<string>, rest: string, p: Pending)
    requires forall k :: 0 <= k < |lines| ==> Plain(lines[k])
    ensures Decode(f, Printed(lines) + rest, p) == Decode(f, rest, CollectAll(f, p, Bare(lines)))
    decreases |lines|
  {
    if lines == [] {
      assert "" + rest == rest;
    } else {
      var init, last := lines[..|lines| - 1], lines[|lines| - 1];
      assert Printed(lines) + rest == Printed(init) + (Terminated(last) + rest);
      LinesCollected(f, init, Terminated(last) + rest, p);
      assert Bare(lines)[..|lines| - 1] == Bare(init);
      NextLine(f, last, rest, CollectAll(f, p, Bare(init)));
    }
  }

  /** Any lines up to a blank one are one event: its data all data lines, its name and identifier the
      last ones given; without a data line, nothing. The next event starts from nothing. */
  lemma BlockRead(f: Format, lines: seq<string>, rest: string)
    requires forall k :: 0 <= k < |lines| ==> Plain(lines[k])
    ensures var (more, ok) := Decode(f, rest, FRESH);
            Decode(f, Printed(lines) + (['\n'] + rest), FRESH) == (EventOf(f, Bare(lines)) + more, ok)
            && Decode(f, Printed(lines) + (['\r', '\n'] + rest), FRESH) == (EventOf(f, Bare(lines)) + more, ok)
  {
    var p := CollectAll(f, FRESH, Bare(lines));
    LinesCollected(f, lines, ['\n'] + rest, FRESH);
    LinesCollected(f, lines, ['\r', '\n'] + rest, FRESH);
    BlankRead(f, rest, p);
    assert Terminated(['\r']) + rest == ['\r', '\n'] + rest;
    assert WithoutReturn(['\r']) == "";
    NextLine(f, ['\r'], rest, p);
    CollectedIs(f, Bare(lines));
  }

  lemma EndRead(f: Format, last: string, p: Pending)
    requires last == "" || Plain(last)
    ensures Decode(f, last, p) == (Dispatch(if last == "" then p else Collect(f, p, WithoutReturn(last))), true)
  {
    assert IndexOf(last, '\n') == |last|;
  }

  /** What a stream ends in counts as an event too, without a blank line behind it and even without a
      line break. */
  lemma TailRead(f: Format, lines: seq<string>, last: string)
    requires (forall k :: 0 <= k < |lines| ==> Plain(lines[k])) && (last == "" || Plain(last))
    ensures Decode(f, Printed(lines) + last, FRESH)
            == (EventOf(f, Bare(if last == "" then lines else lines + [last])), true)
  {
    LinesCollected(f, lines, last, FRESH);
    EndRead(f, last, CollectAll(f, FRESH, Bare(lines)));
    CollectedIs(f, Bare(lines));
    if last != "" {
      assert Bare(lines + [last]) == Bare(lines) + [WithoutReturn(last)];
      assert Bare(lines + [last])[..|lines|] == Bare(lines);
      CollectedIs(f, Bare(lines + [last]));
    }
  }

  /** A line over the limit, its line break included, fails the stream there; what was pending is not
      an event. */
  lemma LongLineFails(f: Format, lines: seq<string>, line: string, rest: string)
    requires (forall k :: 0 <= k < |lines| ==> Plain(lines[k])) && '\n' !in line && |line| >= 0x10_0000
    ensures Decode(f, Printed(lines) + (line + (['\n'] + rest)), FRESH) == ([], false)
    ensures |line| > 0x10_0000 ==> Decode(f, Printed(lines) + line, FRESH) == ([], false)
  {
    LinesCollected(f, lines, line + (['\n'] + rest), FRESH);
    assert line + (['\n'] + rest) == line + ['\n'] + rest;
    FirstBreak(line, rest);
    LinesCollected(f, lines, line, FRESH);
  }
}
