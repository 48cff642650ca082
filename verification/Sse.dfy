/** Server-sent events as internal/engine/gateway/sse.go reads and writes them (lines and fields as
    in sections 9.2.5 and 9.2.6 of the WHATWG HTML Standard, narrowed by the code). */
module Sse {
  import opened Common
  import opened Text

  datatype StreamEvent = StreamEvent(name: string, data: string, id: string)

  /** What a line says. */
  datatype Field = Ignored | Name(value: string) | Data(value: string) | Id(value: string)

  /** How lines are read and printed. */
  datatype Format = Format(parse: string -> Field, nameLine: string -> string, dataLine: string -> string,
                           commentLine: string -> string)

  /** The event being collected. */
  datatype Pending = Pending(name: string, id: string, data: seq<string>, hasData: bool)

  const FRESH: Pending := Pending("", "", [], false)

  const MAX_LINE: nat := 0x10_0000

  /** `trimLineEnding` once the line break is off. */
  function WithoutReturn(line: string): string {
    if line != "" && line[|line| - 1] == '\r' then line[..|line| - 1] else line
  }

  function Join(lines: seq<string>): string {
    if lines == [] then "" else if |lines| == 1 then lines[0] else lines[0] + ['\n'] + Join(lines[1..])
  }

  function Split(s: string): (lines: seq<string>)
    ensures lines != []
    decreases |s|
  {
    var at := IndexOf(s, '\n');
    if at == |s| then [s] else [s[..at]] + Split(s[at + 1..])
  }

  /** A blank line ends the event, and resets everything. */
  function Dispatch(p: Pending): seq<StreamEvent> {
    if p.hasData then [StreamEvent(p.name, Join(p.data), p.id)] else []
  }

  /** The effect of one line other than a blank one. */
  function Collect(f: Format, p: Pending, line: string): Pending {
    match f.parse(line)
    case Ignored => p
    case Name(v) => p.(name := v)
    case Data(v) => p.(data := p.data + [v], hasData := true)
    case Id(v) => p.(id := v)
  }

  /** One line off the front of a stream: too long, the last one, or one with more behind it. */
  datatype LineRead = TooLong | Last(line: string) | Next(line: string, rest: string)

  /** `readStreamLine`. */
  function ReadLine(s: string): (r: LineRead)
    ensures r.Next? ==> |r.rest| < |s|
  {
    var at := IndexOf(s, '\n');
    if (if at == |s| then |s| else at + 1) > MAX_LINE then TooLong
    else if at == |s| then Last(WithoutReturn(s))
    else Next(WithoutReturn(s[..at]), s[at + 1..])
  }

  /** Every event of a stream; the flag says whether it was read to its end. */
  function Decode(f: Format, s: string, p: Pending): (seq<StreamEvent>, bool)
    decreases |s|
  {
    match ReadLine(s)
    case TooLong => ([], false)
    case Last(line) => (Dispatch(if line == "" then p else Collect(f, p, line)), true)
    case Next(line, rest) =>
      if line == "" then
        var (more, ok) := Decode(f, rest, FRESH);
        (Dispatch(p) + more, ok)
      else Decode(f, rest, Collect(f, p, line))
  }

  // ---------------------------------------------------------------------------
  // Writing
  // ---------------------------------------------------------------------------

  datatype Item = Event(name: string, payload: string) | Raw(data: string) | Comment(text: string)

  function Terminated(line: string): string { line + ['\n'] }

  /** Data lines in front of `rest`. */
  function DataLines(f: Format, lines: seq<string>, rest: string): string {
    if lines == [] then rest else Terminated(f.dataLine(lines[0])) + DataLines(f, lines[1..], rest)
  }

  function Written(f: Format, item: Item): string {
    match item
    case Event(name, payload) =>
      (if name == "" then "" else Terminated(f.nameLine(name))) + DataLines(f, Split(payload), ['\n'])
    case Raw(data) => Terminated(f.dataLine(data)) + ['\n']
    case Comment(text) => Terminated(f.commentLine(text)) + ['\n']
  }

  function AllWritten(f: Format, items: seq<Item>): string {
    if items == [] then "" else Written(f, items[0]) + AllWritten(f, items[1..])
  }

  /** The events among the items, as written. */
  function Expected(items: seq<Item>): seq<StreamEvent> {
    if items == [] then [] else Sent(items[0]) + Expected(items[1..])
  }

  function Sent(item: Item): seq<StreamEvent> {
    match item
    case Event(name, payload) => [StreamEvent(name, payload, "")]
    case Raw(data) => [StreamEvent("", data, "")]
    case Comment(_) => []
  }

  /** Lines without the return each may end in. */
  function Bare(lines: seq<string>): (bare: seq<string>)
    ensures |bare| == |lines| && forall k :: 0 <= k < |lines| ==> bare[k] == WithoutReturn(lines[k])
  {
    seq(|lines|, k requires 0 <= k < |lines| => WithoutReturn(lines[k]))
  }

  /** The events among the items, as they arrive. */
  function Received(items: seq<Item>): seq<StreamEvent> {
    if items == [] then [] else Arrives(items[0]) + Received(items[1..])
  }

  function Arrives(item: Item): seq<StreamEvent> {
    match item
    case Event(name, payload) => [StreamEvent(WithoutReturn(name), Join(Bare(Split(payload))), "")]
    case Raw(data) => [StreamEvent("", WithoutReturn(data), "")]
    case Comment(_) => []
  }

  /** What is printed on one line: no line break, not too long. */
  predicate OneLine(value: string, line: string) {
    '\n' !in value && |line| < MAX_LINE
  }

  predicate Writable(f: Format, item: Item) {
    match item
    case Event(name, payload) =>
      && (name == "" || OneLine(name, f.nameLine(name)))
      && forall k :: 0 <= k < |Split(payload)| ==> OneLine(Split(payload)[k], f.dataLine(Split(payload)[k]))
    case Raw(data) => OneLine(data, f.dataLine(data))
    case Comment(text) => OneLine(text, f.commentLine(text))
  }

  predicate NoReturn(value: string) { value == "" || value[|value| - 1] != '\r' }

  /** Nothing in it that becomes the end of a line ends in a return. */
  predicate Intact(item: Item) {
    match item
    case Event(name, payload) => NoReturn(name) && forall k :: 0 <= k < |Split(payload)| ==> NoReturn(Split(payload)[k])
    case Raw(data) => NoReturn(data)
    case Comment(_) => true
  }

  /** Lines as printed: not empty, ending like their value, and read back as what they are, or less
      the return they end in. */
  ghost predicate Lawful(f: Format) {
    && (forall v :: Ends(f.nameLine(v), v) && f.parse(WithoutReturn(f.nameLine(v))) == Name(WithoutReturn(v)))
    && (forall v :: Ends(f.dataLine(v), v) && f.parse(WithoutReturn(f.dataLine(v))) == Data(WithoutReturn(v)))
    && (forall v :: Ends(f.commentLine(v), v) && f.parse(WithoutReturn(f.commentLine(v))) == Ignored)
  }

  ghost predicate Ends(line: string, v: string) {
    && |line| > |v| + 1 && line[|line| - |v|..] == v
    && forall k :: 0 <= k < |line| - |v| ==> line[k] != '\n' && line[k] != '\r'
  }

  // ---------------------------------------------------------------------------
  // Round trip
  // ---------------------------------------------------------------------------

  lemma {:induction false} SplitJoins(s: string)
    ensures Join(Split(s)) == s
    decreases |s|
  {
    var at := IndexOf(s, '\n');
    if at < |s| {
      var rest := s[at + 1..];
      SplitJoins(rest);
      var lines := Split(s);
      assert lines[0] == s[..at] && lines[1..] == Split(rest);
      assert Join(lines) == s[..at] + ['\n'] + rest;
      assert s == s[..at] + ['\n'] + rest;
    } else {
      assert s[..|s|] == s;
    }
  }

  /** The next line of a stream. */
  lemma NextLine(f: Format, line: string, rest: string, p: Pending)
    requires '\n' !in line && |line| < MAX_LINE
    ensures WithoutReturn(line) != "" ==>
            Decode(f, Terminated(line) + rest, p) == Decode(f, rest, Collect(f, p, WithoutReturn(line)))
    ensures WithoutReturn(line) == "" ==>
              var (more, ok) := Decode(f, rest, FRESH);
              Decode(f, Terminated(line) + rest, p) == (Dispatch(p) + more, ok)
  {
    var s := Terminated(line) + rest;
    assert s == line + ['\n'] + rest;
    FirstBreak(line, rest);
    assert s[..|line|] == line && s[|line| + 1..] == rest;
  }

  lemma LineBreakFree(line: string, v: string)
    requires Ends(line, v) && '\n' !in v
    ensures '\n' !in line && WithoutReturn(line) != ""
  {
    var at := |line| - |v|;
    forall k | 0 <= k < |line| ensures line[k] != '\n' {
      assert k >= at ==> line[k] == line[at..][k - at];
    }
  }

  function Collected(p: Pending, lines: seq<string>): Pending {
    p.(data := p.data + lines, hasData := true)
  }

  lemma DataLineRead(f: Format, v: string, rest: string, p: Pending)
    requires Lawful(f) && OneLine(v, f.dataLine(v))
    ensures Decode(f, Terminated(f.dataLine(v)) + rest, p) == Decode(f, rest, Collected(p, [WithoutReturn(v)]))
  {
    assert Ends(f.dataLine(v), v);
    LineBreakFree(f.dataLine(v), v);
    NextLine(f, f.dataLine(v), rest, p);
  }

  lemma CollectedMore(p: Pending, lines: seq<string>)
    requires lines != []
    ensures Collected(Collected(p, [lines[0]]), lines[1..]) == Collected(p, lines)
  {
    assert p.data + [lines[0]] + lines[1..] == p.data + lines;
  }

  lemma CollectedBare(p: Pending, lines: seq<string>)
    requires lines != []
    ensures Collected(Collected(p, [WithoutReturn(lines[0])]), Bare(lines[1..])) == Collected(p, Bare(lines))
  {
    assert Bare(lines)[1..] == Bare(lines[1..]);
    CollectedMore(p, Bare(lines));
  }

  lemma {:induction false} DataLinesRead(f: Format, lines: seq<string>, rest: string, p: Pending)
    requires Lawful(f) && (lines != [] || p.hasData)
    requires forall k :: 0 <= k < |lines| ==> OneLine(lines[k], f.dataLine(lines[k]))
    ensures Decode(f, DataLines(f, lines, rest), p) == Decode(f, rest, Collected(p, Bare(lines)))
    decreases |lines|
  {
    if lines == [] {
      assert p.data + Bare(lines) == p.data;
    } else {
      var more, q := DataLines(f, lines[1..], rest), Collected(p, [WithoutReturn(lines[0])]);
      DataLineRead(f, lines[0], more, p);
      assert Decode(f, DataLines(f, lines, rest), p) == Decode(f, more, q);
      DataLinesRead(f, lines[1..], rest, q);
      CollectedBare(p, lines);
    }
  }

  lemma {:induction false} DataLinesAppend(f: Format, lines: seq<string>, x: string, rest: string)
    ensures DataLines(f, lines, x) + rest == DataLines(f, lines, x + rest)
    decreases |lines|
  {
    if lines != [] {
      var first, more := Terminated(f.dataLine(lines[0])), DataLines(f, lines[1..], x);
      DataLinesAppend(f, lines[1..], x, rest);
      assert first + more + rest == first + (more + rest);
    }
  }

  lemma BlankRead(f: Format, rest: string, p: Pending)
    ensures var (more, ok) := Decode(f, rest, FRESH); Decode(f, ['\n'] + rest, p) == (Dispatch(p) + more, ok)
  {
    assert Terminated("") + rest == ['\n'] + rest;
    NextLine(f, "", rest, p);
  }

  lemma NameRead(f: Format, name: string, rest: string)
    requires Lawful(f) && (name == "" || OneLine(name, f.nameLine(name)))
    ensures var front := if name == "" then "" else Terminated(f.nameLine(name));
            Decode(f, front + rest, FRESH) == Decode(f, rest, FRESH.(name := WithoutReturn(name)))
  {
    if name == "" {
      assert "" + rest == rest;
    } else {
      assert Ends(f.nameLine(name), name);
      LineBreakFree(f.nameLine(name), name);
      NextLine(f, f.nameLine(name), rest, FRESH);
    }
  }

  lemma EventRead(f: Format, name: string, payload: string, rest: string)
    requires Lawful(f) && Writable(f, Event(name, payload))
    ensures var (more, ok) := Decode(f, rest, FRESH);
            Decode(f, Written(f, Event(name, payload)) + rest, FRESH) == (Arrives(Event(name, payload)) + more, ok)
  {
    var lines := Split(payload);
    var front := if name == "" then "" else Terminated(f.nameLine(name));
    var body := DataLines(f, lines, ['\n']);
    var p := FRESH.(name := WithoutReturn(name));
    DataLinesAppend(f, lines, ['\n'], rest);
    Associates(front, body, rest);
    NameRead(f, name, body + rest);
    DataLinesRead(f, lines, ['\n'] + rest, p);
    assert p.data + Bare(lines) == Bare(lines);
    BlankRead(f, rest, p.(data := Bare(lines), hasData := true));
  }

  lemma RawRead(f: Format, data: string, rest: string)
    requires Lawful(f) && Writable(f, Raw(data))
    ensures var (more, ok) := Decode(f, rest, FRESH);
            Decode(f, Written(f, Raw(data)) + rest, FRESH) == (Arrives(Raw(data)) + more, ok)
  {
    assert Terminated(f.dataLine(data)) + ['\n'] + rest == Terminated(f.dataLine(data)) + (['\n'] + rest);
    DataLineRead(f, data, ['\n'] + rest, FRESH);
    var bare := WithoutReturn(data);
    assert FRESH.data + [bare] == [bare];
    BlankRead(f, rest, FRESH.(data := [bare], hasData := true));
  }

  lemma CommentRead(f: Format, text: string, rest: string)
    requires Lawful(f) && Writable(f, Comment(text))
    ensures Decode(f, Written(f, Comment(text)) + rest, FRESH) == Decode(f, rest, FRESH)
  {
    var line := f.commentLine(text);
    assert Ends(line, text) && f.parse(WithoutReturn(line)) == Ignored;
    LineBreakFree(line, text);
    assert Terminated(line) + ['\n'] + rest == Terminated(line) + (['\n'] + rest);
    NextLine(f, line, ['\n'] + rest, FRESH);
    BlankRead(f, rest, FRESH);
    var (more, ok) := Decode(f, rest, FRESH);
    assert [] + more == more;
  }

  /** Whatever was written, in any order, arrives as exactly the events written, each line less the
      return it ends in: comments gone, and no name left over for the next event. */
  lemma {:induction false} ItemsArrive(f: Format, items: seq<Item>)
    requires Lawful(f) && forall k :: 0 <= k < |items| ==> Writable(f, items[k])
    ensures Decode(f, AllWritten(f, items), FRESH) == (Received(items), true)
    decreases |items|
  {
    if items == [] {
      assert IndexOf("", '\n') == 0;
    } else {
      var rest := AllWritten(f, items[1..]);
      ItemsArrive(f, items[1..]);
      match items[0]
      case Event(name, payload) => EventRead(f, name, payload, rest);
      case Raw(data) => RawRead(f, data, rest);
      case Comment(text) =>
        CommentRead(f, text, rest);
        assert [] + Received(items[1..]) == Received(items[1..]);
    }
  }

  lemma {:induction false} BareJoin(lines: seq<string>)
    ensures |Join(Bare(lines))| <= |Join(lines)|
    ensures |Join(Bare(lines))| == |Join(lines)| <==> forall k :: 0 <= k < |lines| ==> NoReturn(lines[k])
    decreases |lines|
  {
    if |lines| > 1 {
      BareJoin(lines[1..]);
      assert Bare(lines)[1..] == Bare(lines[1..]);
      assert forall k :: 0 < k < |lines| ==> lines[k] == lines[1..][k - 1];
    }
  }

  lemma ArrivesIff(item: Item)
    ensures |Arrives(item)| == |Sent(item)| && (Arrives(item) == Sent(item) <==> Intact(item))
  {
    if item.Event? {
      var lines := Split(item.payload);
      SplitJoins(item.payload);
      BareJoin(lines);
      assert (forall k :: 0 <= k < |lines| ==> NoReturn(lines[k])) ==> Bare(lines) == lines;
      assert Arrives(item) == Sent(item) <==> Arrives(item)[0] == Sent(item)[0];
    } else if item.Raw? {
      assert Arrives(item) == Sent(item) <==> Arrives(item)[0] == Sent(item)[0];
    }
  }

  lemma SameParts<T>(a: seq<T>, b: seq<T>, x: seq<T>, y: seq<T>)
    requires |a| == |b|
    ensures a + x == b + y <==> a == b && x == y
  {
    if a + x == b + y {
      assert a == (a + x)[..|a|] == (b + y)[..|b|] == b;
      assert x == (a + x)[|a|..] == (b + y)[|b|..] == y;
    }
  }

  lemma {:induction false} ReceivedIff(items: seq<Item>)
    ensures Received(items) == Expected(items) <==> forall k :: 0 <= k < |items| ==> Intact(items[k])
    decreases |items|
  {
    if items != [] {
      ArrivesIff(items[0]);
      ReceivedIff(items[1..]);
      SameParts(Arrives(items[0]), Sent(items[0]), Received(items[1..]), Expected(items[1..]));
      assert forall k :: 0 < k < |items| ==> items[k] == items[1..][k - 1];
    }
  }

  // ---------------------------------------------------------------------------
  // Lines as the code reads and prints them
  // ---------------------------------------------------------------------------

  /** `parseStreamField` and the switch on the field name. */
  function ParseLine(line: string): Field {
    var colon := IndexOf(line, ':');
    if line == "" || line[0] == ':' || colon == |line| then Ignored
    else
      var name, rest := line[..colon], line[colon + 1..];
      var value := if rest != "" && rest[0] == ' ' then rest[1..] else rest;
      if name == "event" then Name(value)
      else if name == "data" then Data(value)
      else if name == "id" then Id(value)
      else Ignored
  }

  function Standard(): Format {
    Format((line: string) => ParseLine(line), (v: string) => "event" + ([':', ' '] + v),
           (v: string) => "data" + ([':', ' '] + v), (v: string) => [':', ' '] + v)
  }

  lemma FieldParsed(name: string, v: string)
    requires name != "" && forall k :: 0 <= k < |name| ==> name[k] !in {':', '\n', '\r'}
    ensures var line := name + ([':', ' '] + v);
            && Ends(line, v) && line[0] != ':'
            && IndexOf(line, ':') == |name| && line[..|name|] == name && line[|name| + 1..] == [' '] + v
  {
    var line := name + ([':', ' '] + v);
    assert line[..|name|] == name && line[|name|] == ':';
    IndexOfFirst(line, ':', |name|);
    assert line[|name| + 2..] == v;
  }

  lemma NameParsed(v: string)
    ensures var line := "event" + ([':', ' '] + v); Ends(line, v) && ParseLine(line) == Name(v)
  {
    FieldParsed("event", v);
    assert ([' '] + v)[1..] == v;
  }

  lemma DataParsed(v: string)
    ensures var line := "data" + ([':', ' '] + v); Ends(line, v) && ParseLine(line) == Data(v)
  {
    FieldParsed("data", v);
    assert ([' '] + v)[1..] == v;
    assert "data"[0] != "event"[0];
  }

  lemma CommentParsed(v: string)
    ensures var line := [':', ' '] + v;
            Ends(line, v) && ParseLine(line) == Ignored && ParseLine(WithoutReturn(line)) == Ignored
  {
    var line := [':', ' '] + v;
    assert line[2..] == v && line[0] == ':' && WithoutReturn(line)[0] == ':';
  }

  /** Only the value can bring a return to the end of a line. */
  lemma ReturnOfValue(front: string, v: string)
    requires front != "" && front[|front| - 1] != '\r'
    ensures WithoutReturn(front + v) == front + WithoutReturn(v)
  {
    var line := front + v;
    if v == "" {
      assert line == front;
    } else {
      assert line[|line| - 1] == v[|v| - 1] && line[..|line| - 1] == front + v[..|v| - 1];
    }
  }

  lemma FieldReturn(name: string, v: string)
    ensures WithoutReturn(name + ([':', ' '] + v)) == name + ([':', ' '] + WithoutReturn(v))
  {
    var front := name + [':', ' '];
    assert front + v == name + ([':', ' '] + v) && front + WithoutReturn(v) == name + ([':', ' '] + WithoutReturn(v));
    assert front[|front| - 1] == ' ';
    ReturnOfValue(front, v);
  }

  lemma StandardIsLawful()
    ensures Lawful(Standard())
  {
    var f := Standard();
    forall v ensures Ends(f.nameLine(v), v) && f.parse(WithoutReturn(f.nameLine(v))) == Name(WithoutReturn(v)) {
      NameParsed(v);
      FieldReturn("event", v);
      NameParsed(WithoutReturn(v));
    }
    forall v ensures Ends(f.dataLine(v), v) && f.parse(WithoutReturn(f.dataLine(v))) == Data(WithoutReturn(v)) {
      DataParsed(v);
      FieldReturn("data", v);
      DataParsed(WithoutReturn(v));
    }
    forall v ensures Ends(f.commentLine(v), v) && f.parse(WithoutReturn(f.commentLine(v))) == Ignored {
      CommentParsed(v);
    }
  }

  /** The round trip, for lines as the code reads and prints them: events, raw data and comments in
      any order read back as exactly the events written if and only if no line's content ends in a
      return. */
  lemma RoundTripIff(items: seq<Item>)
    requires forall k :: 0 <= k < |items| ==> Writable(Standard(), items[k])
    ensures Decode(Standard(), AllWritten(Standard(), items), FRESH) == (Expected(items), true)
            <==> forall k :: 0 <= k < |items| ==> Intact(items[k])
  {
    StandardIsLawful();
    ItemsArrive(Standard(), items);
    ReceivedIff(items);
  }

  // ---------------------------------------------------------------------------
  // The reader loop and the writer
  // ---------------------------------------------------------------------------

  /** Events handed out and the event being collected after one line. */
  function Progress(f: Format, p: Pending, line: string): (seq<StreamEvent>, Pending) {
    if line == "" then (Dispatch(p), FRESH) else ([], Collect(f, p, line))
  }

  lemma DecodeProgress(f: Format, s: string, p: Pending, before: seq<StreamEvent>, line: string, rest: string)
    requires ReadLine(s) == Next(line, rest)
    ensures var (out, q) := Progress(f, p, line);
            && before + Decode(f, s, p).0 == before + out + Decode(f, rest, q).0
            && Decode(f, s, p).1 == Decode(f, rest, q).1
  {
    if line == "" {
      Associates(before, Dispatch(p), Decode(f, rest, FRESH).0);
    } else {
      assert before + [] == before;
    }
  }

  /** `decodeStream`, for a consumer that takes every event. */
  method DecodeStream(f: Format, body: string) returns (events: seq<StreamEvent>, ok: bool)
    ensures (events, ok) == Decode(f, body, FRESH)
  {
    events := [];
    var input, p := body, FRESH;
    ghost var all, whole := Decode(f, body, FRESH).0, Decode(f, body, FRESH).1;
    assert [] + all == all;
    var next := ReadLine(input);
    while next.Next?
      invariant next == ReadLine(input)
      invariant all == events + Decode(f, input, p).0 && whole == Decode(f, input, p).1
      decreases |input|
    {
      DecodeProgress(f, input, p, events, next.line, next.rest);
      var (out, q) := Progress(f, p, next.line);
      events, p, input := events + out, q, next.rest;
      next := ReadLine(input);
    }
    if next.TooLong? {
      assert events + [] == events;
      return events, false;
    }
    if next.line != "" {
      p := Collect(f, p, next.line);
    }
    return events + Dispatch(p), true;
  }

  class StreamWriter {
    const f: Format
    var output: string

    constructor (f: Format)
      ensures this.f == f && output == ""
    {
      this.f, output := f, "";
    }

    method WriteEvent(name: string, payload: string)
      modifies this`output
      ensures output == old(output) + Written(f, Event(name, payload))
    {
      var lines := Split(payload);
      ghost var body := DataLines(f, lines, ['\n']);
      if name != "" {
        Associates(output, Terminated(f.nameLine(name)), body);
        output := output + Terminated(f.nameLine(name));
      } else {
        assert "" + body == body;
      }
      WriteData(lines);
      output := output + ['\n'];
    }

    /** One data line per line of the payload. */
    method WriteData(lines: seq<string>)
      modifies this`output
      ensures output + ['\n'] == old(output) + DataLines(f, lines, ['\n'])
    {
      ghost var target := output + DataLines(f, lines, ['\n']);
      assert lines[0..] == lines;
      for k := 0 to |lines|
        invariant output + DataLines(f, lines[k..], ['\n']) == target
      {
        var line := Terminated(f.dataLine(lines[k]));
        assert lines[k..][0] == lines[k] && lines[k..][1..] == lines[k + 1..];
        Associates(output, line, DataLines(f, lines[k + 1..], ['\n']));
        output := output + line;
      }
      assert lines[|lines|..] == [];
    }

    method WriteRawData(data: string)
      modifies this`output
      ensures output == old(output) + Written(f, Raw(data))
    {
      output := output + Terminated(f.dataLine(data)) + ['\n'];
    }

    method WriteComment(text: string)
      modifies this`output
      ensures output == old(output) + Written(f, Comment(text))
    {
      output := output + Terminated(f.commentLine(text)) + ['\n'];
    }
  }
}
