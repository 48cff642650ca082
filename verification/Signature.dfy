/** The cache signature of internal/engine/cache/cache.go: what is written into the digest, and
    when two prefixes write the same bytes. */
module Signature {
  import opened Common
  import opened Decimal

  datatype Tool = Tool(name: string, description: string, parameters: string)

  // ---------------------------------------------------------------------------
  // Length-prefixed fields
  // ---------------------------------------------------------------------------

  /** A printed length, a colon and that much text, in front of `rest`. */
  function Prefixed(a: string, rest: string): string {
    Print(|a|) + ([':'] + (a + rest))
  }

  /** `writeField` in front of `rest`. */
  function Field(name: string, value: string, rest: string): string {
    Prefixed(name, ['='] + Prefixed(value, ['\n'] + rest))
  }

  function ToolFields(t: Tool, rest: string): string {
    Field("name", t.name, Field("description", t.description, Field("parameters", t.parameters, rest)))
  }

  function AllTools(tools: seq<Tool>, rest: string): string {
    if tools == [] then rest else ToolFields(tools[0], AllTools(tools[1..], rest))
  }

  /** What is written into the digest, in front of nothing. */
  function Preimage(system: string, sorted: seq<Tool>, index: string): string {
    Field("system", system, AllTools(sorted, Field("index", index, Field("count", Print(|sorted|), ""))))
  }

  lemma PrefixedAppends(a: string, rest: string, more: string)
    ensures Prefixed(a, rest) + more == Prefixed(a, rest + more)
  {
    var n := Print(|a|);
    assert a + (rest + more) == a + rest + more;
    assert [':'] + (a + rest + more) == [':'] + (a + rest) + more;
    assert n + ([':'] + (a + rest) + more) == n + ([':'] + (a + rest)) + more;
  }

  /** Writing a field and then the rest. */
  lemma FieldAppends(name: string, value: string, rest: string)
    ensures Field(name, value, "") + rest == Field(name, value, rest)
  {
    PrefixedAppends(name, ['='] + Prefixed(value, ['\n'] + ""), rest);
    PrefixedAppends(value, ['\n'] + "", rest);
    assert ['\n'] + "" + rest == ['\n'] + rest;
    assert ['='] + Prefixed(value, ['\n'] + "") + rest == ['='] + (Prefixed(value, ['\n'] + "") + rest);
  }

  lemma OtherFront(b: string, c: char, x: string, y: string)
    requires (forall k :: 0 <= k < |b| ==> IsDigit(b[k])) && !IsDigit(c)
    requires [c] + x == b + ([c] + y)
    ensures b == ""
  {
    assert ([c] + x)[0] == c;
  }

  /** Digits up to the first other character can be told apart from what follows. */
  lemma {:induction false} DigitsEnd(a: string, b: string, c: char, x: string, y: string)
    requires (forall k :: 0 <= k < |a| ==> IsDigit(a[k])) && (forall k :: 0 <= k < |b| ==> IsDigit(b[k])) && !IsDigit(c)
    requires a + ([c] + x) == b + ([c] + y)
    ensures a == b && x == y
    decreases |a|
  {
    var l, r := a + ([c] + x), b + ([c] + y);
    assert ([c] + x)[1..] == x && ([c] + y)[1..] == y;
    if a == "" || b == "" {
      if a == "" {
        assert l == [c] + x;
        OtherFront(b, c, x, y);
        assert r == [c] + y;
      } else {
        assert r == [c] + y;
        OtherFront(a, c, y, x);
      }
    } else {
      assert l[0] == a[0] && r[0] == b[0];
      assert l[1..] == a[1..] + ([c] + x) && r[1..] == b[1..] + ([c] + y);
      DigitsEnd(a[1..], b[1..], c, x, y);
      assert a == [a[0]] + a[1..] && b == [b[0]] + b[1..];
    }
  }

  /** A length prefix makes text self-delimiting. */
  lemma PrefixedReadBack(a: string, x: string, b: string, y: string)
    requires Prefixed(a, x) == Prefixed(b, y)
    ensures a == b && x == y
  {
    DigitsEnd(Print(|a|), Print(|b|), ':', a + x, b + y);
    PrintInjective(|a|, |b|);
    assert a == (a + x)[..|a|] && b == (b + y)[..|b|];
    assert x == (a + x)[|a|..] && y == (b + y)[|b|..];
  }

  /** A field can be read back from in front of anything. */
  lemma FieldReadBack(n1: string, v1: string, x: string, n2: string, v2: string, y: string)
    requires Field(n1, v1, x) == Field(n2, v2, y)
    ensures n1 == n2 && v1 == v2 && x == y
  {
    var t1, t2 := Prefixed(v1, ['\n'] + x), Prefixed(v2, ['\n'] + y);
    PrefixedReadBack(n1, ['='] + t1, n2, ['='] + t2);
    assert (['='] + t1)[1..] == t1 && (['='] + t2)[1..] == t2;
    PrefixedReadBack(v1, ['\n'] + x, v2, ['\n'] + y);
    assert (['\n'] + x)[1..] == x && (['\n'] + y)[1..] == y;
  }

  lemma ToolReadBack(s: Tool, x: string, t: Tool, y: string)
    requires ToolFields(s, x) == ToolFields(t, y)
    ensures s == t && x == y
  {
    var p1, p2 := Field("parameters", s.parameters, x), Field("parameters", t.parameters, y);
    var d1, d2 := Field("description", s.description, p1), Field("description", t.description, p2);
    FieldReadBack("name", s.name, d1, "name", t.name, d2);
    FieldReadBack("description", s.description, p1, "description", t.description, p2);
    FieldReadBack("parameters", s.parameters, x, "parameters", t.parameters, y);
  }

  /** The end of the tool list cannot be taken for another tool. */
  lemma EndIsNoTool(index: string, x: string, t: Tool, y: string)
    ensures Field("index", index, x) != ToolFields(t, y)
  {
    assert Print(|"index"|) == "5" && Print(|"name"|) == "4";
    assert Field("index", index, x)[0] == '5' && ToolFields(t, y)[0] == '4';
  }

  lemma HeadAndTail(a: seq<Tool>, b: seq<Tool>)
    requires a != [] && b != [] && a[0] == b[0] && a[1..] == b[1..]
    ensures a == b
  {
    assert a == [a[0]] + a[1..] && b == [b[0]] + b[1..];
  }

  lemma {:induction false} ToolListReadBack(a: seq<Tool>, i: string, x: string, b: seq<Tool>, j: string, y: string)
    requires AllTools(a, Field("index", i, x)) == AllTools(b, Field("index", j, y))
    ensures a == b && i == j
    decreases |a|
  {
    if a == [] && b == [] {
      FieldReadBack("index", i, x, "index", j, y);
    } else if a == [] {
      EndIsNoTool(i, x, b[0], AllTools(b[1..], Field("index", j, y)));
    } else if b == [] {
      EndIsNoTool(j, y, a[0], AllTools(a[1..], Field("index", i, x)));
    } else {
      ToolListStep(a, Field("index", i, x), b, Field("index", j, y));
      ToolListReadBack(a[1..], i, x, b[1..], j, y);
      HeadAndTail(a, b);
    }
  }

  lemma ToolListStep(a: seq<Tool>, x: string, b: seq<Tool>, y: string)
    requires a != [] && b != [] && AllTools(a, x) == AllTools(b, y)
    ensures a[0] == b[0] && AllTools(a[1..], x) == AllTools(b[1..], y)
  {
    ToolReadBack(a[0], AllTools(a[1..], x), b[0], AllTools(b[1..], y));
  }

  /** The bytes written determine the system prompt, the tools and the index. */
  lemma UniquelyDecodable(s1: string, a: seq<Tool>, i1: string, s2: string, b: seq<Tool>, i2: string)
    ensures Preimage(s1, a, i1) == Preimage(s2, b, i2) <==> s1 == s2 && a == b && i1 == i2
  {
    if Preimage(s1, a, i1) == Preimage(s2, b, i2) {
      var x, y := Field("count", Print(|a|), ""), Field("count", Print(|b|), "");
      FieldReadBack("system", s1, AllTools(a, Field("index", i1, x)), "system", s2, AllTools(b, Field("index", i2, y)));
      ToolListReadBack(a, i1, x, b, i2, y);
    }
  }

  // ---------------------------------------------------------------------------
  // Order by name
  // ---------------------------------------------------------------------------

  /** Byte-wise order of strings. */
  predicate Less(a: string, b: string) {
    b != "" && (a == "" || a[0] < b[0] || (a[0] == b[0] && Less(a[1..], b[1..])))
  }

  lemma {:induction false} LessIrreflexive(a: string)
    ensures !Less(a, a)
  {
    if a != "" {
      LessIrreflexive(a[1..]);
    }
  }

  lemma {:induction false} LessTotal(a: string, b: string)
    ensures Less(a, b) || a == b || Less(b, a)
    ensures !(Less(a, b) && Less(b, a))
    decreases |a|
  {
    if a != "" && b != "" {
      LessTotal(a[1..], b[1..]);
      assert a == [a[0]] + a[1..] && b == [b[0]] + b[1..];
    }
  }

  lemma {:induction false} LessTransitive(a: string, b: string, c: string)
    requires !Less(b, a) && !Less(c, b)
    ensures !Less(c, a)
    decreases |a| + |b| + |c|
  {
    if a != "" && b != "" && c != "" && a[0] == b[0] == c[0] {
      LessTransitive(a[1..], b[1..], c[1..]);
    }
  }

  ghost predicate Sorted(ts: seq<Tool>) {
    forall i, k :: 0 <= i < k < |ts| ==> !Less(ts[k].name, ts[i].name)
  }

  /** The tools of one name, in the order given. */
  function Named(ts: seq<Tool>, name: string): seq<Tool> {
    if ts == [] then [] else (if ts[0].name == name then [ts[0]] else []) + Named(ts[1..], name)
  }

  ghost predicate SameGroups(a: seq<Tool>, b: seq<Tool>) {
    forall name :: Named(a, name) == Named(b, name)
  }

  lemma {:induction false} NamedMembers(ts: seq<Tool>, k: nat)
    requires k < |ts|
    ensures Named(ts, ts[k].name) != []
  {
    if k > 0 {
      NamedMembers(ts[1..], k - 1);
    }
  }

  lemma {:induction false} NamedFound(ts: seq<Tool>, name: string) returns (k: nat)
    requires Named(ts, name) != []
    ensures k < |ts| && ts[k].name == name
  {
    if ts[0].name == name {
      k := 0;
    } else {
      var j := NamedFound(ts[1..], name);
      k := j + 1;
    }
  }

  /** Sorted lists with the same groups are the same list. */
  lemma {:induction false} SortedUnique(a: seq<Tool>, b: seq<Tool>)
    requires Sorted(a) && Sorted(b) && SameGroups(a, b)
    ensures a == b
    decreases |a|
  {
    if a == [] {
      if b != [] {
        NamedMembers(b, 0);
      }
    } else {
      var n := a[0].name;
      NamedMembers(a, 0);
      assert Named(b, n) != [];
      var k := NamedFound(b, n);
      var m := b[0].name;
      NamedMembers(b, 0);
      assert Named(a, m) != [];
      var j := NamedFound(a, m);
      LessTotal(n, m);
      assert n == m;
      assert Named(a, n)[0] == a[0] && Named(b, n)[0] == b[0];
      forall name ensures Named(a[1..], name) == Named(b[1..], name) {
        assert Named(a, name) == Named(b, name);
        var head := if n == name then [a[0]] else [];
        assert Named(a, name)[|head|..] == Named(a[1..], name) && Named(b, name)[|head|..] == Named(b[1..], name);
      }
      SortedUnique(a[1..], b[1..]);
      assert a == [a[0]] + a[1..] && b == [b[0]] + b[1..];
    }
  }

  /** A stable sort: each tool goes in front of the first one not below it. */
  function Insert(t: Tool, ts: seq<Tool>): seq<Tool> {
    if ts == [] || !Less(ts[0].name, t.name) then [t] + ts else [ts[0]] + Insert(t, ts[1..])
  }

  function Sort(ts: seq<Tool>): seq<Tool> {
    if ts == [] then [] else Insert(ts[0], Sort(ts[1..]))
  }

  lemma {:induction false} InsertNamed(t: Tool, ts: seq<Tool>, name: string)
    ensures Named(Insert(t, ts), name) == (if t.name == name then [t] else []) + Named(ts, name)
    ensures |Insert(t, ts)| == |ts| + 1
  {
    var r := Insert(t, ts);
    if ts == [] || !Less(ts[0].name, t.name) {
      assert r[0] == t && r[1..] == ts;
    } else {
      LessIrreflexive(t.name);
      assert r[0] == ts[0] && r[1..] == Insert(t, ts[1..]);
      InsertNamed(t, ts[1..], name);
      var front := if ts[0].name == name then [ts[0]] else [];
      assert Named(r, name) == front + Named(Insert(t, ts[1..]), name)
        && Named(ts, name) == front + Named(ts[1..], name);
      if t.name == name {
        assert front == [];
      }
    }
  }

  lemma {:induction false} InsertMember(t: Tool, ts: seq<Tool>, k: nat)
    requires k < |Insert(t, ts)|
    ensures Insert(t, ts)[k] == t || Insert(t, ts)[k] in ts
  {
    if !(ts == [] || !Less(ts[0].name, t.name)) && k > 0 {
      InsertMember(t, ts[1..], k - 1);
    }
  }

  lemma {:induction false} InsertSorted(t: Tool, ts: seq<Tool>)
    requires Sorted(ts)
    ensures Sorted(Insert(t, ts))
  {
    var r := Insert(t, ts);
    if ts == [] {
    } else if !Less(ts[0].name, t.name) {
      forall k | 0 <= k < |ts| ensures !Less(ts[k].name, t.name) {
        if k > 0 {
          LessTransitive(t.name, ts[0].name, ts[k].name);
        }
      }
    } else {
      InsertSorted(t, ts[1..]);
      LessTotal(ts[0].name, t.name);
      forall k | 0 < k < |r| ensures !Less(r[k].name, r[0].name) {
        assert r[k] == Insert(t, ts[1..])[k - 1];
        InsertMember(t, ts[1..], k - 1);
        if r[k] in ts[1..] {
          var j :| 0 <= j < |ts[1..]| && ts[1..][j] == r[k];
          assert ts[j + 1] == r[k];
        }
      }
      forall i, k | 0 < i < k < |r| ensures !Less(r[k].name, r[i].name) {
        assert r[i] == Insert(t, ts[1..])[i - 1] && r[k] == Insert(t, ts[1..])[k - 1];
      }
    }
  }

  lemma {:induction false} SortSorts(ts: seq<Tool>)
    ensures Sorted(Sort(ts)) && SameGroups(Sort(ts), ts) && |Sort(ts)| == |ts|
  {
    if ts != [] {
      SortSorts(ts[1..]);
      InsertSorted(ts[0], Sort(ts[1..]));
      InsertNamed(ts[0], Sort(ts[1..]), "");
      forall name ensures Named(Sort(ts), name) == Named(ts, name) {
        InsertNamed(ts[0], Sort(ts[1..]), name);
        assert Named(Sort(ts[1..]), name) == Named(ts[1..], name);
      }
    }
  }

  /** Every stable sort by name gives this list, whatever its algorithm. */
  lemma AnyStableSort(ts: seq<Tool>, result: seq<Tool>)
    requires Sorted(result) && SameGroups(result, ts)
    ensures result == Sort(ts)
  {
    SortSorts(ts);
    forall name ensures Named(result, name) == Named(Sort(ts), name) {
      assert Named(result, name) == Named(ts, name) == Named(Sort(ts), name);
    }
    SortedUnique(result, Sort(ts));
  }

  // ---------------------------------------------------------------------------
  // Main results
  // ---------------------------------------------------------------------------

  /** `writeField` appends one field. */
  method WriteField(sofar: string, name: string, value: string, ghost rest: string) returns (written: string)
    ensures written + rest == sofar + Field(name, value, rest)
    ensures written == sofar + Field(name, value, "")
  {
    var field := Print(|name|) + ":" + name + "=" + Print(|value|) + ":" + value + "\n";
    assert field == Field(name, value, "") by {
      var v := Prefixed(value, ['\n'] + "");
      assert v == Print(|value|) + ":" + value + "\n";
      assert ['='] + v == "=" + Print(|value|) + ":" + value + "\n";
      assert Prefixed(name, ['='] + v) == Print(|name|) + ":" + name + "=" + Print(|value|) + ":" + value + "\n";
    }
    FieldAppends(name, value, rest);
    written := sofar + field;
    assert sofar + field + rest == sofar + (field + rest);
  }

  /** What `Signature` writes into the digest, field by field. */
  method Write(system: string, tools: seq<Tool>, index: string) returns (written: string)
    ensures written == Preimage(system, Sort(tools), index)
  {
    var sorted := Sort(tools);
    ghost var ending := Field("index", index, Field("count", Print(|sorted|), ""));
    written := WriteField("", "system", system, AllTools(sorted, ending));
    assert sorted[0..] == sorted;
    for k := 0 to |sorted|
      invariant written + AllTools(sorted[k..], ending) == Preimage(system, sorted, index)
    {
      var t := sorted[k];
      assert sorted[k..][0] == t && sorted[k..][1..] == sorted[k + 1..];
      ghost var rest := AllTools(sorted[k + 1..], ending);
      written := WriteField(written, "name", t.name,
        Field("description", t.description, Field("parameters", t.parameters, rest)));
      written := WriteField(written, "description", t.description, Field("parameters", t.parameters, rest));
      written := WriteField(written, "parameters", t.parameters, rest);
    }
    assert sorted[|sorted|..] == [];
    written := WriteField(written, "index", index, Field("count", Print(|sorted|), ""));
    written := WriteField(written, "count", Print(|sorted|), "");
    assert written + "" == written;
  }

  /** Two calls write the same bytes exactly when system and index are equal and every name has the
      same tools in the same order. */
  lemma SameBytesIff(s1: string, a: seq<Tool>, i1: string, s2: string, b: seq<Tool>, i2: string)
    ensures Preimage(s1, Sort(a), i1) == Preimage(s2, Sort(b), i2) <==> s1 == s2 && i1 == i2 && SameGroups(a, b)
  {
    UniquelyDecodable(s1, Sort(a), i1, s2, Sort(b), i2);
    SortSorts(a);
    SortSorts(b);
    if Sort(a) == Sort(b) {
      forall name ensures Named(a, name) == Named(b, name) {
        assert Named(a, name) == Named(Sort(a), name) && Named(b, name) == Named(Sort(b), name);
      }
    }
    if SameGroups(a, b) {
      forall name ensures Named(Sort(a), name) == Named(b, name) {
        assert Named(Sort(a), name) == Named(a, name);
      }
      AnyStableSort(b, Sort(a));
    }
  }

  ghost predicate DistinctNames(ts: seq<Tool>) {
    forall i, k :: 0 <= i < k < |ts| ==> ts[i].name != ts[k].name
  }

  lemma {:induction false} NoGroup(ts: seq<Tool>, name: string)
    requires forall k :: 0 <= k < |ts| ==> ts[k].name != name
    ensures Named(ts, name) == []
  {
    if ts != [] {
      NoGroup(ts[1..], name);
    }
  }

  /** With distinct names a name's group is the one tool that bears it. */
  lemma {:induction false} GroupOfOne(ts: seq<Tool>, name: string)
    requires DistinctNames(ts)
    ensures |Named(ts, name)| <= 1
    ensures forall t :: t in Named(ts, name) <==> t in ts && t.name == name
  {
    if ts != [] {
      GroupOfOne(ts[1..], name);
      assert ts == [ts[0]] + ts[1..];
      if ts[0].name == name {
        forall k | 0 <= k < |ts[1..]| ensures ts[1..][k].name != name {
          assert ts[1..][k] == ts[k + 1];
        }
        NoGroup(ts[1..], name);
      }
    }
  }

  lemma AtMostOneEqual(x: seq<Tool>, y: seq<Tool>)
    requires |x| <= 1 && |y| <= 1 && forall t :: t in x <==> t in y
    ensures x == y
  {
    assert |x| > 0 ==> x[0] in x && x[0] in y;
    assert |y| > 0 ==> y[0] in y && y[0] in x;
  }

  /** With distinct names the order of the tools does not matter. */
  lemma OrderIsInvisible(system: string, a: seq<Tool>, b: seq<Tool>, index: string)
    requires DistinctNames(a) && DistinctNames(b) && forall t :: t in a <==> t in b
    ensures Preimage(system, Sort(a), index) == Preimage(system, Sort(b), index)
  {
    forall name ensures Named(a, name) == Named(b, name) {
      GroupOfOne(a, name);
      GroupOfOne(b, name);
      AtMostOneEqual(Named(a, name), Named(b, name));
    }
    SameBytesIff(system, a, index, system, b, index);
  }
}
