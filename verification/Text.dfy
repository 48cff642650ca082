/** String helpers the readers share: trimming, lower case, and the first occurrence of a character. */
module Text {
  import opened Common

  function TrimLeft(drop: char -> bool, s: string): (t: string)
    ensures t == "" || !drop(t[0])
    ensures |t| <= |s| && t == s[|s| - |t|..]
  {
    if s != "" && drop(s[0]) then TrimLeft(drop, s[1..]) else s
  }

  function TrimRight(drop: char -> bool, s: string): (t: string)
    ensures t == "" || !drop(t[|t| - 1])
    ensures t <= s
  {
    if s != "" && drop(s[|s| - 1]) then TrimRight(drop, s[..|s| - 1]) else s
  }

  function Trim(drop: char -> bool, s: string): (t: string)
    ensures t == "" || (!drop(t[0]) && !drop(t[|t| - 1]))
  {
    var left := TrimLeft(drop, s);
    var t := TrimRight(drop, left);
    assert t != "" ==> t[0] == left[0];
    t
  }

  /** ASCII white space. */
  function Space(): char -> bool {
    (c: char) => c in {' ', '\t', '\n', '\r', '\U{0B}', '\U{0C}'}
  }

  function LineEnd(): char -> bool {
    (c: char) => c == '\r' || c == '\n'
  }

  function LowerChar(c: char): char {
    if 'A' <= c <= 'Z' then c + 32 as char else c
  }

  /** ASCII lower case. */
  function Lower(s: string): (t: string)
    ensures |t| == |s| && forall i :: 0 <= i < |s| ==> t[i] == LowerChar(s[i])
  {
    seq(|s|, i requires 0 <= i < |s| => LowerChar(s[i]))
  }

  /** Text whose ends stay is left as it is. */
  lemma TrimNothing(drop: char -> bool, s: string)
    requires s != "" && !drop(s[0]) && !drop(s[|s| - 1])
    ensures Trim(drop, s) == s
  {
  }

  /** Where a line ends whose content holds no line break. */
  lemma FirstBreak(line: string, rest: string)
    requires '\n' !in line
    ensures IndexOf(line + ['\n'] + rest, '\n') == |line|
  {
    var s := line + ['\n'] + rest;
    assert s[..|line|] == line && s[|line|] == '\n';
    IndexOfFirst(s, '\n', |line|);
  }
}
