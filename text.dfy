/** The string operations of JavaScript that the components rely on:
    `String.prototype.trim`, `Array.prototype.join` and `String.prototype.includes`. */
module Text {

  /** The characters `trim()` removes: ECMAScript WhiteSpace (tab, vertical tab,
      form feed, the space separators, no-break space, byte-order mark) and
      LineTerminator (LF, CR, U+2028, U+2029). */
  predicate IsSpace(c: char) {
    c == '\t' || c == '\n' || c == '\U{000B}' || c == '\U{000C}' || c == '\r' ||
    c == ' ' || c == '\U{00A0}' || c == '\U{1680}' ||
    ('\U{2000}' <= c <= '\U{200A}') ||
    c == '\U{2028}' || c == '\U{2029}' || c == '\U{202F}' || c == '\U{205F}' ||
    c == '\U{3000}' || c == '\U{FEFF}'
  }

  /** A string with no removable character at either end. */
  predicate IsTrimmed(t: string) {
    t == [] || (!IsSpace(t[0]) && !IsSpace(t[|t| - 1]))
  }

  /** Drops the leading removable characters: the result is the longest suffix
      that does not start with one. */
  function TrimStart(s: string): (r: string)
    ensures |r| <= |s| && r == s[|s| - |r|..]
    ensures r == [] || !IsSpace(r[0])
  {
    if s != [] && IsSpace(s[0]) then TrimStart(s[1..]) else s
  }

  /** Everything `TrimStart` drops is removable. */
  lemma {:induction false} TrimStartDropsSpaces(s: string)
    ensures forall i :: 0 <= i < |s| - |TrimStart(s)| ==> IsSpace(s[i])
  {
    if s != [] && IsSpace(s[0]) {
      TrimStartDropsSpaces(s[1..]);
      assert forall i :: 0 < i < |s| - |TrimStart(s)| ==> s[i] == s[1..][i - 1];
    }
  }

  /** Drops the trailing removable characters: the result is the longest prefix
      that does not end with one. */
  function TrimEnd(s: string): (r: string)
    ensures |r| <= |s| && r == s[..|r|]
    ensures r == [] || !IsSpace(r[|r| - 1])
  {
    if s != [] && IsSpace(s[|s| - 1]) then TrimEnd(s[..|s| - 1]) else s
  }

  /** Everything `TrimEnd` drops is removable. */
  lemma {:induction false} TrimEndDropsSpaces(s: string)
    ensures forall i :: |TrimEnd(s)| <= i < |s| ==> IsSpace(s[i])
  {
    if s != [] && IsSpace(s[|s| - 1]) {
      TrimEndDropsSpaces(s[..|s| - 1]);
      assert forall i :: |TrimEnd(s)| <= i < |s| - 1 ==> s[i] == s[..|s| - 1][i];
    }
  }

  /** `s.trim()`: the middle part of `s` left after removing whitespace at both
      ends. What is cut off is all whitespace, and the cut is maximal: what
      remains neither starts nor ends with whitespace. */
  function Trim(s: string): (r: string)
    ensures IsTrimmed(r)
    ensures r != [] ==> !IsSpace(r[0]) && !IsSpace(r[|r| - 1])
    ensures exists a, b :: 0 <= a <= b <= |s| && r == s[a..b] && IsBlank(s[..a]) && IsBlank(s[b..])
  {
    var front := TrimStart(s);
    var r := TrimEnd(front);
    LeadBlank(s);
    TrailBlank(front);
    TrimCut(s, front, r);
    r
  }

  /** Cutting a blank prefix and then a blank suffix leaves a middle slice with
      blank text on both sides. */
  lemma TrimCut(s: string, front: string, r: string)
    requires |front| <= |s| && front == s[|s| - |front|..] && IsBlank(s[..|s| - |front|])
    requires |r| <= |front| && r == front[..|r|] && IsBlank(front[|r|..])
    ensures var a := |s| - |front|;
      0 <= a <= a + |r| <= |s| && r == s[a..a + |r|] &&
      IsBlank(s[..a]) && IsBlank(s[a + |r|..])
  {
    var a := |s| - |front|;
    assert s[a + |r|..] == front[|r|..];
  }

  /** What `TrimStart` drops is blank. */
  lemma LeadBlank(s: string)
    ensures IsBlank(s[..|s| - |TrimStart(s)|])
  {
    TrimStartDropsSpaces(s);
  }

  /** What `TrimEnd` drops is blank. */
  lemma TrailBlank(s: string)
    ensures IsBlank(s[|TrimEnd(s)|..])
  {
    TrimEndDropsSpaces(s);
  }

  /** A string whose every character is removable; JavaScript's `!s.trim()`
      holds exactly for these (`BlankIffTrimEmpty`). */
  predicate IsBlank(s: string) {
    forall i :: 0 <= i < |s| ==> IsSpace(s[i])
  }

  /** A trimmed string is its own trim. */
  lemma TrimmedIsFixpoint(t: string)
    requires IsTrimmed(t)
    ensures Trim(t) == t
  {
    assert TrimStart(t) == t;
    assert TrimEnd(t) == t;
  }

  /** `trim()` is idempotent. */
  lemma TrimIdempotent(s: string)
    ensures Trim(Trim(s)) == Trim(s)
  {
    TrimmedIsFixpoint(Trim(s));
  }

  /** `trim()` gives the empty string exactly for blank strings. */
  lemma {:induction false} BlankIffTrimEmpty(s: string)
    ensures IsBlank(s) <==> Trim(s) == []
  {
    var front := TrimStart(s);
    TrimStartDropsSpaces(s);
    if front != [] {
      TrimEndDropsSpaces(front);
      assert !IsSpace(front[0]);
      assert TrimEnd(front) != [];
      assert s[|s| - |front|] == front[0];
    }
  }

  /** `lines.join(sep)`: the strings of `lines` with `sep` between neighbours. */
  function Join(lines: seq<string>, sep: string): string {
    if lines == [] then []
    else if |lines| == 1 then lines[0]
    else lines[0] + sep + Join(lines[1..], sep)
  }

  /** `sub` occurs in `s` starting at position `i`. */
  ghost predicate OccursAt(s: string, sub: string, i: int) {
    0 <= i && i + |sub| <= |s| && s[i..i + |sub|] == sub
  }

  /** `sub` occurs somewhere in `s`. */
  ghost predicate Contains(s: string, sub: string) {
    exists i :: OccursAt(s, sub, i)
  }

  /** An occurrence stays an occurrence when text is added on either side. */
  lemma OccursInContext(a: string, s: string, b: string, sub: string, i: int)
    requires OccursAt(s, sub, i)
    ensures OccursAt(a + s + b, sub, |a| + i)
  {
    assert (a + s + b)[|a| + i..|a| + i + |sub|] == s[i..i + |sub|];
  }

  /** Every joined string occurs in the joined text. */
  lemma {:induction false} JoinContains(lines: seq<string>, sep: string, k: int)
    requires 0 <= k < |lines|
    ensures exists i :: OccursAt(Join(lines, sep), lines[k], i)
    decreases |lines|
  {
    if |lines| == 1 {
      assert OccursAt(Join(lines, sep), lines[k], 0);
    } else if k == 0 {
      OccursInContext([], lines[0], sep + Join(lines[1..], sep), lines[0], 0);
      assert [] + lines[0] + (sep + Join(lines[1..], sep)) == Join(lines, sep);
    } else {
      JoinContains(lines[1..], sep, k - 1);
      var i :| OccursAt(Join(lines[1..], sep), lines[k], i);
      OccursInContext(lines[0] + sep, Join(lines[1..], sep), [], lines[k], i);
      assert lines[0] + sep + Join(lines[1..], sep) + [] == Join(lines, sep);
    }
  }

  /** `s.includes(sub)`: some position of `s` starts an occurrence of `sub`. */
  function Includes(s: string, sub: string): (r: bool)
    ensures r <==> exists i :: OccursAt(s, sub, i)
    decreases |s|
  {
    if |sub| <= |s| && s[..|sub|] == sub then
      assert OccursAt(s, sub, 0);
      true
    else if s == [] then
      assert forall i :: !OccursAt(s, sub, i);
      false
    else
      var r := Includes(s[1..], sub);
      assert forall i :: OccursAt(s[1..], sub, i) ==> OccursAt(s, sub, i + 1);
      assert forall i :: OccursAt(s, sub, i) ==> i == 0 || OccursAt(s[1..], sub, i - 1);
      r
  }
}
