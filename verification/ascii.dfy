/**
 * Character classes and case mappings of Python's `str` methods and of its
 * `re` module, restricted to ASCII. Characters outside ASCII count as neither
 * whitespace nor word characters and have no case.
 */
module Ascii {

  /** `str.isspace()`, and the class `\s` of a `str` pattern: tab, line feed,
      vertical tab, form feed, carriage return, the separators 0x1C-0x1F and space. */
  predicate IsSpace(c: char) {
    c == ' ' || '\t' <= c <= '\r' || '\U{1C}' <= c <= '\U{1F}'
  }

  predicate IsLower(c: char) { 'a' <= c <= 'z' }

  predicate IsUpper(c: char) { 'A' <= c <= 'Z' }

  /** A cased character, in the sense of `str.title()`. */
  predicate IsLetter(c: char) { IsLower(c) || IsUpper(c) }

  /** The class `\w`. */
  predicate IsWordChar(c: char) { IsLetter(c) || '0' <= c <= '9' || c == '_' }

  /** `c.upper()`: only a lower-case letter changes, and it keeps its class. */
  function Upper(c: char): (u: char)
    ensures !IsLower(u)
    ensures IsLower(c) <==> u != c
    ensures IsLetter(u) == IsLetter(c) && IsWordChar(u) == IsWordChar(c) && IsSpace(u) == IsSpace(c)
  {
    if IsLower(c) then (c as int - 32) as char else c
  }

  /** `c.lower()`: only an upper-case letter changes, and it keeps its class. */
  function Lower(c: char): (l: char)
    ensures !IsUpper(l)
    ensures IsUpper(c) <==> l != c
    ensures IsLetter(l) == IsLetter(c) && IsWordChar(l) == IsWordChar(c) && IsSpace(l) == IsSpace(c)
  {
    if IsUpper(c) then (c as int + 32) as char else c
  }

  /** `s.lower()`. */
  function LowerStr(s: string): (r: string)
    ensures |r| == |s|
    ensures forall i :: 0 <= i < |r| ==> !IsUpper(r[i])
  {
    seq(|s|, i requires 0 <= i < |s| => Lower(s[i]))
  }

  /** Lower-casing twice is lower-casing once, so what `lower()` discarded cannot come back. */
  lemma LowerStrIdempotent(s: string)
    ensures LowerStr(LowerStr(s)) == LowerStr(s)
  {
    var once := LowerStr(s);
    forall i | 0 <= i < |s|
      ensures LowerStr(once)[i] == once[i]
    {
      assert !IsUpper(once[i]);
    }
  }

  /** `s.title()`: a letter becomes upper case when the character before it is
      not a letter (or there is none), lower case otherwise. */
  function Title(s: string): (t: string)
    ensures |t| == |s|
  {
    TitleAfter(s, false)
  }

  /** `Title` continued after a character that was (`prevCased`) or was not a letter. */
  function TitleAfter(s: string, prevCased: bool): (t: string)
    ensures |t| == |s|
    decreases |s|
  {
    if s == [] then []
    else [if prevCased then Lower(s[0]) else Upper(s[0])] + TitleAfter(s[1..], IsLetter(s[0]))
  }

  lemma {:induction false} TitleAfterAt(s: string, prevCased: bool, i: nat)
    requires i < |s|
    ensures TitleAfter(s, prevCased)[i]
         == if (if i == 0 then prevCased else IsLetter(s[i - 1])) then Lower(s[i]) else Upper(s[i])
    decreases i
  {
    if i > 0 {
      TitleAfterAt(s[1..], IsLetter(s[0]), i - 1);
    }
  }

  /** Each character of `s.title()` is upper-cased at the start of a word and
      lower-cased inside one. */
  lemma TitleAt(s: string, i: nat)
    requires i < |s|
    ensures Title(s)[i] == if i > 0 && IsLetter(s[i - 1]) then Lower(s[i]) else Upper(s[i])
  {
    TitleAfterAt(s, false, i);
  }

  /** Putting `s[i]` back in front of a slice that starts right after it. */
  lemma ConsSlice(s: string, i: nat, j: nat, x: string, y: string)
    requires i < j <= |s|
    ensures [s[i]] + (s[i + 1..j] + x + y) == s[i..j] + x + y
  {
    assert s[i..j] == [s[i]] + s[i + 1..j];
  }

  /** The end of the whitespace run that starts at `i`. */
  function SpaceRunEnd(s: string, i: nat): (e: nat)
    requires i <= |s|
    ensures i <= e <= |s|
    ensures forall q :: i <= q < e ==> IsSpace(s[q])
    ensures e == |s| || !IsSpace(s[e])
    decreases |s| - i
  {
    if i < |s| && IsSpace(s[i]) then SpaceRunEnd(s, i + 1) else i
  }

  /** The start of the whitespace run that ends at `i`. */
  function SpaceRunStart(s: string, i: nat): (b: nat)
    requires i <= |s|
    ensures b <= i
    ensures forall q :: b <= q < i ==> IsSpace(s[q])
    ensures b == 0 || !IsSpace(s[b - 1])
    decreases i
  {
    if i > 0 && IsSpace(s[i - 1]) then SpaceRunStart(s, i - 1) else i
  }

  /** `s.lstrip()` with no argument: the leading whitespace run is dropped. */
  function TrimStart(s: string): (r: string)
    ensures |r| <= |s| && r == s[|s| - |r|..]
    ensures forall q :: 0 <= q < |s| - |r| ==> IsSpace(s[q])
    ensures r == [] || !IsSpace(r[0])
  {
    s[SpaceRunEnd(s, 0)..]
  }

  /** `s.rstrip()` with no argument: the trailing whitespace run is dropped. */
  function TrimEnd(s: string): (r: string)
    ensures |r| <= |s| && r == s[..|r|]
    ensures forall q :: |r| <= q < |s| ==> IsSpace(s[q])
    ensures r == [] || !IsSpace(r[|r| - 1])
  {
    s[..SpaceRunStart(s, |s|)]
  }

  /** `s.strip()` with no argument: the text between a leading and a
      trailing whitespace run. */
  function Strip(s: string): (r: string)
    ensures var a := SpaceRunEnd(s, 0);
            a + |r| <= |s| && r == s[a..a + |r|] &&
            (forall q :: 0 <= q < a ==> IsSpace(s[q])) &&
            (forall q :: a + |r| <= q < |s| ==> IsSpace(s[q]))
    ensures r == [] || (!IsSpace(r[0]) && !IsSpace(r[|r| - 1]))
  {
    var t := TrimStart(s);
    var a := |s| - |t|;
    var r := TrimEnd(t);
    assert r == s[a..a + |r|];
    forall q | a + |r| <= q < |s|
      ensures IsSpace(s[q])
    {
      assert s[q] == t[q - a];
    }
    r
  }

  /** `not s.strip()` holds exactly when every character of `s` is whitespace. */
  lemma StripEmptyIffBlank(s: string)
    ensures Strip(s) == [] <==> forall i :: 0 <= i < |s| ==> IsSpace(s[i])
  {
    var k := SpaceRunEnd(s, 0);
    var t := s[k..];
    var m := SpaceRunStart(t, |t|);
    assert Strip(s) == t[..m];
    if Strip(s) == [] {
      assert m == 0;
    }
  }
}
