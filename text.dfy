/**
 * String helpers shared by the front end (JavaScript) and the back end
 * (Python): whitespace trimming as each language defines it, ASCII lower
 * casing, substring search, and the decimal rendering of a status code.
 */
module Text {

  /** The characters JavaScript's String.prototype.trim removes: WhiteSpace
      and LineTerminator of ECMA-262 (TAB, LF, VT, FF, CR, SPACE, NBSP, the
      space separators, LS, PS and the byte order mark). */
  predicate IsJsSpace(c: char)
  {
    ('\t' <= c <= '\r') || c == ' ' || c == '\U{A0}' || c == '\U{1680}' ||
    ('\U{2000}' <= c <= '\U{200A}') || c == '\U{2028}' || c == '\U{2029}' ||
    c == '\U{202F}' || c == '\U{205F}' || c == '\U{3000}' || c == '\U{FEFF}'
  }

  /** The characters Python's str.strip() removes when called without
      arguments: those for which str.isspace() holds. Unlike JavaScript it
      includes the information separators U+001C..U+001F and NEL, and
      excludes the byte order mark. */
  predicate IsPySpace(c: char)
  {
    ('\t' <= c <= '\r') || ('\U{1C}' <= c <= ' ') || c == '\U{85}' || c == '\U{A0}' ||
    c == '\U{1680}' || ('\U{2000}' <= c <= '\U{200A}') || c == '\U{2028}' ||
    c == '\U{2029}' || c == '\U{202F}' || c == '\U{205F}' || c == '\U{3000}'
  }

  /** Drops the leading characters that satisfy isSpace. */
  function TrimStart(s: string, isSpace: char -> bool): (r: string)
    ensures |r| <= |s|
  {
    if s != [] && isSpace(s[0]) then TrimStart(s[1..], isSpace) else s
  }

  /** Drops the trailing characters that satisfy isSpace. */
  function TrimEnd(s: string, isSpace: char -> bool): (r: string)
    ensures |r| <= |s|
  {
    if s != [] && isSpace(s[|s| - 1]) then TrimEnd(s[..|s| - 1], isSpace) else s
  }

  /** Both ends: JavaScript's trim() with IsJsSpace, Python's strip() with IsPySpace. */
  function Trim(s: string, isSpace: char -> bool): string
  {
    TrimEnd(TrimStart(s, isSpace), isSpace)
  }

  /** TrimStart leaves a suffix of s that does not start with space. */
  lemma {:induction false} TrimStartShape(s: string, isSpace: char -> bool)
    ensures var r := TrimStart(s, isSpace);
      r == s[|s| - |r|..] && (r == [] || !isSpace(r[0]))
    decreases |s|
  {
    if s != [] && isSpace(s[0]) {
      TrimStartShape(s[1..], isSpace);
      var r := TrimStart(s, isSpace);
      assert s[1..][|s| - 1 - |r|..] == s[|s| - |r|..];
    }
  }

  /** Everything TrimStart removes is space. */
  lemma {:induction false} TrimStartDropsSpace(s: string, isSpace: char -> bool)
    ensures var r := TrimStart(s, isSpace);
      forall i :: 0 <= i < |s| - |r| ==> isSpace(s[i])
    decreases |s|
  {
    if s != [] && isSpace(s[0]) {
      TrimStartDropsSpace(s[1..], isSpace);
      var r := TrimStart(s, isSpace);
      forall i | 0 <= i < |s| - |r|
        ensures isSpace(s[i])
      {
        if i > 0 {
          assert s[i] == s[1..][i - 1];
        }
      }
    }
  }

  /** TrimEnd leaves a prefix of s that does not end with space. */
  lemma {:induction false} TrimEndShape(s: string, isSpace: char -> bool)
    ensures var r := TrimEnd(s, isSpace);
      r == s[..|r|] && (r == [] || !isSpace(r[|r| - 1]))
    decreases |s|
  {
    if s != [] && isSpace(s[|s| - 1]) {
      TrimEndShape(s[..|s| - 1], isSpace);
      var r := TrimEnd(s, isSpace);
      assert s[..|s| - 1][..|r|] == s[..|r|];
    }
  }

  /** Everything TrimEnd removes is space. */
  lemma {:induction false} TrimEndDropsSpace(s: string, isSpace: char -> bool)
    ensures var r := TrimEnd(s, isSpace);
      forall i :: |r| <= i < |s| ==> isSpace(s[i])
    decreases |s|
  {
    if s != [] && isSpace(s[|s| - 1]) {
      TrimEndDropsSpace(s[..|s| - 1], isSpace);
      var r := TrimEnd(s, isSpace);
      forall i | |r| <= i < |s|
        ensures isSpace(s[i])
      {
        if i < |s| - 1 {
          assert s[i] == s[..|s| - 1][i];
        }
      }
    }
  }

  /** Every character of s is space. */
  predicate AllSpace(s: string, isSpace: char -> bool)
  {
    forall i :: 0 <= i < |s| ==> isSpace(s[i])
  }

  /** Trimming leaves nothing exactly when the text is all space. */
  lemma TrimEmptyIff(s: string, isSpace: char -> bool)
    ensures Trim(s, isSpace) == [] <==> AllSpace(s, isSpace)
  {
    var t := TrimStart(s, isSpace);
    TrimStartShape(s, isSpace);
    TrimStartDropsSpace(s, isSpace);
    TrimEndShape(t, isSpace);
    TrimEndDropsSpace(t, isSpace);
    if Trim(s, isSpace) == [] {
      assert t == [];
    }
  }

  /** What remains after trimming is the input with space removed at both
      ends only: a contiguous slice that neither starts nor ends with space. */
  lemma TrimIsInnerSlice(s: string, isSpace: char -> bool)
    ensures var lo, r := |s| - |TrimStart(s, isSpace)|, Trim(s, isSpace);
      lo + |r| <= |s| && r == s[lo..lo + |r|] &&
      (r != [] ==> !isSpace(r[0]) && !isSpace(r[|r| - 1]))
  {
    var t := TrimStart(s, isSpace);
    var r := TrimEnd(t, isSpace);
    var lo := |s| - |t|;
    TrimStartShape(s, isSpace);
    TrimEndShape(t, isSpace);
    assert t == s[lo..];
    assert r == t[..|r|] == s[lo..][..|r|];
    assert s[lo..][..|r|] == s[lo..lo + |r|];
  }

  /** ASCII lower casing of one character. */
  function LowerChar(c: char): (d: char)
  {
    if 'A' <= c <= 'Z' then (c as int - 'A' as int + 'a' as int) as char else c
  }

  /** ASCII lower casing of a string, character by character. */
  function Lower(s: string): (r: string)
    ensures |r| == |s|
  {
    seq(|s|, i requires 0 <= i < |s| => LowerChar(s[i]))
  }

  lemma LowerAppend(s: string, t: string)
    ensures Lower(s + t) == Lower(s) + Lower(t)
  {
  }

  /** Substring search, as JavaScript's includes and Python's in. */
  function Contains(s: string, p: string): bool
    decreases |s|
  {
    p <= s || (s != [] && Contains(s[1..], p))
  }

  /** p occurs in s starting at index i. */
  predicate OccursAt(s: string, p: string, i: int)
  {
    0 <= i <= |s| - |p| && s[i..i + |p|] == p
  }

  /** An occurrence at some index is found by the search. */
  lemma {:induction false} OccursContains(s: string, p: string, i: int)
    requires OccursAt(s, p, i)
    ensures Contains(s, p)
    decreases i
  {
    if i == 0 {
      assert p <= s;
    } else {
      assert s[1..][i - 1..i - 1 + |p|] == s[i..i + |p|];
      OccursContains(s[1..], p, i - 1);
    }
  }

  /** What the search finds occurs at some index. */
  lemma {:induction false} ContainsOccurs(s: string, p: string)
    requires Contains(s, p)
    ensures exists i :: OccursAt(s, p, i)
    decreases |s|
  {
    if p <= s {
      assert OccursAt(s, p, 0);
    } else {
      ContainsOccurs(s[1..], p);
      var i :| OccursAt(s[1..], p, i);
      assert s[i + 1..i + 1 + |p|] == s[1..][i..i + |p|];
      assert OccursAt(s, p, i + 1);
    }
  }

  /** Contains agrees with the definition by position: p occurs in s at some index. */
  lemma ContainsIff(s: string, p: string)
    ensures Contains(s, p) <==> exists i :: OccursAt(s, p, i)
  {
    if Contains(s, p) {
      ContainsOccurs(s, p);
    }
    if exists i :: OccursAt(s, p, i) {
      var i :| OccursAt(s, p, i);
      OccursContains(s, p, i);
    }
  }

  /** A text that ends with p contains p. */
  lemma ContainsEnd(a: string, p: string)
    ensures Contains(a + p, p)
  {
    assert (a + p)[|a|..|a| + |p|] == p;
    OccursContains(a + p, p, |a|);
  }

  /** Appending to a text keeps every occurrence it already has. */
  lemma ContainsExtend(s: string, p: string, c: string)
    requires Contains(s, p)
    ensures Contains(s + c, p)
  {
    ContainsOccurs(s, p);
    var i :| OccursAt(s, p, i);
    assert (s + c)[i..i + |p|] == s[i..i + |p|];
    OccursContains(s + c, p, i);
  }

  /** Every character of a pattern that occurs in s occurs in s. */
  lemma ContainsChar(s: string, p: string, j: nat)
    requires Contains(s, p) && j < |p|
    ensures p[j] in s
  {
    ContainsIff(s, p);
    var i :| OccursAt(s, p, i);
    assert s[i..i + |p|][j] == s[i + j];
  }

  /** A pattern holding a character that s lacks does not occur in s. */
  lemma MissingChar(s: string, p: string, j: nat)
    requires j < |p| && p[j] !in s
    ensures !Contains(s, p)
  {
    if Contains(s, p) {
      ContainsChar(s, p, j);
    }
  }

  /** The three characters x, y, z never stand next to each other in s. */
  predicate LacksTrigram(s: string, x: char, y: char, z: char)
  {
    forall i :: 0 <= i < |s| - 2 ==> !(s[i] == x && s[i + 1] == y && s[i + 2] == z)
  }

  /** Two texts that lack a trigram, joined where it does not form either. */
  lemma LacksTrigramAppend(a: string, b: string, x: char, y: char, z: char)
    requires LacksTrigram(a, x, y, z) && LacksTrigram(b, x, y, z)
    requires |a| >= 2 && |b| >= 2
    requires !(a[|a| - 2] == x && a[|a| - 1] == y && b[0] == z)
    requires !(a[|a| - 1] == x && b[0] == y && b[1] == z)
    ensures LacksTrigram(a + b, x, y, z)
  {
    var s := a + b;
    forall i | 0 <= i < |s| - 2
      ensures !(s[i] == x && s[i + 1] == y && s[i + 2] == z)
    {
      if i + 2 < |a| {
        assert s[i] == a[i] && s[i + 1] == a[i + 1] && s[i + 2] == a[i + 2];
      } else if i >= |a| {
        assert s[i] == b[i - |a|] && s[i + 1] == b[i - |a| + 1] && s[i + 2] == b[i - |a| + 2];
      }
    }
  }

  /** Every three adjacent characters of a pattern that occurs in s stand
      together in s. */
  lemma ContainsTrigram(s: string, p: string, j: nat)
    requires Contains(s, p) && j + 3 <= |p|
    ensures !LacksTrigram(s, p[j], p[j + 1], p[j + 2])
  {
    ContainsIff(s, p);
    var i :| OccursAt(s, p, i);
    var w := s[i..i + |p|];
    assert w[j] == s[i + j] && w[j + 1] == s[i + j + 1] && w[j + 2] == s[i + j + 2];
  }

  /** A pattern with three adjacent characters that never stand together in
      s does not occur in s. */
  lemma MissingTrigram(s: string, p: string, j: nat)
    requires j + 3 <= |p| && LacksTrigram(s, p[j], p[j + 1], p[j + 2])
    ensures !Contains(s, p)
  {
    if Contains(s, p) {
      ContainsTrigram(s, p, j);
    }
  }

  /** LacksTrigram for a text extended by one more piece b, where the
      trigram straddles neither side of the join after its last piece a. */
  lemma LacksTrigramExtend(pre: string, a: string, b: string, x: char, y: char, z: char)
    requires LacksTrigram(pre + a, x, y, z) && LacksTrigram(b, x, y, z)
    requires |a| >= 2 && |b| >= 2
    requires !(a[|a| - 2] == x && a[|a| - 1] == y && b[0] == z)
    requires !(a[|a| - 1] == x && b[0] == y && b[1] == z)
    ensures LacksTrigram(pre + a + b, x, y, z)
  {
    var s := pre + a;
    assert s[|s| - 2] == a[|a| - 2] && s[|s| - 1] == a[|a| - 1];
    LacksTrigramAppend(s, b, x, y, z);
  }

  /** The decimal digits Python's str() writes for a natural number. */
  function NatToString(n: nat): (r: string)
    ensures r != [] && forall i :: 0 <= i < |r| ==> '0' <= r[i] <= '9'
  {
    if n < 10 then [Digit(n)] else NatToString(n / 10) + [Digit(n % 10)]
  }

  function Digit(d: nat): char
    requires d < 10
  {
    ('0' as int + d) as char
  }

  /** The value of a string of decimal digits. */
  function DigitsValue(s: string): nat
    requires forall i :: 0 <= i < |s| ==> '0' <= s[i] <= '9'
  {
    if s == [] then 0 else 10 * DigitsValue(s[..|s| - 1]) + (s[|s| - 1] as int - '0' as int)
  }

  /** Reading the decimal rendering back gives the number. */
  lemma {:induction false} NatToStringRoundTrip(n: nat)
    ensures DigitsValue(NatToString(n)) == n
  {
    if n >= 10 {
      NatToStringRoundTrip(n / 10);
      var s := NatToString(n);
      assert s[..|s| - 1] == NatToString(n / 10);
    }
  }
}
