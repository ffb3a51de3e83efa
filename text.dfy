/**
  String operations of the JavaScript runtime that the application relies on:
  the `\s` character class, `trim`, `startsWith`, `includes`, `split` and `join`
  with a string separator, and the decimal rendering of a natural number.
*/
module Text {

  /** The characters matched by `\s` in a JavaScript regular expression; `trim` strips the same set. */
  predicate IsWhitespace(c: char) {
    || c == ' ' || c == '\t' || c == '\n' || c == '\r' || c == '\U{B}' || c == '\U{C}'
    || c == '\U{A0}' || c == '\U{1680}' || ('\U{2000}' <= c <= '\U{200A}')
    || c == '\U{2028}' || c == '\U{2029}' || c == '\U{202F}' || c == '\U{205F}'
    || c == '\U{3000}' || c == '\U{FEFF}'
  }

  predicate StartsWith(s: string, prefix: string) {
    |prefix| <= |s| && s[..|prefix|] == prefix
  }

  /** `s.includes(part)`: `part` occurs somewhere in `s`. */
  predicate Contains(s: string, part: string)
    decreases |s|
  {
    StartsWith(s, part) || (s != [] && Contains(s[1..], part))
  }

  function TrimStart(s: string): (r: string)
    ensures |r| <= |s| && r == s[|s| - |r|..]
    ensures r == [] || !IsWhitespace(r[0])
    ensures forall k :: 0 <= k < |s| - |r| ==> IsWhitespace(s[k])
    decreases |s|
  {
    if s != [] && IsWhitespace(s[0]) then TrimStart(s[1..]) else s
  }

  function TrimEnd(s: string): (r: string)
    ensures |r| <= |s| && r == s[..|r|]
    ensures r == [] || !IsWhitespace(r[|r| - 1])
    ensures forall k :: |r| <= k < |s| ==> IsWhitespace(s[k])
    decreases |s|
  {
    if s != [] && IsWhitespace(s[|s| - 1]) then TrimEnd(s[..|s| - 1]) else s
  }

  /** `s.trim()`: the longest infix of `s` that neither starts nor ends with whitespace. */
  function Trim(s: string): (r: string)
    ensures exists i, j :: 0 <= i <= j <= |s| && r == s[i..j]
    ensures r == [] || (!IsWhitespace(r[0]) && !IsWhitespace(r[|r| - 1]))
  {
    var t := TrimStart(s);
    var r := TrimEnd(t);
    assert r == s[|s| - |t|..|s| - |t| + |r|];
    r
  }

  /** What `trim` removes is whitespace, on both sides of what it keeps. */
  lemma TrimBounds(s: string) returns (i: nat, j: nat)
    ensures i <= j <= |s| && Trim(s) == s[i..j]
    ensures forall k :: 0 <= k < i ==> IsWhitespace(s[k])
    ensures forall k :: j <= k < |s| ==> IsWhitespace(s[k])
  {
    var t := TrimStart(s);
    var r := TrimEnd(t);
    i := |s| - |t|;
    j := i + |r|;
    SliceOfSuffix(s, i, |r|);
    forall k | j <= k < |s|
      ensures IsWhitespace(s[k])
    {
      assert s[k] == t[k - i];
    }
  }

  lemma SliceOfSuffix(s: string, i: nat, n: nat)
    requires i + n <= |s|
    ensures s[i..][..n] == s[i..i + n]
  {
  }

  /** Only the letters A to Z and a to z. */
  predicate AsciiLetters(s: string) {
    forall k :: 0 <= k < |s| ==> 'A' <= s[k] <= 'Z' || 'a' <= s[k] <= 'z'
  }

  /** A string is blank (`s.trim() === ''`) exactly when every character is whitespace. */
  lemma TrimIsEmpty(s: string)
    ensures Trim(s) == [] <==> forall k :: 0 <= k < |s| ==> IsWhitespace(s[k])
  {
    var t := TrimStart(s);
    if Trim(s) == [] {
      assert TrimEnd(t) == [];
      assert t == [];
    } else {
      var r := Trim(s);
      assert r == TrimEnd(t) && r == t[..|r|];
      assert s[|s| - |t|] == r[0];
    }
  }

  /**
    `s.split(sep)` for a non-empty separator: the text between the leftmost
    non-overlapping occurrences of `sep`, so there is always at least one part.
  */
  function SplitOn(s: string, sep: string): (parts: seq<string>)
    requires sep != []
    ensures |parts| >= 1
    decreases |s|
  {
    if StartsWith(s, sep) then [""] + SplitOn(s[|sep|..], sep)
    else if s == [] then [""]
    else
      var rest := SplitOn(s[1..], sep);
      [[s[0]] + rest[0]] + rest[1..]
  }

  /** `parts.join(sep)`; the empty array joins to the empty string. */
  function JoinWith(parts: seq<string>, sep: string): string
    decreases |parts|
  {
    if |parts| == 0 then ""
    else if |parts| == 1 then parts[0]
    else parts[0] + sep + JoinWith(parts[1..], sep)
  }

  lemma JoinWithConsChar(c: char, p: string, ps: seq<string>, sep: string)
    ensures JoinWith([[c] + p] + ps, sep) == [c] + JoinWith([p] + ps, sep)
  {
    if |ps| > 0 {
      assert ([[c] + p] + ps)[1..] == ps;
      assert ([p] + ps)[1..] == ps;
    }
  }

  /** Joining the parts of a split with the same separator gives the text back. */
  lemma {:induction false} JoinSplitOn(s: string, sep: string)
    requires sep != []
    ensures JoinWith(SplitOn(s, sep), sep) == s
    decreases |s|
  {
    if StartsWith(s, sep) {
      var tail := SplitOn(s[|sep|..], sep);
      JoinSplitOn(s[|sep|..], sep);
      JoinWithConsEmpty(tail, sep);
      assert s == sep + s[|sep|..];
    } else if s == [] {
    } else {
      var rest := SplitOn(s[1..], sep);
      JoinSplitOn(s[1..], sep);
      JoinWithConsChar(s[0], rest[0], rest[1..], sep);
      assert [rest[0]] + rest[1..] == rest;
      calc {
        JoinWith(SplitOn(s, sep), sep);
        JoinWith([[s[0]] + rest[0]] + rest[1..], sep);
        [s[0]] + JoinWith([rest[0]] + rest[1..], sep);
        [s[0]] + s[1..];
        s;
      }
    }
  }

  lemma JoinWithConsEmpty(parts: seq<string>, sep: string)
    requires |parts| >= 1
    ensures JoinWith([""] + parts, sep) == sep + JoinWith(parts, sep)
  {
    assert ([""] + parts)[1..] == parts;
  }

  /** The first part of a split is a prefix of the text. */
  lemma SplitOnFirstIsPrefix(s: string, sep: string)
    requires sep != []
    ensures StartsWith(s, SplitOn(s, sep)[0])
  {
    var parts := SplitOn(s, sep);
    JoinSplitOn(s, sep);
    if |parts| > 1 {
      assert s == parts[0] + (sep + JoinWith(parts[1..], sep));
    }
  }

  /** A text that starts with a text starting with `sep` starts with `sep` itself. */
  lemma StartsWithTransitive(s: string, q: string, sep: string)
    requires StartsWith(s, q) && StartsWith(q, sep)
    ensures StartsWith(s, sep)
  {
    assert s[..|sep|] == q[..|sep|];
  }

  /** No part of a split contains the separator. */
  lemma {:induction false} SplitOnPartsSepFree(s: string, sep: string)
    requires sep != []
    ensures forall k :: 0 <= k < |SplitOn(s, sep)| ==> !Contains(SplitOn(s, sep)[k], sep)
    decreases |s|
  {
    var parts := SplitOn(s, sep);
    if StartsWith(s, sep) {
      SplitOnPartsSepFree(s[|sep|..], sep);
      assert !Contains("", sep);
    } else if s == [] {
      assert !Contains("", sep);
    } else {
      var rest := SplitOn(s[1..], sep);
      SplitOnPartsSepFree(s[1..], sep);
      var first := [s[0]] + rest[0];
      assert first == parts[0];
      if StartsWith(first, sep) {
        SplitOnFirstIsPrefix(s, sep);
        StartsWithTransitive(s, first, sep);
      }
      assert first[1..] == rest[0];
      assert !Contains(first, sep);
      forall k | 1 <= k < |parts|
        ensures !Contains(parts[k], sep)
      {
        assert parts[k] == rest[k];
      }
    }
  }

  lemma {:induction false} SplitOnCharFree(p: string, c: char)
    requires c !in p
    ensures SplitOn(p, [c]) == [p]
    decreases |p|
  {
    if p != [] {
      assert !StartsWith(p, [c]) by { assert p[..1] == [p[0]]; }
      SplitOnCharFree(p[1..], c);
      assert [p[0]] + p[1..] == p;
    }
  }

  lemma {:induction false} SplitOnCharPrefix(p: string, c: char, rest: string)
    requires c !in p
    ensures SplitOn(p + [c] + rest, [c]) == [p] + SplitOn(rest, [c])
    decreases |p|
  {
    var s := p + [c] + rest;
    if p == [] {
      assert StartsWith(s, [c]);
      assert s[1..] == rest;
    } else {
      assert !StartsWith(s, [c]) by { assert s[..1] == [p[0]]; }
      assert s[1..] == p[1..] + [c] + rest;
      SplitOnCharPrefix(p[1..], c, rest);
      assert [p[0]] + p[1..] == p;
    }
  }

  /**
    Splitting on a one-character separator undoes a join with it, provided
    no part contains that character.
  */
  lemma {:induction false} SplitJoinChar(parts: seq<string>, c: char)
    requires |parts| >= 1
    requires forall p :: p in parts ==> c !in p
    ensures SplitOn(JoinWith(parts, [c]), [c]) == parts
    decreases |parts|
  {
    if |parts| == 1 {
      SplitOnCharFree(parts[0], c);
    } else {
      SplitJoinChar(parts[1..], c);
      SplitOnCharPrefix(parts[0], c, JoinWith(parts[1..], [c]));
      assert [parts[0]] + parts[1..] == parts;
    }
  }

  function DigitChar(d: nat): (c: char)
    requires d < 10
    ensures '0' <= c <= '9'
  {
    ('0' as int + d) as char
  }

  predicate IsDigits(s: string) {
    forall k :: 0 <= k < |s| ==> '0' <= s[k] <= '9'
  }

  /** The decimal rendering of a natural number, as `${n}` prints it. */
  function NatToString(n: nat): (s: string)
    ensures |s| >= 1 && IsDigits(s)
  {
    if n < 10 then [DigitChar(n)] else NatToString(n / 10) + [DigitChar(n % 10)]
  }

  /** The number a string of decimal digits denotes. */
  function DigitsValue(s: string): nat
    requires IsDigits(s)
  {
    if s == [] then 0
    else DigitsValue(s[..|s| - 1]) * 10 + (s[|s| - 1] as int - '0' as int)
  }

  lemma {:induction false} DigitsValueOfNatToString(n: nat)
    ensures DigitsValue(NatToString(n)) == n
  {
    if n >= 10 {
      var s := NatToString(n);
      assert s[..|s| - 1] == NatToString(n / 10);
      DigitsValueOfNatToString(n / 10);
    }
  }

  /** Distinct numbers render differently. */
  lemma NatToStringInjective(m: nat, n: nat)
    requires NatToString(m) == NatToString(n)
    ensures m == n
  {
    DigitsValueOfNatToString(m);
    DigitsValueOfNatToString(n);
  }
}
