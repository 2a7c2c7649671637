/** String helpers the server actions rely on: `String.prototype.trim`,
    `toLowerCase`, `Array.prototype.join` and the decimal rendering of a
    number inside a template literal. Strings are sequences of Unicode
    scalar values. */
module Text {

  /** The code points `trim` removes: ECMAScript WhiteSpace and LineTerminator. */
  predicate IsSpace(c: char) {
    || c == '\t' || c == '\n' || c == '\U{000B}' || c == '\U{000C}' || c == '\r'
    || c == ' ' || c == '\U{00A0}' || c == '\U{1680}'
    || ('\U{2000}' <= c <= '\U{200A}')
    || c == '\U{2028}' || c == '\U{2029}' || c == '\U{202F}' || c == '\U{205F}'
    || c == '\U{3000}' || c == '\U{FEFF}'
  }

  predicate AllSpace(s: string) {
    forall k :: 0 <= k < |s| ==> IsSpace(s[k])
  }

  /** Neither end of `s` is whitespace: what `trim` leaves behind. */
  predicate Trimmed(s: string) {
    s == [] || (!IsSpace(s[0]) && !IsSpace(s[|s| - 1]))
  }

  /** The first position at or after `i` that does not hold whitespace, or
      `|s|` when there is none. */
  function SkipSpaces(s: string, i: nat): (j: nat)
    requires i <= |s|
    ensures i <= j <= |s|
    ensures forall k :: i <= k < j ==> IsSpace(s[k])
    ensures j == |s| || !IsSpace(s[j])
    decreases |s| - i
  {
    if i < |s| && IsSpace(s[i]) then SkipSpaces(s, i + 1) else i
  }

  /** Going backwards from `j`, the end of the last stretch of text at or
      after `i` that does not finish in whitespace. */
  function BackSpaces(s: string, i: nat, j: nat): (m: nat)
    requires i <= j <= |s|
    ensures i <= m <= j
    ensures forall k :: m <= k < j ==> IsSpace(s[k])
    ensures m == i || !IsSpace(s[m - 1])
    decreases j - i
  {
    if i < j && IsSpace(s[j - 1]) then BackSpaces(s, i, j - 1) else j
  }

  /** Any position with the properties of `SkipSpaces(s, i)` is that position. */
  lemma SkipSpacesUnique(s: string, i: nat, j: nat)
    requires i <= j <= |s|
    requires forall k :: i <= k < j ==> IsSpace(s[k])
    requires j == |s| || !IsSpace(s[j])
    ensures SkipSpaces(s, i) == j
  {
  }

  /** Any position with the properties of `BackSpaces(s, i, j)` is that position. */
  lemma BackSpacesUnique(s: string, i: nat, j: nat, m: nat)
    requires i <= m <= j <= |s|
    requires forall k :: m <= k < j ==> IsSpace(s[k])
    requires m == i || !IsSpace(s[m - 1])
    ensures BackSpaces(s, i, j) == m
  {
  }

  /** `s.trim()`: the text between the first and the last character that is
      not whitespace. */
  function Trim(s: string): (r: string)
    ensures Trimmed(r)
  {
    var i := SkipSpaces(s, 0);
    s[i..BackSpaces(s, i, |s|)]
  }

  /** Trimming removes whitespace and nothing else: the result is a slice of
      `s` with only whitespace on either side. */
  lemma TrimRemovesPadding(s: string)
    ensures exists i :: 0 <= i <= |s| - |Trim(s)| && s[i..i + |Trim(s)|] == Trim(s)
              && AllSpace(s[..i]) && AllSpace(s[i + |Trim(s)|..])
  {
    var i := SkipSpaces(s, 0);
    var j := BackSpaces(s, i, |s|);
    assert AllSpace(s[..i]);
    assert AllSpace(s[j..]);
    assert s[i..i + |Trim(s)|] == Trim(s);
  }

  /** Trimming twice is trimming once. */
  lemma TrimIdempotent(s: string)
    ensures Trim(Trim(s)) == Trim(s)
  {
    var r := Trim(s);
    TrimmedIsFixed(r);
  }

  /** A string without surrounding whitespace is left alone by `trim`. */
  lemma TrimmedIsFixed(s: string)
    requires Trimmed(s)
    ensures Trim(s) == s
  {
    SkipSpacesUnique(s, 0, 0);
    BackSpacesUnique(s, 0, |s|, |s|);
    assert s[0..|s|] == s;
  }

  /** Leading whitespace moves the first non-space position along. */
  lemma SkipSpacesAfterSpace(p: string, s: string)
    requires AllSpace(p)
    ensures SkipSpaces(p + s, 0) == |p| + SkipSpaces(s, 0)
  {
    var t := p + s;
    var i := SkipSpaces(s, 0);
    forall k | 0 <= k < |p| + i
      ensures IsSpace(t[k])
    {
      if k < |p| {
        assert t[k] == p[k];
      } else {
        assert t[k] == s[k - |p|];
      }
    }
    assert |p| + i == |t| || t[|p| + i] == s[i];
    SkipSpacesUnique(t, 0, |p| + i);
  }

  /** Leading whitespace moves the end of the trimmed text along. */
  lemma BackSpacesAfterSpace(p: string, s: string, i: nat)
    requires i <= |s|
    ensures BackSpaces(p + s, |p| + i, |p| + |s|) == |p| + BackSpaces(s, i, |s|)
  {
    var t := p + s;
    var j := BackSpaces(s, i, |s|);
    forall k | |p| + j <= k < |t|
      ensures IsSpace(t[k])
    {
      assert t[k] == s[k - |p|];
    }
    assert j == i || t[|p| + j - 1] == s[j - 1];
    BackSpacesUnique(t, |p| + i, |t|, |p| + j);
  }

  /** `Trim` cuts at the two positions the scans find. */
  lemma TrimAt(s: string, i: nat, j: nat)
    requires i <= |s| && SkipSpaces(s, 0) == i && BackSpaces(s, i, |s|) == j
    ensures Trim(s) == s[i..j]
  {
  }

  /** Text made only of whitespace trims to nothing. */
  lemma TrimAllSpace(s: string)
    requires AllSpace(s)
    ensures Trim(s) == []
  {
    SkipSpacesUnique(s, 0, |s|);
  }

  /** When the scans over `p + s` land `|p|` further on than those over `s`,
      both trim to the same text. */
  lemma TrimShifted(p: string, s: string, i: nat, j: nat)
    requires i <= j <= |s| && SkipSpaces(s, 0) == i && BackSpaces(s, i, |s|) == j
    requires SkipSpaces(p + s, 0) == |p| + i && BackSpaces(p + s, |p| + i, |p + s|) == |p| + j
    ensures Trim(p + s) == Trim(s)
  {
    SliceOfRight(p, s, i, j);
    TrimAt(p + s, |p| + i, |p| + j);
    TrimAt(s, i, j);
  }

  /** Whitespace in front of a string makes no difference to its trimmed form. */
  lemma TrimSkipsLeadingSpace(p: string, s: string)
    requires AllSpace(p)
    ensures Trim(p + s) == Trim(s)
  {
    var i := SkipSpaces(s, 0);
    var j := BackSpaces(s, i, |s|);
    SkipSpacesAfterSpace(p, s);
    BackSpacesAfterSpace(p, s, i);
    TrimShifted(p, s, i, j);
  }

  /** ASCII upper-case letters mapped to lower case; every other character kept. */
  function LowerChar(c: char): char {
    if 'A' <= c <= 'Z' then (c as int + 32) as char else c
  }

  /** `s.toLowerCase()`, restricted to the ASCII letters. */
  function ToLower(s: string): (r: string)
    ensures |r| == |s|
    ensures forall k :: 0 <= k < |s| ==>
              if 'A' <= s[k] <= 'Z' then r[k] as int == s[k] as int + 32 else r[k] == s[k]
    ensures forall k :: 0 <= k < |r| ==> !('A' <= r[k] <= 'Z')
  {
    seq(|s|, k requires 0 <= k < |s| => LowerChar(s[k]))
  }

  /** Lower-casing twice is lower-casing once. */
  lemma ToLowerIdempotent(s: string)
    ensures ToLower(ToLower(s)) == ToLower(s)
  {
  }

  /** `xs.join(sep)`: an empty list joins to "", and otherwise the text ends
      right after the last element, so with `JoinPlacesInOrder` and
      `JoinSeparates` every character of it is accounted for. */
  function Join(xs: seq<string>, sep: string): (r: string)
    ensures xs == [] ==> r == ""
    ensures xs != [] ==> |r| == JoinOffset(xs, sep, |xs| - 1) + |xs[|xs| - 1]|
    decreases |xs|
  {
    if |xs| == 0 then ""
    else if |xs| == 1 then xs[0]
    else xs[0] + sep + Join(xs[1..], sep)
  }

  /** Where the k-th element starts inside `Join(xs, sep)`. */
  function JoinOffset(xs: seq<string>, sep: string, k: nat): nat
    requires k < |xs|
    decreases k
  {
    if k == 0 then 0 else |xs[0]| + |sep| + JoinOffset(xs[1..], sep, k - 1)
  }

  /** A slice that lies inside the right operand of a concatenation. */
  lemma SliceOfRight(a: string, b: string, i: nat, j: nat)
    requires i <= j <= |b|
    ensures (a + b)[|a| + i..|a| + j] == b[i..j]
  {
  }

  /** Length of `Join`: every element plus one separator between neighbours. */
  lemma {:induction false} JoinOffsetBound(xs: seq<string>, sep: string, k: nat)
    requires k < |xs|
    ensures JoinOffset(xs, sep, k) + |xs[k]| <= |Join(xs, sep)|
    ensures k + 1 < |xs| ==>
              && JoinOffset(xs, sep, k + 1) == JoinOffset(xs, sep, k) + |xs[k]| + |sep|
              && JoinOffset(xs, sep, k + 1) <= |Join(xs, sep)|
  {
    if k > 0 {
      JoinOffsetBound(xs[1..], sep, k - 1);
    }
  }

  /** `Join` places every element, in order, at its offset. */
  lemma {:induction false} JoinPlacesInOrder(xs: seq<string>, sep: string, k: nat)
    requires k < |xs|
    ensures JoinOffset(xs, sep, k) + |xs[k]| <= |Join(xs, sep)|
    ensures Join(xs, sep)[JoinOffset(xs, sep, k)..JoinOffset(xs, sep, k) + |xs[k]|] == xs[k]
  {
    JoinOffsetBound(xs, sep, k);
    if |xs| == 1 {
    } else if k == 0 {
      assert Join(xs, sep) == xs[0] + (sep + Join(xs[1..], sep));
    } else {
      var head := xs[0] + sep;
      assert Join(xs, sep) == head + Join(xs[1..], sep);
      JoinPlacesInOrder(xs[1..], sep, k - 1);
      var o := JoinOffset(xs[1..], sep, k - 1);
      SliceOfRight(head, Join(xs[1..], sep), o, o + |xs[k]|);
    }
  }

  /** Between consecutive elements `Join` puts exactly one separator. */
  lemma {:induction false} JoinSeparates(xs: seq<string>, sep: string, k: nat)
    requires k + 1 < |xs|
    ensures JoinOffset(xs, sep, k + 1) == JoinOffset(xs, sep, k) + |xs[k]| + |sep| <= |Join(xs, sep)|
    ensures Join(xs, sep)[JoinOffset(xs, sep, k) + |xs[k]|..JoinOffset(xs, sep, k + 1)] == sep
  {
    JoinOffsetBound(xs, sep, k);
    var head := xs[0] + sep;
    assert Join(xs, sep) == head + Join(xs[1..], sep);
    if k == 0 {
      assert Join(xs, sep) == xs[0] + sep + Join(xs[1..], sep);
    } else {
      JoinSeparates(xs[1..], sep, k - 1);
      var o := JoinOffset(xs[1..], sep, k - 1);
      SliceOfRight(head, Join(xs[1..], sep), o + |xs[k]|, JoinOffset(xs[1..], sep, k));
    }
  }

  function DigitChar(d: nat): char
    requires d < 10
  {
    ('0' as int + d) as char
  }

  predicate IsDigit(c: char) {
    '0' <= c <= '9'
  }

  /** The decimal digits of `n`, most significant first, without leading zeros. */
  function NatToString(n: nat): (r: string)
    ensures |r| >= 1 && forall k :: 0 <= k < |r| ==> IsDigit(r[k])
    ensures |r| > 1 ==> r[0] != '0'
    decreases n
  {
    if n < 10 then [DigitChar(n)] else NatToString(n / 10) + [DigitChar(n % 10)]
  }

  /** The value of a string of decimal digits. */
  function DigitsValue(s: string): nat
    requires forall k :: 0 <= k < |s| ==> IsDigit(s[k])
    decreases |s|
  {
    if s == [] then 0
    else
      assert IsDigit(s[|s| - 1]);
      10 * DigitsValue(s[..|s| - 1]) + (s[|s| - 1] as int - '0' as int)
  }

  /** Reading the digits back gives the number. */
  lemma {:induction false} NatToStringRoundTrip(n: nat)
    ensures DigitsValue(NatToString(n)) == n
    decreases n
  {
    if n >= 10 {
      var s := NatToString(n);
      assert s[..|s| - 1] == NatToString(n / 10);
      NatToStringRoundTrip(n / 10);
    }
  }

  /** `${n}` for an integer `n`. */
  function IntToString(n: int): (r: string)
    ensures |r| >= 1
    ensures r[0] == '-' <==> n < 0
    ensures forall k :: 0 < k < |r| ==> IsDigit(r[k])
    ensures n >= 0 ==> IsDigit(r[0])
    ensures |r| > 1 && n >= 0 ==> r[0] != '0'
    ensures |r| > 2 && n < 0 ==> r[1] != '0'
  {
    if n < 0 then "-" + NatToString(-n) else NatToString(n)
  }

  /** The integer a string produced by `IntToString` denotes. */
  function ParseInt(s: string): int {
    if |s| > 0 && s[0] == '-' && (forall k :: 1 <= k < |s| ==> IsDigit(s[k]))
    then -(DigitsValue(s[1..]) as int)
    else if forall k :: 0 <= k < |s| ==> IsDigit(s[k]) then DigitsValue(s)
    else 0
  }

  /** Rendering an integer loses nothing. */
  lemma IntToStringRoundTrip(n: int)
    ensures ParseInt(IntToString(n)) == n
  {
    if n < 0 {
      var s := IntToString(n);
      assert s[1..] == NatToString(-n);
      NatToStringRoundTrip(-n);
    } else {
      NatToStringRoundTrip(n);
    }
  }
}
