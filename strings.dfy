/**
 * The handful of JavaScript string operations the workspace relies on, written
 * out so that their edge cases are explicit: the `\s` whitespace class and
 * `String.prototype.trim`, `String(n)` for a natural number, `padStart(2, '0')`,
 * `includes`, and the two newline replacements used for titles.
 * Characters are taken to be UTF-16 code units of the Basic Multilingual Plane.
 */
module Strings {

  /** JavaScript's `\s` class (WhiteSpace and LineTerminator); also the set `trim` strips. */
  predicate IsWhitespace(c: char)
  {
    || c == '\t' || c == '\n' || c == '\U{B}' || c == '\U{C}' || c == '\r' || c == ' '
    || c == '\U{A0}' || c == '\U{1680}' || ('\U{2000}' <= c <= '\U{200A}')
    || c == '\U{2028}' || c == '\U{2029}' || c == '\U{202F}' || c == '\U{205F}'
    || c == '\U{3000}' || c == '\U{FEFF}'
  }

  /** The characters a regular-expression `.` does not match. */
  predicate IsLineTerminator(c: char)
  {
    c == '\n' || c == '\r' || c == '\U{2028}' || c == '\U{2029}'
  }

  lemma LineTerminatorIsWhitespace(c: char)
    requires IsLineTerminator(c)
    ensures IsWhitespace(c)
  {
  }

  /** True when every character is whitespace, i.e. `!s.trim()` in the source. */
  predicate IsBlank(s: string)
  {
    forall i :: 0 <= i < |s| ==> IsWhitespace(s[i])
  }

  /** `s.trimStart()`: drops the leading whitespace run. */
  function TrimStart(s: string): (r: string)
    ensures |r| <= |s| && r == s[|s| - |r|..]
    ensures r == [] || !IsWhitespace(r[0])
    ensures forall i :: 0 <= i < |s| - |r| ==> IsWhitespace(s[i])
  {
    if |s| > 0 && IsWhitespace(s[0]) then TrimStart(s[1..]) else s
  }

  /** `s.trimEnd()`: drops the trailing whitespace run. */
  function TrimEnd(s: string): (r: string)
    ensures |r| <= |s| && r == s[..|r|]
    ensures r == [] || !IsWhitespace(r[|r| - 1])
    ensures forall i :: |r| <= i < |s| ==> IsWhitespace(s[i])
  {
    if |s| > 0 && IsWhitespace(s[|s| - 1]) then TrimEnd(s[..|s| - 1]) else s
  }

  /**
   * `s.trim()`: no whitespace is left at either end, and nothing is left of a
   * blank string. `TrimSlice` shows the result is the slice of `s` between its
   * leading and trailing whitespace runs.
   */
  function Trim(s: string): (r: string)
    ensures |r| <= |s|
    ensures r == [] || (!IsWhitespace(r[0]) && !IsWhitespace(r[|r| - 1]))
    ensures r == [] <==> IsBlank(s)
  {
    var t := TrimStart(s);
    var r := TrimEnd(t);
    assert r == [] ==> t == [];
    r
  }

  /** What `trim` keeps is a slice of its input with only whitespace cut off around it. */
  lemma TrimSlice(s: string)
    ensures exists i :: Sliced(s, Trim(s), i)
  {
    var t := TrimStart(s);
    SliceBetween(s, t, TrimEnd(t));
    assert Trim(s) == TrimEnd(t);
    assert Sliced(s, Trim(s), |s| - |t|);
  }

  /** `r` is `s[i..i + |r|]` with only whitespace around it. */
  ghost predicate Sliced(s: string, r: string, i: int)
  {
    0 <= i <= |s| - |r| && r == s[i..i + |r|] && IsBlank(s[..i]) && IsBlank(s[i + |r|..])
  }

  /** A whitespace prefix dropped from `s`, then a whitespace suffix from what is left. */
  lemma SliceBetween(s: string, t: string, r: string)
    requires |t| <= |s| && t == s[|s| - |t|..] && forall k :: 0 <= k < |s| - |t| ==> IsWhitespace(s[k])
    requires |r| <= |t| && r == t[..|r|] && forall k :: |r| <= k < |t| ==> IsWhitespace(t[k])
    ensures Sliced(s, r, |s| - |t|)
  {
    var i := |s| - |t|;
    assert r == s[i..i + |r|];
    var head, tail := s[..i], s[i + |r|..];
    forall k | 0 <= k < |head| ensures IsWhitespace(head[k]) {
      assert head[k] == s[k];
    }
    forall k | 0 <= k < |tail| ensures IsWhitespace(tail[k]) {
      assert tail[k] == t[|r| + k];
    }
  }


  /** A string with no whitespace at either end. */
  predicate IsTrimmed(s: string)
  {
    s == [] || (!IsWhitespace(s[0]) && !IsWhitespace(s[|s| - 1]))
  }

  /** Trimming a trimmed string changes nothing; in particular trim is idempotent. */
  lemma TrimOfTrimmed(s: string)
    requires IsTrimmed(s)
    ensures Trim(s) == s
  {
  }

  /** Whitespace added at either end of a trimmed string is removed again by `trim`. */
  lemma TrimPadded(a: string, s: string, b: string)
    requires IsBlank(a) && IsBlank(b) && IsTrimmed(s) && s != []
    ensures Trim(a + s + b) == s
  {
    TrimStartPadded(a, s, b);
    TrimEndPadded(s, b);
    TrimOfParts(a + s + b, s + b, s);
  }

  /** Whitespace after a trimmed string is removed again by `trim`. */
  lemma TrimTrailing(s: string, b: string)
    requires IsBlank(b) && IsTrimmed(s) && s != []
    ensures Trim(s + b) == s
  {
    assert (s + b)[0] == s[0];
    TrimStartUnpadded(s + b);
    TrimEndPadded(s, b);
    TrimOfParts(s + b, s + b, s);
  }

  lemma {:induction false} TrimStartPadded(a: string, s: string, b: string)
    requires IsBlank(a) && s != [] && !IsWhitespace(s[0])
    ensures TrimStart(a + s + b) == s + b
    decreases |a|
  {
    if a == [] {
      assert a + s + b == s + b;
      assert (s + b)[0] == s[0];
      TrimStartUnpadded(s + b);
    } else {
      assert (a + s + b)[1..] == a[1..] + s + b;
      TrimStartPadded(a[1..], s, b);
    }
  }

  lemma TrimOfParts(x: string, u: string, s: string)
    requires TrimStart(x) == u && TrimEnd(u) == s
    ensures Trim(x) == s
  {
  }

  lemma TrimStartUnpadded(s: string)
    requires s != [] && !IsWhitespace(s[0])
    ensures TrimStart(s) == s
  {
  }

  lemma {:induction false} TrimEndPadded(s: string, b: string)
    requires IsBlank(b) && s != [] && !IsWhitespace(s[|s| - 1])
    ensures TrimEnd(s + b) == s
    decreases |b|
  {
    if b != [] {
      assert (s + b)[..|s + b| - 1] == s + b[..|b| - 1];
      TrimEndPadded(s, b[..|b| - 1]);
    }
  }

  /** The digit character for `d`. */
  function DigitChar(d: nat): (c: char)
    requires d < 10
    ensures '0' <= c <= '9' && c as int - '0' as int == d
  {
    ['0', '1', '2', '3', '4', '5', '6', '7', '8', '9'][d]
  }

  predicate IsDigits(s: string)
  {
    forall i :: 0 <= i < |s| ==> '0' <= s[i] <= '9'
  }

  /** The number a string of decimal digits denotes (the inverse of `DecimalString`). */
  function DecimalValue(s: string): nat
    requires IsDigits(s)
  {
    if s == [] then 0 else DecimalValue(s[..|s| - 1]) * 10 + (s[|s| - 1] as int - '0' as int)
  }

  /** `String(n)` for a natural number: decimal digits without a leading zero. */
  function DecimalString(n: nat): (r: string)
    ensures |r| >= 1 && IsDigits(r)
    ensures |r| > 1 ==> r[0] != '0'
    ensures n < 10 <==> |r| == 1
  {
    if n < 10 then [DigitChar(n)] else DecimalString(n / 10) + [DigitChar(n % 10)]
  }

  /** The digits `String(n)` writes read back as `n`. */
  lemma {:induction false} DecimalStringValue(n: nat)
    ensures DecimalValue(DecimalString(n)) == n
  {
    if n >= 10 {
      DecimalStringValue(n / 10);
      var r := DecimalString(n);
      assert r[..|r| - 1] == DecimalString(n / 10);
    }
  }

  /** `String(n).padStart(2, '0')`: the two-digit counters used in card subtitles. */
  function TwoDigits(n: nat): (r: string)
    ensures IsDigits(r)
    ensures n < 100 ==> |r| == 2
    ensures n < 10 ==> r[0] == '0'
    ensures n >= 10 ==> r == DecimalString(n)
  {
    var d := DecimalString(n);
    if |d| >= 2 then d else "0" + d
  }

  /** The padded counter still reads back as `n`. */
  lemma TwoDigitsValue(n: nat)
    ensures DecimalValue(TwoDigits(n)) == n
  {
    DecimalStringValue(n);
    var d := DecimalString(n);
    if |d| < 2 {
      var r := "0" + d;
      assert r[..1] == "0";
      assert DecimalValue(r[..1]) == 0;
    }
  }

  /** `s.startsWith(p)`. */
  predicate StartsWith(s: string, p: string)
  {
    |p| <= |s| && s[..|p|] == p
  }

  /** `s.includes(sub)`. */
  predicate Contains(s: string, sub: string)
  {
    exists i :: 0 <= i <= |s| - |sub| && OccursAt(s, sub, i)
  }

  predicate OccursAt(s: string, sub: string, i: nat)
  {
    i + |sub| <= |s| && s[i..i + |sub|] == sub
  }

  /** `s.replace(/\n/g, ' ')`: every newline becomes a space, nothing else moves. */
  function ReplaceAllNewlines(s: string): (r: string)
    ensures |r| == |s|
    ensures forall i :: 0 <= i < |s| ==> r[i] == (if s[i] == '\n' then ' ' else s[i])
    ensures '\n' !in r
  {
    if s == [] then []
    else
      var p := ReplaceAllNewlines(s[..|s| - 1]);
      p + [if s[|s| - 1] == '\n' then ' ' else s[|s| - 1]]
  }

  /** The index of the first occurrence of `c`, or `|s|` when there is none (`indexOf` with -1 as `|s|`). */
  function IndexOf(s: string, c: char): (i: nat)
    ensures i <= |s|
    ensures i < |s| ==> s[i] == c
    ensures forall j :: 0 <= j < i ==> s[j] != c
  {
    if s == [] then 0 else if s[0] == c then 0 else 1 + IndexOf(s[1..], c)
  }

  /** `s.replace('\n', ' ')`: with a string pattern only the first newline is replaced. */
  function ReplaceFirstNewline(s: string): (r: string)
    ensures |r| == |s|
    ensures '\n' !in s ==> r == s
    ensures '\n' in s ==> r[IndexOf(s, '\n')] == ' '
    ensures forall i :: 0 <= i < |s| && i != IndexOf(s, '\n') ==> r[i] == s[i]
  {
    var i := IndexOf(s, '\n');
    if i == |s| then s else s[..i] + " " + s[i + 1..]
  }
}
