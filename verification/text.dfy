/**
 The string operations the two pages rely on, written over `string`
 (a sequence of Unicode code points):

 - `Trim`: JavaScript's `String.prototype.trim`, used by the blank-input guards;
 - `StartsWith`: `String.prototype.startsWith`;
 - `NatToString`: `Number.prototype.toString()` on a non-negative integer, used
   for `Date.now().toString()` ids and for the player counts of the `list` reply.

 Every white-space code point JavaScript recognises lies in the Basic
 Multilingual Plane, so trimming a UTF-16 string and trimming its code points
 remove the same characters.
 */
module Text {

  /** The WhiteSpace and LineTerminator code points of ECMAScript (section 12.2
      and 12.3 of ECMA-262), which is the set `trim` removes. */
  predicate IsJsWhitespace(c: char) {
    || c == '\t' || c == '\n' || c == '\U{000B}' || c == '\U{000C}' || c == '\r'
    || c == ' ' || c == '\U{00A0}' || c == '\U{1680}'
    || ('\U{2000}' <= c <= '\U{200A}')
    || c == '\U{2028}' || c == '\U{2029}' || c == '\U{202F}' || c == '\U{205F}'
    || c == '\U{3000}' || c == '\U{FEFF}'
  }

  /** Every character of `s` is white space (vacuously true of ""). */
  predicate AllWhitespace(s: string) {
    forall i :: 0 <= i < |s| ==> IsJsWhitespace(s[i])
  }

  /** Drops leading white space. */
  function TrimStart(s: string): string
    decreases |s|
  {
    if |s| > 0 && IsJsWhitespace(s[0]) then TrimStart(s[1..]) else s
  }

  /** `TrimStart` keeps a suffix of its input that does not start with white
      space, and what it drops is all white space. */
  lemma {:induction false} TrimStartSpec(s: string)
    ensures var r := TrimStart(s);
            && |r| <= |s| && r == s[|s| - |r|..]
            && (r == [] || !IsJsWhitespace(r[0]))
            && AllWhitespace(s[..|s| - |r|])
    decreases |s|
  {
    if |s| > 0 && IsJsWhitespace(s[0]) {
      var t := s[1..];
      var r := TrimStart(t);
      assert TrimStart(s) == r;
      TrimStartSpec(t);
      var k := |t| - |r|;
      assert t[k..] == s[k + 1..];
      var dropped := s[..k + 1];
      forall i | 0 <= i < |dropped|
        ensures IsJsWhitespace(dropped[i])
      {
        if i > 0 {
          assert dropped[i] == t[..k][i - 1];
        }
      }
    }
  }

  /** Drops trailing white space. */
  function TrimEnd(s: string): string
    decreases |s|
  {
    if |s| > 0 && IsJsWhitespace(s[|s| - 1]) then TrimEnd(s[..|s| - 1]) else s
  }

  /** `TrimEnd` keeps a prefix of its input that does not end with white
      space, and what it drops is all white space. */
  lemma {:induction false} TrimEndSpec(s: string)
    ensures var r := TrimEnd(s);
            && |r| <= |s| && r == s[..|r|]
            && (r == [] || !IsJsWhitespace(r[|r| - 1]))
            && AllWhitespace(s[|r|..])
    decreases |s|
  {
    if |s| > 0 && IsJsWhitespace(s[|s| - 1]) {
      var t := s[..|s| - 1];
      var r := TrimEnd(t);
      assert TrimEnd(s) == r;
      TrimEndSpec(t);
      assert t[..|r|] == s[..|r|];
      var dropped := s[|r|..];
      forall i | 0 <= i < |dropped|
        ensures IsJsWhitespace(dropped[i])
      {
        if i < |t| - |r| {
          assert dropped[i] == t[|r|..][i];
        }
      }
    }
  }

  /** `s.trim()`: what is left after removing white space from both ends; it
      neither starts nor ends with white space. */
  function Trim(s: string): (r: string)
    ensures |r| <= |s|
    ensures r == [] || (!IsJsWhitespace(r[0]) && !IsJsWhitespace(r[|r| - 1]))
  {
    var t := TrimStart(s);
    TrimStartSpec(s);
    TrimEndSpec(t);
    TrimEnd(t)
  }

  /** Trimming removes only white space: the result is a slice of the input,
      and everything cut off on either side is white space. */
  lemma TrimIsInnerSlice(s: string)
    ensures exists a, b :: 0 <= a <= b <= |s| && Trim(s) == s[a..b]
                           && AllWhitespace(s[..a]) && AllWhitespace(s[b..])
  {
    var t := TrimStart(s);
    var r := TrimEnd(t);
    TrimStartSpec(s);
    TrimEndSpec(t);
    var a := |s| - |t|;
    assert r == s[a..a + |r|];
    assert s[a + |r|..] == t[|r|..];
  }

  /** The guard `!s.trim()`: a string is blank when trimming leaves nothing,
      which happens exactly when all of it is white space. */
  function IsBlank(s: string): (b: bool)
    ensures b <==> AllWhitespace(s)
  {
    BlankIffAllWhitespace(s);
    Trim(s) == []
  }

  /** Trimming leaves nothing exactly when every character is white space. */
  lemma BlankIffAllWhitespace(s: string)
    ensures Trim(s) == [] <==> AllWhitespace(s)
  {
    TrimIsInnerSlice(s);
    var a, b :| 0 <= a <= b <= |s| && Trim(s) == s[a..b]
                && AllWhitespace(s[..a]) && AllWhitespace(s[b..]);
    if Trim(s) == [] {
      forall i | 0 <= i < |s|
        ensures IsJsWhitespace(s[i])
      {
        if i < a {
          assert s[i] == s[..a][i];
        } else {
          assert s[i] == s[b..][i - b];
        }
      }
    } else {
      assert Trim(s)[0] == s[a];
    }
  }

  /** `s.startsWith(prefix)`. */
  function StartsWith(s: string, prefix: string): (b: bool)
    ensures b <==> |prefix| <= |s| && forall i :: 0 <= i < |prefix| ==> s[i] == prefix[i]
  {
    |prefix| <= |s| && s[..|prefix|] == prefix
  }

  /** The decimal digit character for `d`. */
  function DigitChar(d: nat): (c: char)
    requires d < 10
    ensures '0' <= c <= '9'
  {
    ['0', '1', '2', '3', '4', '5', '6', '7', '8', '9'][d]
  }

  /** The value of a decimal digit character. */
  function DigitValue(c: char): (d: nat)
    requires '0' <= c <= '9'
    ensures d < 10
  {
    if c == '0' then 0 else if c == '1' then 1 else if c == '2' then 2
    else if c == '3' then 3 else if c == '4' then 4 else if c == '5' then 5
    else if c == '6' then 6 else if c == '7' then 7 else if c == '8' then 8
    else 9
  }

  lemma DigitRoundTrip(d: nat)
    requires d < 10
    ensures DigitValue(DigitChar(d)) == d
  {
  }

  predicate IsDigits(s: string) {
    forall i :: 0 <= i < |s| ==> '0' <= s[i] <= '9'
  }

  /** The number a string of decimal digits denotes. */
  function DigitsValue(s: string): nat
    requires IsDigits(s)
  {
    if s == [] then 0 else DigitsValue(s[..|s| - 1]) * 10 + DigitValue(s[|s| - 1])
  }

  /** `n.toString()` for a non-negative integer below 10^21 (larger numbers
      switch to exponent notation in JavaScript, which no id or player count
      here reaches): the shortest decimal numeral of `n`. */
  function NatToString(n: nat): (r: string)
    ensures |r| >= 1 && IsDigits(r)
    ensures r[0] == '0' ==> n == 0 && r == "0"
  {
    if n < 10 then [DigitChar(n)] else NatToString(n / 10) + [DigitChar(n % 10)]
  }

  /** Reading the numeral back gives the number: the rendering loses nothing. */
  lemma {:induction false} NatToStringRoundTrip(n: nat)
    ensures DigitsValue(NatToString(n)) == n
  {
    var r := NatToString(n);
    if n < 10 {
      DigitRoundTrip(n);
    } else {
      NatToStringRoundTrip(n / 10);
      assert r[..|r| - 1] == NatToString(n / 10);
      DigitRoundTrip(n % 10);
    }
  }

  /** Distinct numbers render as distinct strings. */
  lemma NatToStringInjective(m: nat, n: nat)
    ensures NatToString(m) == NatToString(n) <==> m == n
  {
    if NatToString(m) == NatToString(n) {
      NatToStringRoundTrip(m);
      NatToStringRoundTrip(n);
    }
  }

  /** A decimal numeral contains no '/' (needed to split "a/b" replies). */
  lemma NatToStringHasNoSlash(n: nat)
    ensures '/' !in NatToString(n)
  {
  }
}
