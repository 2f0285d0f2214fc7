/**
 * Decimal rendering and parsing of integers, as Java's String.valueOf and
 * Integer.parseInt do them for the ASCII digits '0'..'9'.
 */
module Strings {

  predicate IsDigit(c: char) {
    '0' <= c <= '9'
  }

  /** A non-empty run of ASCII digits: what the regular expression \d+ matches. */
  predicate IsDigits(s: string) {
    |s| > 0 && forall i :: 0 <= i < |s| ==> IsDigit(s[i])
  }

  function DigitChar(d: nat): (c: char)
    requires d < 10
    ensures IsDigit(c) && c as int - '0' as int == d
  {
    (('0' as int) + d) as char
  }

  /** The value of a run of digits, most significant first. */
  function DigitsValue(s: string): nat
    requires forall i :: 0 <= i < |s| ==> IsDigit(s[i])
  {
    if s == [] then 0
    else assert IsDigit(s[|s| - 1]); DigitsValue(s[..|s| - 1]) * 10 + (s[|s| - 1] as int - '0' as int)
  }

  /** The shortest decimal rendering of n. */
  function NatToString(n: nat): (s: string)
    ensures IsDigits(s)
    ensures |s| > 1 ==> s[0] != '0'
  {
    if n < 10 then [DigitChar(n)] else NatToString(n / 10) + [DigitChar(n % 10)]
  }

  /** String.valueOf for an integer: a minus sign, then the digits of its magnitude. */
  function IntToString(i: int): (s: string)
    ensures i >= 0 ==> IsDigits(s)
    ensures i < 0 ==> |s| > 1 && s[0] == '-' && IsDigits(s[1..])
  {
    if i < 0 then "-" + NatToString(-i) else NatToString(i)
  }

  /** Rendering then parsing gives the number back. */
  lemma {:induction false} DigitsValueOfNatToString(n: nat)
    ensures DigitsValue(NatToString(n)) == n
  {
    if n >= 10 {
      var s := NatToString(n);
      assert s[..|s| - 1] == NatToString(n / 10);
      DigitsValueOfNatToString(n / 10);
    }
  }

  /** A string with no character among those of `bad`. */
  predicate Avoids(s: string, bad: set<char>) {
    forall i :: 0 <= i < |s| ==> s[i] !in bad
  }

  /** Number of occurrences of c in s. */
  function Count(c: char, s: string): nat {
    if s == [] then 0 else (if s[0] == c then 1 else 0) + Count(c, s[1..])
  }

  lemma {:induction false} CountAppend(c: char, a: string, b: string)
    ensures Count(c, a + b) == Count(c, a) + Count(c, b)
  {
    if a == [] {
      assert a + b == b;
    } else {
      assert (a + b)[1..] == a[1..] + b;
      CountAppend(c, a[1..], b);
    }
  }

  lemma {:induction false} CountAvoided(c: char, s: string, bad: set<char>)
    requires c in bad && Avoids(s, bad)
    ensures Count(c, s) == 0
  {
    if s != [] {
      CountAvoided(c, s[1..], bad);
    }
  }
}
