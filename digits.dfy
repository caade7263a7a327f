/**
 * Decimal digit strings: the `\d` class of the phone pattern and the
 * decimal rendering of the record index in bulk-creation error lines.
 */
module Digits {

  /** An ASCII decimal digit. */
  predicate IsDigit(c: char) {
    '0' <= c <= '9'
  }

  predicate AllDigits(s: string) {
    forall i :: 0 <= i < |s| ==> IsDigit(s[i])
  }

  function DigitValue(c: char): (d: nat)
    requires IsDigit(c)
    ensures d < 10
  {
    (c as int - '0' as int) as nat
  }

  function DigitChar(d: nat): (c: char)
    requires d < 10
    ensures IsDigit(c) && DigitValue(c) == d
  {
    ('0' as int + d) as char
  }

  /** The number a digit string denotes, most significant digit first. */
  function DecimalValue(s: string): nat
    requires AllDigits(s)
    decreases |s|
  {
    if s == [] then 0 else DecimalValue(s[..|s| - 1]) * 10 + DigitValue(s[|s| - 1])
  }

  /**
   * The text Python's `str` gives a non-negative int: shortest decimal
   * form, no leading zero. Its inverse is DecimalValue.
   */
  function DecimalString(n: nat): (s: string)
    ensures |s| >= 1 && AllDigits(s)
    ensures DecimalValue(s) == n
    ensures |s| > 1 ==> s[0] != '0'
    decreases n
  {
    if n < 10 then [DigitChar(n)]
    else
      var init := DecimalString(n / 10);
      assert (init + [DigitChar(n % 10)])[..|init|] == init;
      init + [DigitChar(n % 10)]
  }

  /** The length of the run of digits that starts `s`. */
  function DigitPrefixLength(s: string): (n: nat)
    ensures n <= |s|
    decreases |s|
  {
    if s == [] || !IsDigit(s[0]) then 0 else 1 + DigitPrefixLength(s[1..])
  }

  /** Reading digits off `a + t` stops exactly where `a` ends, when `t` starts with a non-digit. */
  lemma {:induction false} DigitPrefixLengthOf(a: string, t: string)
    requires AllDigits(a) && t != [] && !IsDigit(t[0])
    ensures DigitPrefixLength(a + t) == |a|
    decreases |a|
  {
    if a != [] {
      assert (a + t)[1..] == a[1..] + t;
      DigitPrefixLengthOf(a[1..], t);
    }
  }

  /** A digit run followed by a non-digit splits in only one way. */
  lemma DigitsSplit(a: string, t: string, b: string, u: string)
    requires AllDigits(a) && t != [] && !IsDigit(t[0])
    requires AllDigits(b) && u != [] && !IsDigit(u[0])
    requires a + t == b + u
    ensures a == b && t == u
  {
    DigitPrefixLengthOf(a, t);
    DigitPrefixLengthOf(b, u);
    assert a == (a + t)[..|a|] && t == (a + t)[|a|..];
    assert b == (b + u)[..|b|] && u == (b + u)[|b|..];
  }
}
