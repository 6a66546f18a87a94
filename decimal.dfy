/**
 * Decimal numerals: the template literal `${n}` for a natural number, and
 * `parseInt(s)` with the default radix on decimal input.
 */
module Decimal {
  import opened Wrappers
  import Text

  predicate IsDigit(c: char) {
    '0' <= c <= '9'
  }

  predicate AllDigits(s: string) {
    forall i :: 0 <= i < |s| ==> IsDigit(s[i])
  }

  function DigitChar(d: nat): (c: char)
    requires d < 10
    ensures IsDigit(c) && c as int - '0' as int == d
  {
    ('0' as int + d) as char
  }

  function DigitValue(c: char): (d: nat)
    requires IsDigit(c)
    ensures d < 10
  {
    c as int - '0' as int
  }

  /** `${n}`: the shortest decimal numeral of `n`. */
  function ToDecimal(n: nat): (r: string)
    ensures |r| >= 1 && AllDigits(r)
    ensures |r| > 1 ==> r[0] != '0'
    decreases n
  {
    if n < 10 then [DigitChar(n)] else ToDecimal(n / 10) + [DigitChar(n % 10)]
  }

  /** The value of a string of decimal digits (0 for the empty string). */
  function ParseDigits(s: string): nat
    requires AllDigits(s)
    decreases |s|
  {
    if s == [] then 0 else ParseDigits(s[..|s| - 1]) * 10 + DigitValue(s[|s| - 1])
  }

  /** Reading back a numeral gives the number it was written from. */
  lemma {:induction false} ParseToDecimal(n: nat)
    ensures ParseDigits(ToDecimal(n)) == n
    decreases n
  {
    if n >= 10 {
      ParseToDecimal(n / 10);
      var r := ToDecimal(n);
      assert r[..|r| - 1] == ToDecimal(n / 10);
    }
  }

  /** Distinct numbers have distinct numerals. */
  lemma ToDecimalInjective(a: nat, b: nat)
    ensures ToDecimal(a) == ToDecimal(b) <==> a == b
  {
    if ToDecimal(a) == ToDecimal(b) {
      ParseToDecimal(a);
      ParseToDecimal(b);
    }
  }

  /** The longest prefix of `s` made of decimal digits. */
  function LeadingDigits(s: string): (r: string)
    ensures r <= s && AllDigits(r)
    ensures |r| < |s| ==> !IsDigit(s[|r|])
    decreases |s|
  {
    if s != [] && IsDigit(s[0]) then [s[0]] + LeadingDigits(s[1..]) else []
  }

  /** A string of digits is its own longest digit prefix. */
  lemma {:induction false} LeadingDigitsAll(s: string)
    requires AllDigits(s)
    ensures LeadingDigits(s) == s
    decreases |s|
  {
    if s != [] {
      LeadingDigitsAll(s[1..]);
    }
  }

  /**
   * `parseInt(s)` (radix 10): leading white space is skipped, one optional
   * sign is read, then the longest run of digits; no digits gives NaN (None).
   */
  function ParseInt(s: string): Option<int> {
    var t := Text.TrimStart(s);
    var negative := t != [] && t[0] == '-';
    var body := if t != [] && (t[0] == '-' || t[0] == '+') then t[1..] else t;
    var digits := LeadingDigits(body);
    var magnitude: int := if digits == [] then 0 else ParseDigits(digits);
    if digits == [] then None else Some(if negative then -magnitude else magnitude)
  }

  /** `parseInt` reads back every numeral written by `${n}`. */
  lemma ParseIntToDecimal(n: nat)
    ensures ParseInt(ToDecimal(n)) == Some(n)
  {
    var r := ToDecimal(n);
    assert !Text.IsJsWhitespace(r[0]);
    assert Text.TrimStart(r) == r;
    LeadingDigitsAll(r);
    ParseToDecimal(n);
  }
}
