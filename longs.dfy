/**
 * Java's 64-bit long as seen by the lexers and the parser: the range,
 * Long.parseLong and Long.toString.
 */
module Longs {
  import opened Wrappers
  import opened Chars

  const MIN_LONG: int := -0x8000_0000_0000_0000
  const MAX_LONG: int := 0x7FFF_FFFF_FFFF_FFFF

  predicate InLongRange(n: int) {
    MIN_LONG <= n <= MAX_LONG
  }

  predicate AllDigits(s: string) {
    forall i :: 0 <= i < |s| ==> IsDigit(s[i])
  }

  function DigitValue(c: char): nat
    requires IsDigit(c)
  {
    c as int - '0' as int
  }

  function DigitChar(d: nat): (c: char)
    requires d < 10
    ensures IsDigit(c) && DigitValue(c) == d
  {
    ('0' as int + d) as char
  }

  /** The value of a string of decimal digits, most significant first. */
  function DigitsValue(s: string): nat
    requires AllDigits(s)
    decreases |s|
  {
    if s == [] then 0 else DigitsValue(s[..|s| - 1]) * 10 + DigitValue(s[|s| - 1])
  }

  /**
   * Long.parseLong: an optional '+' or '-', then at least one digit, and a
   * value that fits in a long; anything else is a NumberFormatException (None).
   */
  function ParseLong(s: string): (r: Option<int>)
    ensures r.Some? ==> InLongRange(r.value)
    ensures r.Some? ==> |s| > 0 && (IsDigit(s[0]) || s[0] == '-' || s[0] == '+')
    ensures r.Some? ==> forall k :: 1 <= k < |s| ==> IsDigit(s[k])
  {
    var negative := |s| > 0 && s[0] == '-';
    var digits := if |s| > 0 && (s[0] == '-' || s[0] == '+') then s[1..] else s;
    if digits == [] || !AllDigits(digits) then None
    else
      var magnitude: int := DigitsValue(digits);
      var v := if negative then 0 - magnitude else magnitude;
      if InLongRange(v) then Some(v) else None
  }

  /** Long.toString of a non-negative value: its decimal digits without leading zeros. */
  function NatToString(n: nat): (s: string)
    decreases n
  {
    if n < 10 then [DigitChar(n)] else NatToString(n / 10) + [DigitChar(n % 10)]
  }

  /** Long.toString: a '-' before the digits of a negative value. */
  function LongToString(n: int): string {
    if n < 0 then "-" + NatToString(-n) else NatToString(n)
  }

  lemma {:induction false} NatToStringDigits(n: nat)
    ensures |NatToString(n)| > 0 && AllDigits(NatToString(n))
    ensures DigitsValue(NatToString(n)) == n
    decreases n
  {
    if n >= 10 {
      NatToStringDigits(n / 10);
      var s := NatToString(n);
      assert s[..|s| - 1] == NatToString(n / 10);
    }
  }

  /** Long.parseLong(Long.toString(n)) == n for every long n. */
  lemma LongToStringRoundTrip(n: int)
    requires InLongRange(n)
    ensures ParseLong(LongToString(n)) == Some(n)
  {
    if n < 0 {
      var d := NatToString(-n);
      NatToStringDigits(-n);
      var s := "-" + d;
      assert s[0] == '-' && s[1..] == d;
      assert LongToString(n) == s;
    } else {
      var d := NatToString(n);
      NatToStringDigits(n);
      assert IsDigit(d[0]);
      assert LongToString(n) == d;
    }
  }

  /** Long.toString of a negative long: '-' and the digits of its magnitude. */
  /** w is '-' and the digits d, and Long.parseLong(w) is n. */
  predicate MinusLexeme(w: string, d: string, n: int) {
    w == "-" + d && |d| > 0 && AllDigits(d) && ParseLong("-" + d) == Some(n)
  }

  lemma NegativeDigits(n: int) returns (d: string)
    requires MIN_LONG <= n < 0
    ensures MinusLexeme(LongToString(n), d, n)
  {
    d := NatToString(-n);
    NatToStringDigits(-n);
    LongToStringRoundTrip(n);
  }

  /** Long.toString of a non-negative long: its digits. */
  lemma NonNegativeDigits(n: int) returns (d: string)
    requires 0 <= n <= MAX_LONG
    ensures LongToString(n) == d && |d| > 0 && AllDigits(d) && ParseLong(d) == Some(n)
  {
    d := NatToString(n);
    NatToStringDigits(n);
    LongToStringRoundTrip(n);
  }

  /** A lexeme Long.parseLong reads back as n: a run of digits, or '-' and a run of digits. */
  predicate LongLexeme(w: string, n: int) {
    |w| > 0 && ParseLong(w) == Some(n) && (if w[0] == '-' then |w| > 1 && AllDigits(w[1..]) else AllDigits(w))
  }

  lemma LongToStringLexeme(n: int)
    requires InLongRange(n)
    ensures LongLexeme(LongToString(n), n)
  {
    if n < 0 {
      var d := NegativeDigits(n);
      assert LongToString(n)[1..] == d;
    } else {
      var d := NonNegativeDigits(n);
    }
  }
}
