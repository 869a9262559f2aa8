/** Decimal text of integers: every digit of the integer, with a '-' sign for
    negatives. JavaScript's Number-to-String conversion (used by template
    literals such as `Gemini API returned status ${response.status}` and
    `${model}`) writes exactly this text for an integral number whose
    magnitude is below 2^53, which covers every HTTP status. Above that it
    writes the shortest digits that round-trip to the double, padded with
    zeros, and from 10^21 on it switches to exponent form; neither is
    modelled here.

    NatToDecimal and DecimalValue are inverse to each other on canonical
    digit strings (no leading zero unless the string is "0"). */
module Decimal {

  predicate IsDigit(c: char) {
    '0' <= c <= '9'
  }

  predicate AllDigits(s: string) {
    forall i :: 0 <= i < |s| ==> IsDigit(s[i])
  }

  /** A non-empty digit string that starts with '0' only when it is "0". */
  predicate Canonical(s: string) {
    |s| >= 1 && AllDigits(s) && (|s| > 1 ==> s[0] != '0')
  }

  function DigitValue(c: char): (d: nat)
    requires IsDigit(c)
    ensures d < 10
  {
    c as int - '0' as int
  }

  function DigitChar(d: nat): (c: char)
    requires d < 10
    ensures IsDigit(c) && DigitValue(c) == d
  {
    (d + '0' as int) as char
  }

  /** Decimal text of a natural number, most significant digit first. */
  function NatToDecimal(n: nat): (s: string)
    ensures Canonical(s)
    ensures (s[0] == '0') == (n == 0)
    ensures (|s| == 1) == (n < 10)
  {
    if n < 10 then [DigitChar(n)] else NatToDecimal(n / 10) + [DigitChar(n % 10)]
  }

  /** The number a digit string denotes. */
  function DecimalValue(s: string): nat
    requires AllDigits(s)
  {
    if |s| == 0 then 0 else DecimalValue(s[..|s| - 1]) * 10 + DigitValue(s[|s| - 1])
  }

  lemma {:induction false} NatToDecimalRoundTrip(n: nat)
    ensures DecimalValue(NatToDecimal(n)) == n
  {
    if n >= 10 {
      var s := NatToDecimal(n);
      assert s[..|s| - 1] == NatToDecimal(n / 10);
      NatToDecimalRoundTrip(n / 10);
    }
  }

  lemma {:induction false} DecimalValueRoundTrip(s: string)
    requires Canonical(s)
    ensures NatToDecimal(DecimalValue(s)) == s
  {
    if |s| > 1 {
      var p := s[..|s| - 1];
      assert Canonical(p);
      DecimalValueRoundTrip(p);
      var v := DecimalValue(p);
      assert v != 0 by {
        assert NatToDecimal(v)[0] == s[0];
      }
      var d := DigitValue(s[|s| - 1]);
      assert DecimalValue(s) / 10 == v && DecimalValue(s) % 10 == d;
      assert DigitChar(d) == s[|s| - 1];
      assert s == p + [s[|s| - 1]];
    }
  }

  lemma NatToDecimalInjective(m: nat, n: nat)
    ensures NatToDecimal(m) == NatToDecimal(n) ==> m == n
  {
    NatToDecimalRoundTrip(m);
    NatToDecimalRoundTrip(n);
  }

  /** Decimal text of an integer: a '-' sign for negatives, then the digits
      of the magnitude. JavaScript writes -0 as "0", which `int` agrees with. */
  function IntToDecimal(i: int): (s: string)
    ensures |s| >= 1
    ensures (s[0] == '-') == (i < 0)
    ensures i < 0 ==> Canonical(s[1..])
    ensures i >= 0 ==> Canonical(s)
  {
    if i < 0 then "-" + NatToDecimal(-i) else NatToDecimal(i)
  }

  /** Reads back the text IntToDecimal writes. */
  function DecimalToInt(s: string): int
    requires |s| >= 1
    requires if s[0] == '-' then AllDigits(s[1..]) else AllDigits(s)
  {
    if s[0] == '-' then -(DecimalValue(s[1..]) as int) else DecimalValue(s)
  }

  lemma IntToDecimalRoundTrip(i: int)
    ensures DecimalToInt(IntToDecimal(i)) == i
  {
    var s := IntToDecimal(i);
    if i < 0 {
      var t := NatToDecimal(-i);
      assert s == "-" + t && s[1..] == t;
      NatToDecimalRoundTrip(-i);
      assert DecimalToInt(s) == -(DecimalValue(t) as int);
    } else {
      assert s == NatToDecimal(i) && IsDigit(s[0]);
      NatToDecimalRoundTrip(i);
    }
  }

  lemma IntToDecimalInjective(i: int, j: int)
    ensures IntToDecimal(i) == IntToDecimal(j) ==> i == j
  {
    IntToDecimalRoundTrip(i);
    IntToDecimalRoundTrip(j);
  }
}
