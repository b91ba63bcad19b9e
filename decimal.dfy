/** Decimal rendering of integers, as Go's strconv.Itoa does it, together with
    the parser that inverts it. */
module Decimal {

  predicate IsDigit(c: char) { '0' <= c <= '9' }

  predicate AllDigits(s: string) { forall i :: 0 <= i < |s| ==> IsDigit(s[i]) }

  function DigitChar(d: nat): (c: char)
    requires d < 10
    ensures IsDigit(c)
  {
    "0123456789"[d]
  }

  function DigitValue(c: char): (d: nat)
    requires IsDigit(c)
    ensures d < 10
  {
    (c as int - '0' as int) as nat
  }

  /** The shortest decimal numeral of n: never empty, all digits, and no
      leading zero unless n is 0 itself. */
  function NatToDecimal(n: nat): (s: string)
    ensures |s| >= 1 && AllDigits(s)
    ensures s[0] == '0' ==> n == 0
    decreases n
  {
    if n < 10 then [DigitChar(n)] else NatToDecimal(n / 10) + [DigitChar(n % 10)]
  }

  /** strconv.Itoa: a minus sign followed by the magnitude for negative values. */
  function Itoa(n: int): (s: string)
    ensures |s| >= 1
    ensures n >= 0 <==> IsDigit(s[0])
  {
    if n < 0 then "-" + NatToDecimal(-n) else NatToDecimal(n)
  }

  /** A rendered integer holds digits and at most a leading minus sign, so
      never a ':' separator. */
  lemma ItoaHasNoColon(n: int)
    ensures forall i :: 0 <= i < |Itoa(n)| ==> Itoa(n)[i] != ':'
  {
    var d := NatToDecimal(if n < 0 then -n else n);
    assert forall i :: 0 <= i < |d| ==> d[i] != ':';
    if n < 0 {
      assert Itoa(n) == "-" + d;
      assert forall i :: 1 <= i < |Itoa(n)| ==> Itoa(n)[i] == d[i - 1];
    }
  }

  /** The value of a string of decimal digits (the inverse of NatToDecimal). */
  function ParseDecimal(s: string): nat
    requires AllDigits(s)
  {
    if s == [] then 0 else ParseDecimal(s[..|s| - 1]) * 10 + DigitValue(s[|s| - 1])
  }

  lemma {:induction false} DecimalRoundTrip(n: nat)
    ensures ParseDecimal(NatToDecimal(n)) == n
    decreases n
  {
    var s := NatToDecimal(n);
    if n >= 10 {
      DecimalRoundTrip(n / 10);
      assert s[..|s| - 1] == NatToDecimal(n / 10);
      assert DigitValue(DigitChar(n % 10)) == n % 10;
    } else {
      assert DigitValue(DigitChar(n)) == n;
    }
  }

  /** The integer a decimal string denotes, with an optional minus sign;
      0 for anything else. */
  function Atoi(s: string): int
  {
    if |s| > 0 && s[0] == '-' && AllDigits(s[1..]) then -(ParseDecimal(s[1..]) as int)
    else if AllDigits(s) then ParseDecimal(s)
    else 0
  }

  /** Atoi inverts Itoa. */
  lemma AtoiItoa(n: int)
    ensures Atoi(Itoa(n)) == n
  {
    if n < 0 {
      var d := NatToDecimal(-n);
      assert Itoa(n) == "-" + d;
      AtoiNegative(d, -n);
    } else {
      var d := NatToDecimal(n);
      assert Itoa(n) == d;
      AtoiDigits(d, n);
    }
  }

  lemma AtoiNegative(d: string, m: nat)
    requires d == NatToDecimal(m)
    ensures Atoi("-" + d) == -(m as int)
  {
    DecimalRoundTrip(m);
    var s := "-" + d;
    assert s[1..] == d;
    assert s[0] == '-';
  }

  lemma AtoiDigits(d: string, m: nat)
    requires d == NatToDecimal(m)
    ensures Atoi(d) == m
  {
    DecimalRoundTrip(m);
    assert IsDigit(d[0]);
  }

  /** Distinct integers are rendered as distinct strings. */
  lemma ItoaInjective(a: int, b: int)
    requires Itoa(a) == Itoa(b)
    ensures a == b
  {
    AtoiItoa(a);
    AtoiItoa(b);
  }
}
