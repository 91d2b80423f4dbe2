/**
  Decimal text for integers, as JavaScript's `Number.prototype.toString()` writes it for
  integral values below 10^21 in magnitude: the digits without leading zeros, and a
  leading '-' for a negative value. Integers here are unbounded; the exponent form that
  `toString` uses from 10^21 up is not modelled.
*/
module Text {
  predicate IsDigit(c: char) { '0' <= c <= '9' }

  predicate AllDigits(s: string) { forall i | 0 <= i < |s| :: IsDigit(s[i]) }

  function DigitChar(d: nat): (c: char)
    requires d < 10
    ensures IsDigit(c) && DigitValue(c) == d
  {
    ('0' as int + d) as char
  }

  function DigitValue(c: char): (d: nat)
    requires IsDigit(c)
    ensures d < 10
  {
    c as int - '0' as int
  }

  /** The decimal digits of n, most significant first. */
  function NatToString(n: nat): (s: string)
    ensures |s| >= 1 && AllDigits(s)
    ensures s[0] == '0' <==> n == 0
    ensures |s| == 1 <==> n < 10
  {
    if n < 10 then [DigitChar(n)]
    else
      var init := NatToString(n / 10);
      var s := init + [DigitChar(n % 10)];
      assert s[0] == init[0];
      s
  }

  /** The value of a string of decimal digits. */
  function ParseNat(s: string): nat
    requires AllDigits(s)
  {
    if s == [] then 0
    else ParseNat(s[..|s| - 1]) * 10 + DigitValue(s[|s| - 1])
  }

  /**
    `n.toString()` for an integral number below 10^21 in magnitude: a '-' exactly for a negative value, then the
    decimal digits of the magnitude, which read back to it and have no leading zero.
  */
  function IntToString(i: int): (s: string)
    ensures |s| > 0 && (s[0] == '-' <==> i < 0)
    ensures var digits := if i < 0 then s[1..] else s;
      && |digits| > 0 && AllDigits(digits) && ParseNat(digits) == (if i < 0 then -i else i)
      && (digits[0] == '0' ==> |digits| == 1)
  {
    var magnitude := if i < 0 then -i else i;
    ParseNatToString(magnitude);
    if i < 0 then
      var s := "-" + NatToString(magnitude);
      assert s[1..] == NatToString(magnitude);
      s
    else NatToString(magnitude)
  }

  /** Reading the digits back gives the number: the text is a faithful decimal rendering. */
  lemma {:induction false} ParseNatToString(n: nat)
    ensures ParseNat(NatToString(n)) == n
  {
    if n >= 10 {
      var s := NatToString(n);
      assert s[..|s| - 1] == NatToString(n / 10);
      ParseNatToString(n / 10);
    }
  }

  /** Distinct numbers have distinct texts. */
  lemma IntToStringInjective(a: int, b: int)
    requires IntToString(a) == IntToString(b)
    ensures a == b
  {
    if a >= 0 && b >= 0 {
      ParseNatToString(a);
      ParseNatToString(b);
    } else if a < 0 && b < 0 {
      var sa, sb := NatToString(-a), NatToString(-b);
      assert ("-" + sa)[1..] == sa && ("-" + sb)[1..] == sb;
      ParseNatToString(-a);
      ParseNatToString(-b);
    }
  }
}
