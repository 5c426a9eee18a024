/**
 * Decimal rendering of integers, as JavaScript's `'' + n` writes an integral status code,
 * together with its inverse, used to show that no information is lost.
 */
module Decimal {
  import opened Wrappers

  predicate IsDigit(c: char)
  {
    '0' <= c <= '9'
  }

  predicate AllDigits(s: string)
  {
    forall i :: 0 <= i < |s| ==> IsDigit(s[i])
  }

  function Digit(d: nat): (c: char)
    requires d < 10
    ensures IsDigit(c)
  {
    (('0' as int) + d) as char
  }

  function DigitValue(c: char): (d: nat)
    requires IsDigit(c)
    ensures d < 10 && Digit(d) == c
  {
    (c as int) - ('0' as int)
  }

  /** The shortest decimal numeral of `n`: digits only, no leading zero. */
  function NatToDecimal(n: nat): (s: string)
    ensures |s| >= 1 && AllDigits(s)
    ensures |s| > 1 ==> s[0] != '0'
    ensures n < 10 <==> |s| == 1
  {
    if n < 10 then [Digit(n)] else NatToDecimal(n / 10) + [Digit(n % 10)]
  }

  /** The numeral JavaScript produces for an integral number: a minus sign, then the magnitude. */
  function IntToDecimal(n: int): (s: string)
    ensures |s| >= 1
    ensures s[0] == '-' <==> n < 0
  {
    if n < 0 then "-" + NatToDecimal(-n) else NatToDecimal(n)
  }

  /** The value of a non-empty digit string. */
  function ParseNat(s: string): nat
    requires |s| >= 1 && AllDigits(s)
  {
    if |s| == 1 then DigitValue(s[0]) else ParseNat(s[..|s| - 1]) * 10 + DigitValue(s[|s| - 1])
  }

  /** The value of a digit string, or `None` when it is empty or holds another character. */
  function ParseDigits(s: string): Option<nat>
  {
    if |s| >= 1 && AllDigits(s) then Some(ParseNat(s)) else None
  }

  /** The integer a numeral denotes, or `None` when the string is not a numeral. */
  function ParseDecimal(s: string): Option<int>
  {
    if |s| >= 1 && s[0] == '-' then
      match ParseDigits(s[1..])
      case Some(m) => Some(-(m as int))
      case None => None
    else
      match ParseDigits(s)
      case Some(m) => Some(m as int)
      case None => None
  }

  lemma {:induction false} ParseNatToDecimal(n: nat)
    ensures ParseNat(NatToDecimal(n)) == n
  {
    if n >= 10 {
      var s := NatToDecimal(n / 10);
      var t := s + [Digit(n % 10)];
      assert t[..|t| - 1] == s;
      ParseNatToDecimal(n / 10);
    }
  }

  /** Reading back the numeral of any integer gives that integer. */
  lemma ParseIntToDecimal(n: int)
    ensures ParseDecimal(IntToDecimal(n)) == Some(n)
  {
    if n < 0 {
      var d := NatToDecimal(-n);
      var s := "-" + d;
      assert IntToDecimal(n) == s;
      assert s[0] == '-' && s[1..] == d;
      ParseNatToDecimal(-n);
    } else {
      var d := NatToDecimal(n);
      assert IntToDecimal(n) == d;
      assert IsDigit(d[0]);
      ParseNatToDecimal(n);
    }
  }

  /** Distinct integers have distinct numerals. */
  lemma IntToDecimalInjective(a: int, b: int)
    requires IntToDecimal(a) == IntToDecimal(b)
    ensures a == b
  {
    ParseIntToDecimal(a);
    ParseIntToDecimal(b);
  }

  /** An HTTP status code, three digits, is written as exactly its three digits. */
  lemma StatusCodeNumeral(n: int)
    requires 100 <= n <= 999
    ensures IntToDecimal(n) == [Digit(n / 100), Digit(n / 10 % 10), Digit(n % 10)]
  {
    assert NatToDecimal(n / 100) == [Digit(n / 100)];
    assert NatToDecimal(n / 10) == [Digit(n / 100), Digit(n / 10 % 10)];
  }
}
