/** Decimal text of integers, as produced by Java's Integer/Long.toString and read
    back by Integer.parseInt, and the digit test of StringUtils.isNumeric. */
module Decimal {
  /** Java `long` and `int` ranges. */
  const LONG_MIN: int := -0x8000_0000_0000_0000
  const LONG_MAX: int := 0x7FFF_FFFF_FFFF_FFFF
  type Int64 = x: int | LONG_MIN <= x <= LONG_MAX
  type Int32 = x: int | -0x8000_0000 <= x < 0x8000_0000

  predicate IsDigit(c: char) {
    '0' <= c <= '9'
  }

  /** StringUtils.isNumeric restricted to ASCII digits: non-empty and all digits. */
  predicate IsNumeric(s: string) {
    |s| > 0 && forall i :: 0 <= i < |s| ==> IsDigit(s[i])
  }

  function DigitChar(d: nat): (c: char)
    requires d < 10
    ensures IsDigit(c) && DigitValue(c) == d
  {
    (d + '0' as int) as char
  }

  function DigitValue(c: char): nat
    requires IsDigit(c)
  {
    c as int - '0' as int
  }

  /** Decimal text of a non-negative number, most significant digit first, no leading zeros. */
  function NatToString(n: nat): (s: string)
    ensures |s| > 0
    decreases n
  {
    if n < 10 then [DigitChar(n)] else NatToString(n / 10) + [DigitChar(n % 10)]
  }

  /** Java's Integer.toString / Long.toString: a minus sign before negative values. */
  function IntToString(i: int): (s: string)
    ensures |s| > 0
  {
    if i < 0 then "-" + NatToString(-i) else NatToString(i)
  }

  /** The value of a digit string (Integer.parseInt on a numeric string, without overflow). */
  function ParseNat(s: string): nat
    requires forall i :: 0 <= i < |s| ==> IsDigit(s[i])
  {
    if s == [] then 0 else ParseNat(s[..|s| - 1]) * 10 + DigitValue(s[|s| - 1])
  }

  lemma {:induction false} NatToStringIsNumeric(n: nat)
    ensures IsNumeric(NatToString(n))
    decreases n
  {
    if n >= 10 {
      NatToStringIsNumeric(n / 10);
      var s := NatToString(n / 10) + [DigitChar(n % 10)];
      forall i | 0 <= i < |s| ensures IsDigit(s[i]) {
        if i < |s| - 1 {
          assert s[i] == NatToString(n / 10)[i];
        }
      }
    }
  }

  /** Reading back the decimal text of n gives n. */
  lemma {:induction false} ParseNatToString(n: nat)
    ensures IsNumeric(NatToString(n)) && ParseNat(NatToString(n)) == n
    decreases n
  {
    NatToStringIsNumeric(n);
    if n >= 10 {
      ParseNatToString(n / 10);
      var s := NatToString(n);
      assert s[..|s| - 1] == NatToString(n / 10);
    }
  }

  /** Distinct numbers have distinct decimal texts. */
  lemma NatToStringInjective(a: nat, b: nat)
    requires NatToString(a) == NatToString(b)
    ensures a == b
  {
    ParseNatToString(a);
    ParseNatToString(b);
  }

  /** Integer.toString of a negative value is never numeric (it starts with '-'). */
  lemma IntToStringNumeric(i: int)
    ensures IsNumeric(IntToString(i)) <==> i >= 0
  {
    if i >= 0 {
      NatToStringIsNumeric(i);
    } else {
      assert IntToString(i)[0] == '-';
    }
  }
}
