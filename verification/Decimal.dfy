/** Decimal numerals, zero-padded or not, and reading them back. */
module Decimal {

  function DigitChar(d: nat): char
    requires d < 10
  {
    '0' + d as char
  }

  predicate IsDigit(c: char) {
    '0' <= c <= '9'
  }

  function DigitValue(c: char): nat
    requires IsDigit(c)
  {
    (c - '0') as int
  }

  predicate AllDigits(s: string) {
    forall i :: 0 <= i < |s| ==> IsDigit(s[i])
  }

  /** The numeral of `n`, without leading zeros. */
  function Dec(n: nat): string {
    if n < 10 then [DigitChar(n)] else Dec(n / 10) + [DigitChar(n % 10)]
  }

  function Value(s: string): nat
    requires AllDigits(s)
  {
    if s == "" then 0 else 10 * Value(s[..|s|-1]) + DigitValue(s[|s|-1])
  }

  function Zeros(n: nat): string {
    if n == 0 then "" else Zeros(n - 1) + "0"
  }

  /** The numeral padded with zeros to at least `width` digits. */
  function Padded(n: nat, width: nat): string {
    Zeros(if |Dec(n)| < width then width - |Dec(n)| else 0) + Dec(n)
  }

  function Pow10(k: nat): nat {
    if k == 0 then 1 else 10 * Pow10(k - 1)
  }

  lemma {:induction false} DecValue(n: nat)
    ensures AllDigits(Dec(n)) && Value(Dec(n)) == n && Dec(n) != ""
  {
    if n >= 10 {
      DecValue(n / 10);
      var s := Dec(n);
      assert s[..|s|-1] == Dec(n / 10);
    } else {
      assert Dec(n)[..0] == "";
    }
  }

  lemma {:induction false} ZerosValue(k: nat, s: string)
    requires AllDigits(s)
    ensures |Zeros(k)| == k && AllDigits(Zeros(k) + s) && Value(Zeros(k) + s) == Value(s)
    decreases k, |s|
  {
    if s == "" {
      assert Zeros(k) + s == Zeros(k);
      if k > 0 {
        ZerosValue(k - 1, "");
        assert Zeros(k - 1) + "" == Zeros(k - 1);
        assert Zeros(k)[..k-1] == Zeros(k - 1);
      }
    } else {
      var t := Zeros(k) + s;
      ZerosValue(k, s[..|s|-1]);
      assert t[..|t|-1] == Zeros(k) + s[..|s|-1];
    }
  }

  lemma PaddedValue(n: nat, width: nat)
    ensures AllDigits(Padded(n, width)) && Value(Padded(n, width)) == n
    ensures |Padded(n, width)| == if |Dec(n)| < width then width else |Dec(n)|
  {
    DecValue(n);
    ZerosValue(if |Dec(n)| < width then width - |Dec(n)| else 0, Dec(n));
  }

  lemma {:induction false} DecLength(n: nat, width: nat)
    requires width > 0
    ensures |Dec(n)| <= width <==> n < Pow10(width)
  {
    if width == 1 {
      assert Pow10(1) == 10 by { assert Pow10(0) == 1; }
      if n >= 10 {
        DecValue(n / 10);
      }
    } else {
      assert Pow10(width) == 10 * Pow10(width - 1);
      if n >= 10 {
        DecLength(n / 10, width - 1);
      } else {
        Pow10Positive(width - 1);
      }
    }
  }

  lemma {:induction false} Pow10Positive(k: nat)
    ensures Pow10(k) > 0
  {
    if k > 0 {
      Pow10Positive(k - 1);
    }
  }

  /** Numerals of different numbers differ, padded or not. */
  lemma PaddedInjective(a: nat, b: nat, width: nat)
    requires Padded(a, width) == Padded(b, width)
    ensures a == b
  {
    PaddedValue(a, width);
    PaddedValue(b, width);
  }
}
