/**
 * Decimal digits and decimal renderings of naturals: what Java's
 * `Integer.parseInt` on a one-character string and `String.valueOf` on a
 * non-negative `int` do, restricted to the ASCII digits '0'..'9'.
 */
module Decimal {

  type Digit = d: int | 0 <= d <= 9

  predicate IsDigitChar(c: char) {
    '0' <= c <= '9'
  }

  predicate AllDigits(s: string) {
    forall i :: 0 <= i < |s| ==> IsDigitChar(s[i])
  }

  /** A non-empty string is all digits when its head is a digit and its tail is all digits. */
  lemma AllDigitsHead(s: string)
    requires |s| >= 1
    ensures AllDigits(s) <==> IsDigitChar(s[0]) && AllDigits(s[1..])
  {
    if IsDigitChar(s[0]) && AllDigits(s[1..]) {
      forall i | 0 <= i < |s| ensures IsDigitChar(s[i]) {
        if i > 0 { assert s[i] == s[1..][i - 1]; }
      }
    }
  }

  /** Concatenation is associative; stating it once spares the solver a proof by extensionality. */
  lemma AppendAssoc(x: string, y: string, z: string)
    ensures x + (y + z) == (x + y) + z
  {
  }

  function DigitChar(d: Digit): (c: char)
    ensures IsDigitChar(c)
  {
    ('0' as int + d) as char
  }

  /** `Integer.parseInt(String.valueOf(c))` for an ASCII digit. */
  function DigitValue(c: char): (d: Digit)
    requires IsDigitChar(c)
    ensures DigitChar(d) == c
  {
    c as int - '0' as int
  }

  /** The digit values of an all-digit string, in order. */
  function Digits(s: string): (ds: seq<Digit>)
    requires AllDigits(s)
    ensures |ds| == |s|
    ensures forall i :: 0 <= i < |s| ==> DigitChar(ds[i]) == s[i]
  {
    if s == [] then [] else [DigitValue(s[0])] + Digits(s[1..])
  }

  function Pow10(k: nat): (p: nat)
    ensures p >= 1
  {
    if k == 0 then 1 else 10 * Pow10(k - 1)
  }

  /** `String.valueOf(n)` for a non-negative `n`: most significant digit first, no leading zero. */
  function NatToDecimal(n: nat): (s: string)
    ensures |s| >= 1 && AllDigits(s)
    ensures s[|s| - 1] == DigitChar(n % 10)
    ensures |s| > 1 ==> s[0] != '0'
  {
    if n < 10 then [DigitChar(n)] else NatToDecimal(n / 10) + [DigitChar(n % 10)]
  }

  /** The number an all-digit string denotes (leading zeros allowed). */
  function DecimalValue(s: string): nat
    requires AllDigits(s)
  {
    if s == [] then 0 else 10 * DecimalValue(s[..|s| - 1]) + DigitValue(s[|s| - 1])
  }

  /** `String.valueOf` and parsing back are inverse on the naturals. */
  lemma {:induction false} DecimalRoundTrip(n: nat)
    ensures DecimalValue(NatToDecimal(n)) == n
  {
    var s := NatToDecimal(n);
    if n >= 10 {
      DecimalRoundTrip(n / 10);
      assert s[..|s| - 1] == NatToDecimal(n / 10);
    }
  }

  /** The length of `String.valueOf(n)` is the k with 10^(k-1) <= n < 10^k (k = 1 for n < 10). */
  lemma {:induction false} DecimalLength(n: nat)
    ensures n < Pow10(|NatToDecimal(n)|)
    ensures n >= 1 ==> Pow10(|NatToDecimal(n)| - 1) <= n
  {
    if n >= 10 {
      DecimalLength(n / 10);
    }
  }

  predicate EndsWith(s: string, suffix: string) {
    |suffix| <= |s| && s[|s| - |suffix|..] == suffix
  }

  /** `String.valueOf(n).endsWith("0")` holds exactly for the multiples of ten. */
  lemma EndsWithZeroIffMultipleOfTen(n: nat)
    ensures EndsWith(NatToDecimal(n), "0") <==> n % 10 == 0
  {
    var s := NatToDecimal(n);
    assert s[|s| - 1..] == [s[|s| - 1]];
    if n % 10 != 0 {
      assert DigitChar(n % 10) != DigitChar(0);
    }
  }
}
