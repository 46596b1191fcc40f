/**
 * The `@NumberOfDigits(value)` constraint and its validator, which counts the
 * decimal digits of a number by dividing it by ten until it reaches zero.
 */
module NumberOfDigits {
  import opened Wrappers
  import opened Decimal

  /** Java's `long / 10`, which truncates toward zero. */
  function TruncDiv10(n: int): (q: int)
    ensures n >= 0 ==> 0 <= q && 10 * q <= n < 10 * q + 10
    ensures n < 0 ==> q <= 0 && 10 * q - 10 < n <= 10 * q
  {
    if n >= 0 then n / 10 else -((-n) / 10)
  }

  function Abs(n: int): nat {
    if n < 0 then -n else n
  }

  /** How many times `number = number / 10` runs before `number` is zero. */
  function DivisionsToZero(n: int): nat
    decreases Abs(n)
  {
    if n == 0 then 0 else 1 + DivisionsToZero(TruncDiv10(n))
  }

  /** The constraint holds: the number is present and has exactly `value` digits. */
  predicate HasDigits(num: Option<int>, value: int) {
    num.Some? && DivisionsToZero(num.value) == value
  }

  /** Truncating division by ten drops the last decimal digit of the magnitude. */
  lemma TruncDiv10Abs(n: int)
    ensures Abs(TruncDiv10(n)) == Abs(n) / 10
  {
  }

  /**
   * For a non-zero number, the loop counts the digits of its magnitude as
   * `String.valueOf` writes them; for zero it counts none.
   */
  lemma {:induction false} DivisionsCountDigits(n: int)
    ensures n != 0 ==> DivisionsToZero(n) == |NatToDecimal(Abs(n))|
    ensures n == 0 ==> DivisionsToZero(n) == 0
    decreases Abs(n)
  {
    if n != 0 {
      var q := TruncDiv10(n);
      TruncDiv10Abs(n);
      DivisionsCountDigits(q);
      if Abs(n) >= 10 {
        assert NatToDecimal(Abs(n)) == NatToDecimal(Abs(q)) + [DigitChar(Abs(n) % 10)];
      }
    }
  }

  /** A number has k >= 1 digits exactly when its magnitude lies in [10^(k-1), 10^k). */
  lemma {:induction false} DigitsRange(n: int, k: nat)
    requires k >= 1
    ensures DivisionsToZero(n) == k <==> Pow10(k - 1) <= Abs(n) < Pow10(k)
    decreases k
  {
    if n != 0 {
      var q := TruncDiv10(n);
      TruncDiv10Abs(n);
      if k > 1 {
        DigitsRange(q, k - 1);
      } else {
        if Abs(q) != 0 { ZeroDigitsOnlyForZero(q); }
      }
    }
  }

  lemma ZeroDigitsOnlyForZero(n: int)
    ensures DivisionsToZero(n) == 0 <==> n == 0
  {
  }

  /** The validator behind `@NumberOfDigits`; `value` is set by `initialize`. */
  class NumberOfDigitsValidator {
    var value: int

    constructor()
      ensures value == 0
    {
      value := 0;
    }

    /**
     * `initialize` followed by `validateParameters`: the annotation's value is
     * stored first, then rejected if it is below 1.
     */
    method Initialize(parametersValue: int) returns (failure: Option<Failure>)
      modifies this
      ensures value == parametersValue
      ensures failure.Some? <==> parametersValue < 1
      ensures failure.Some? ==> failure.value == IllegalArgumentException("value must be more than 0")
    {
      value := parametersValue;
      failure := ValidateParameters();
    }

    method ValidateParameters() returns (failure: Option<Failure>)
      ensures failure.Some? <==> value < 1
      ensures failure.Some? ==> failure.value == IllegalArgumentException("value must be more than 0")
    {
      if value < 1 {
        return Some(IllegalArgumentException("value must be more than 0"));
      }
      return None;
    }

    /** `isValid`: a null number is invalid; otherwise count its digits and compare. */
    method IsValid(num: Option<int>) returns (valid: bool)
      ensures valid <==> HasDigits(num, value)
    {
      if num.None? {
        return false;
      }
      var number := num.value;
      var count := 0;
      while number != 0
        invariant count + DivisionsToZero(number) == DivisionsToZero(num.value)
        decreases Abs(number)
      {
        number := TruncDiv10(number);
        count := count + 1;
      }
      return count == value;
    }
  }

  /** Zero has no digits, so it never satisfies the constraint for an allowed value. */
  lemma ZeroNeverValid(value: int)
    requires value >= 1
    ensures !HasDigits(Some(0), value)
  {
  }

  /** With value 4, 2345 satisfies the constraint and 23 does not. */
  lemma FourDigitExamples()
    ensures HasDigits(Some(2345), 4)
    ensures !HasDigits(Some(23), 4)
    ensures !HasDigits(Some(-23), 4)
  {
    DigitsRange(2345, 4);
    DigitsRange(23, 4);
    DigitsRange(-23, 4);
  }

  /** A CVV satisfies `@NumberOfDigits(3)` exactly when its magnitude is 100..999. */
  lemma ThreeDigits(n: int)
    ensures HasDigits(Some(n), 3) <==> 100 <= Abs(n) <= 999
  {
    DigitsRange(n, 3);
  }
}
