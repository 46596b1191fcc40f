/**
 * `Money`: an immutable amount in a currency, with `add`, `equals`,
 * `hashCode` and the `@NotNull` constraints on its two fields.
 */
module Monetary {
  import opened Wrappers
  import opened Constraints

  /**
   * A `java.util.Currency`, by its ISO 4217 code. `Currency.getInstance`
   * hands out one instance per code, so comparing two currencies by
   * reference is comparing their codes.
   */
  type CurrencyCode = string

  /** A Java `int`. */
  type Int32 = x: int | -0x8000_0000 <= x < 0x8000_0000

  /** Both fields are final and may be null; the amount is a number, not an IEEE double. */
  datatype Money = Money(currency: Option<CurrencyCode>, amount: Option<real>)

  const CurrenciesDiffer: string := "For addition the currencies must be same!"

  /**
   * `add`: the currencies must be the same instance, or the call throws
   * `IllegalArgumentException`; a null `other` throws on reading its
   * currency, and a null amount throws when it is unboxed.
   */
  function Add(m: Money, other: Option<Money>): (r: Result<Money, Failure>)
    ensures other.Some? && m.currency != other.value.currency
        ==> r == Err(IllegalArgumentException(CurrenciesDiffer))
    ensures r.Ok? <==> other.Some? && m.currency == other.value.currency
                       && m.amount.Some? && other.value.amount.Some?
    ensures r.Ok? ==> r.value.currency == m.currency
                      && r.value.amount == Some(m.amount.value + other.value.amount.value)
    ensures r.Err? && !r.error.IllegalArgumentException? ==> r == Err(NullPointerException)
  {
    match other
    case None => Err(NullPointerException)
    case Some(that) =>
      if m.currency != that.currency then Err(IllegalArgumentException(CurrenciesDiffer))
      else if m.amount.None? || that.amount.None? then Err(NullPointerException)
      else Ok(Money(m.currency, Some(m.amount.value + that.amount.value)))
  }

  /** Adding in either order gives the same money, or fails in the same way. */
  lemma AddCommutes(a: Money, b: Money)
    ensures Add(a, Some(b)) == Add(b, Some(a))
  {
  }

  /** The argument of `equals`, by what the method tells apart. */
  datatype Other =
    | Null                  // `other == null`
    | OtherClass            // an object whose class is not `Money`
    | Same                  // this very object
    | Distinct(that: Money) // another `Money` object

  /**
   * `equals`: false for null and for other classes, true for the same
   * object, and otherwise the currencies (`Object.equals`, so the same
   * instance) and then the amounts (`Double.equals`) must be equal. A null
   * field of `this` throws when its `equals` is called.
   */
  function Equals(m: Money, other: Other): (r: Result<bool, Failure>)
    ensures other.Null? || other.OtherClass? ==> r == Ok(false)
    ensures other.Same? ==> r == Ok(true)
    ensures other.Distinct? && m.currency.Some? && m.amount.Some?
        ==> r == Ok(m.currency == other.that.currency && m.amount == other.that.amount)
    ensures r.Err? ==> other.Distinct? && r == Err(NullPointerException)
  {
    match other
    case Null => Ok(false)
    case OtherClass => Ok(false)
    case Same => Ok(true)
    case Distinct(that) =>
      if m.currency.None? then Err(NullPointerException)
      else if m.currency != that.currency then Ok(false)
      else if m.amount.None? then Err(NullPointerException)
      else Ok(m.amount == that.amount)
  }

  /** Between two moneys with both fields set, `equals` is reflexive, symmetric and transitive. */
  lemma EqualsIsEquivalence(a: Money, b: Money, c: Money)
    requires a.currency.Some? && a.amount.Some? && b.currency.Some? && b.amount.Some?
    ensures Equals(a, Distinct(a)) == Ok(true)
    ensures Equals(a, Distinct(b)) == Equals(b, Distinct(a))
    ensures Equals(a, Distinct(b)) == Ok(true) && Equals(b, Distinct(c)) == Ok(true)
        ==> Equals(a, Distinct(c)) == Ok(true)
  {
  }

  /** Java's `int` arithmetic: the value modulo 2^32, in the signed range. */
  function Wrap32(x: int): (w: Int32)
    ensures (w - x) % 0x1_0000_0000 == 0
  {
    (x + 0x8000_0000) % 0x1_0000_0000 - 0x8000_0000
  }

  /** Wrapping part of an `int` expression early does not change the wrapped result. */
  lemma Wrap32Linear(k: int, x: int, y: int)
    ensures Wrap32(k * Wrap32(x) + y) == Wrap32(k * x + y)
  {
    var w := Wrap32(x);
    var d := (w - x) / 0x1_0000_0000;
    assert w == x + d * 0x1_0000_0000;
    assert k * w + y == (k * x + y) + (k * d) * 0x1_0000_0000;
    ShiftByPeriod(k * x + y, k * d);
  }

  lemma ShiftByPeriod(x: int, n: int)
    ensures Wrap32(x + n * 0x1_0000_0000) == Wrap32(x)
  {
    var p := 0x1_0000_0000;
    assert (x + n * p + 0x8000_0000) % p == (x + 0x8000_0000) % p by {
      ModShift(x + 0x8000_0000, n, p);
    }
  }

  lemma ModShift(a: int, n: int, p: int)
    requires p > 0
    ensures (a + n * p) % p == a % p
  {
    var q, r := a / p, a % p;
    assert a + n * p == (q + n) * p + r by {
      assert a == q * p + r;
      assert (q + n) * p == q * p + n * p;
    }
    ModUnique(a + n * p, q + n, r, p);
  }

  /** Euclidean division leaves one remainder in [0, p). */
  lemma ModUnique(x: int, k: int, r: int, p: int)
    requires p > 0 && 0 <= r < p && x == k * p + r
    ensures x % p == r
  {
    var k', r' := x / p, x % p;
    assert x == k' * p + r';
    assert (k - k') * p == r' - r by {
      assert (k - k') * p == k * p - k' * p;
    }
    MultipleBound(k - k', p);
  }

  /** A non-zero multiple of p is at least p away from 0. */
  lemma MultipleBound(a: int, p: int)
    requires p > 0
    ensures a == 0 || a * p >= p || a * p <= -p
  {
    if a >= 1 {
      assert a * p == (a - 1) * p + p;
      assert (a - 1) * p >= 0;
    } else if a <= -1 {
      assert a * p == (a + 1) * p - p;
      assert (a + 1) * p <= 0;
    }
  }

  /**
   * `hashCode`: 3, then `97 * hash + currency.hashCode()`, then
   * `97 * hash + amount.hashCode()`, in `int` arithmetic. The hash codes of
   * the currency and of the amount are parameters; a null field throws.
   */
  function HashCode(m: Money, currencyHash: CurrencyCode -> Int32, amountHash: real -> Int32): (r: Result<Int32, Failure>)
    ensures r.Err? <==> m.currency.None? || m.amount.None?
    ensures r.Err? ==> r.error == NullPointerException
    ensures r.Ok? ==> r.value == Wrap32(97 * 97 * 3 + 97 * currencyHash(m.currency.value) + amountHash(m.amount.value))
  {
    if m.currency.None? || m.amount.None? then Err(NullPointerException)
    else
      var hash := 3;
      var hash := Wrap32(97 * hash + currencyHash(m.currency.value));
      var hash := Wrap32(97 * hash + amountHash(m.amount.value));
      assert hash == Wrap32(97 * 97 * 3 + 97 * currencyHash(m.currency.value) + amountHash(m.amount.value)) by {
        Wrap32Linear(97, 97 * 3 + currencyHash(m.currency.value), amountHash(m.amount.value));
      }
      Ok(hash)
  }

  /** Moneys that `equals` calls equal have equal hash codes. */
  lemma EqualMoneysHashEqually(a: Money, other: Other, currencyHash: CurrencyCode -> Int32, amountHash: real -> Int32)
    requires Equals(a, other) == Ok(true)
    ensures other.Distinct? ==> HashCode(a, currencyHash, amountHash) == HashCode(other.that, currencyHash, amountHash)
  {
  }

  /** `@NotNull(message = "is required!")` on both fields. */
  function MoneyViolations(m: Money): (vs: set<Violation>)
    ensures Violation("currency", "is required!") in vs <==> m.currency.None?
    ensures Violation("amount", "is required!") in vs <==> m.amount.None?
    ensures forall v :: v in vs ==> v.message == "is required!" && (v.path == "currency" || v.path == "amount")
  {
    (if m.currency.None? then {Violation("currency", "is required!")} else {})
    + (if m.amount.None? then {Violation("amount", "is required!")} else {})
  }
}
