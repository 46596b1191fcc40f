/**
 * `FraudCheckPayload`: the request body of a fraud check, a card and a
 * charge, each `@NotNull` and `@Valid`, so that their own violations are
 * reported under the field's name as a path prefix.
 */
module Payload {
  import opened Wrappers
  import opened Constraints
  import opened Cards
  import opened Monetary

  datatype FraudCheckPayload = FraudCheckPayload(creditCard: Option<CreditCard>, charge: Option<Money>)

  const CardRequired: string := "Require Credit Card Details!"
  const ChargeRequired: string := "amount must be supplied!"

  /** A cascaded violation: the outer field's name, a dot, then the inner path. */
  function Nested(field: string, v: Violation): Violation {
    Violation(field + "." + v.path, v.message)
  }

  /** Nesting under a field keeps violations apart: it loses none of them. */
  lemma NestedInjective(field: string, v: Violation, w: Violation)
    ensures Nested(field, v) == Nested(field, w) <==> v == w
  {
    if Nested(field, v) == Nested(field, w) {
      var n := |field| + 1;
      assert v.path == (field + "." + v.path)[n..];
      assert w.path == (field + "." + w.path)[n..];
    }
  }

  /** The violations of a nested object, reported under the field's name. */
  function NestedAll(field: string, vs: set<Violation>): (nested: set<Violation>)
    ensures forall v :: v in vs ==> Nested(field, v) in nested
    ensures forall u :: u in nested ==> exists v :: v in vs && u == Nested(field, v)
  {
    set v | v in vs :: Nested(field, v)
  }

  /** Nesting a set of violations keeps its size: distinct violations stay distinct. */
  lemma {:induction false} NestedAllSize(field: string, vs: set<Violation>)
    ensures |NestedAll(field, vs)| == |vs|
    decreases |vs|
  {
    if vs != {} {
      var v :| v in vs;
      var rest := vs - {v};
      NestedAllSize(field, rest);
      assert NestedAll(field, vs) == NestedAll(field, rest) + {Nested(field, v)};
      if Nested(field, v) in NestedAll(field, rest) {
        var w :| w in rest && Nested(field, v) == Nested(field, w);
        NestedInjective(field, v, w);
      }
    }
  }

  /**
   * The violations of a payload: a null card or charge is reported once under
   * its own name and is not looked into; otherwise its own violations are
   * reported under `creditCard.` or `charge.`.
   */
  function PayloadViolations(p: FraudCheckPayload): set<Violation> {
    (match p.creditCard
     case None => {Violation("creditCard", CardRequired)}
     case Some(card) => NestedAll("creditCard", CardViolations(card)))
    + (match p.charge
       case None => {Violation("charge", ChargeRequired)}
       case Some(charge) => NestedAll("charge", MoneyViolations(charge)))
  }

  /** A null card gives one violation under `creditCard`, with nothing nested under it. */
  lemma NullCardViolations(charge: Money)
    requires charge.currency.Some? && charge.amount.Some?
    ensures PayloadViolations(FraudCheckPayload(None, Some(charge))) == {Violation("creditCard", CardRequired)}
  {
    assert MoneyViolations(charge) == {};
  }

  /** A null charge gives one violation under `charge`, next to the card's own. */
  lemma NullChargeViolations(card: CreditCard)
    ensures PayloadViolations(FraudCheckPayload(Some(card), None))
         == NestedAll("creditCard", CardViolations(card)) + {Violation("charge", ChargeRequired)}
  {
  }

  /** With a complete charge, the payload reports exactly the card's violations, nested. */
  lemma CardViolationsNested(card: CreditCard, charge: Money)
    requires charge.currency.Some? && charge.amount.Some?
    ensures PayloadViolations(FraudCheckPayload(Some(card), Some(charge)))
         == NestedAll("creditCard", CardViolations(card))
    ensures |PayloadViolations(FraudCheckPayload(Some(card), Some(charge)))| == |CardViolations(card)|
  {
    assert MoneyViolations(charge) == {};
    NestedAllSize("creditCard", CardViolations(card));
  }

  /** With a card that has no violation, the payload reports the charge's violations, nested. */
  lemma ChargeViolationsNested(card: CreditCard, charge: Money)
    requires CardViolations(card) == {}
    ensures PayloadViolations(FraudCheckPayload(Some(card), Some(charge)))
         == NestedAll("charge", MoneyViolations(charge))
  {
    assert NestedAll("creditCard", CardViolations(card)) == {};
  }

  lemma NestedSingleton(field: string, v: Violation)
    ensures NestedAll(field, {v}) == {Nested(field, v)}
  {
  }

  lemma NestedPath(field: string, path: string, message: string)
    ensures Nested(field, Violation(path, message)) == Violation(field + "." + path, message)
  {
  }

  lemma OnlyAmountMissing(charge: Money)
    requires charge.amount.None? && charge.currency.Some?
    ensures MoneyViolations(charge) == {Violation("amount", "is required!")}
  {
  }

  lemma OnlyCurrencyMissing(charge: Money)
    requires charge.currency.None? && charge.amount.Some?
    ensures MoneyViolations(charge) == {Violation("currency", "is required!")}
  {
  }

  lemma ChargeAmountPath()
    ensures "charge" + "." + "amount" == "charge.amount"
  {
  }

  lemma ChargeCurrencyPath()
    ensures "charge" + "." + "currency" == "charge.currency"
  {
  }

  /** A charge without an amount is reported as `charge.amount`. */
  lemma MissingAmountViolations(card: CreditCard, charge: Money)
    requires CardViolations(card) == {}
    requires charge.amount.None? && charge.currency.Some?
    ensures PayloadViolations(FraudCheckPayload(Some(card), Some(charge)))
         == {Violation("charge.amount", "is required!")}
  {
    var v := Violation("amount", "is required!");
    assert MoneyViolations(charge) == {v} by { OnlyAmountMissing(charge); }
    ChargeViolationsNested(card, charge);
    NestedSingleton("charge", v);
    NestedPath("charge", "amount", "is required!");
    ChargeAmountPath();
  }

  /** A charge without a currency is reported as `charge.currency`. */
  lemma MissingCurrencyViolations(card: CreditCard, charge: Money)
    requires CardViolations(card) == {}
    requires charge.currency.None? && charge.amount.Some?
    ensures PayloadViolations(FraudCheckPayload(Some(card), Some(charge)))
         == {Violation("charge.currency", "is required!")}
  {
    var v := Violation("currency", "is required!");
    assert MoneyViolations(charge) == {v} by { OnlyCurrencyMissing(charge); }
    ChargeViolationsNested(card, charge);
    NestedSingleton("charge", v);
    NestedPath("charge", "currency", "is required!");
    ChargeCurrencyPath();
  }

  /** A payload has no violation exactly when both parts are present and have none. */
  lemma ValidPayload(p: FraudCheckPayload)
    ensures PayloadViolations(p) == {}
        <==> p.creditCard.Some? && CardViolations(p.creditCard.value) == {}
             && p.charge.Some? && p.charge.value.currency.Some? && p.charge.value.amount.Some?
  {
    if p.creditCard.Some? && CardViolations(p.creditCard.value) != {} {
      var v :| v in CardViolations(p.creditCard.value);
      assert Nested("creditCard", v) in PayloadViolations(p);
    }
    if p.charge.Some? && MoneyViolations(p.charge.value) != {} {
      var v :| v in MoneyViolations(p.charge.value);
      assert Nested("charge", v) in PayloadViolations(p);
    }
  }
}
