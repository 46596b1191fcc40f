/**
 * `StubbedDelayVerificationService`: answers a fraud check from the stub
 * registered under "/check" after a settable delay. The delay itself
 * (`Thread.sleep`) is not modelled; the field that holds it is.
 *
 * `CreditCard` does not override `equals`, so comparing the stub's card
 * with the requested one compares object identities. Objects whose identity
 * matters are therefore modelled as a `Ref`: an identity and the contents.
 */
module StubbedService {
  import opened Wrappers
  import opened Cards
  import opened Monetary
  import opened Fraud
  import opened StubTable

  /**
   * A Java object: its identity and its contents. One object has one content,
   * so two references with the same identity hold the same value.
   */
  datatype Ref<T> = Ref(identity: nat, value: T)

  /** The request half of a stub: a card and a charge, each of which may be null. */
  datatype FraudCheckRequest = FraudCheckRequest(creditCard: Option<Ref<CreditCard>>, charge: Option<Ref<Money>>)

  /** `FraudCheckStub`: a request (possibly null) and the response to give for it. */
  datatype FraudCheckStub = FraudCheckStub(request: Option<FraudCheckRequest>, response: FraudStatus)

  const CheckUrl: string := "/check"
  const NoMatchingStub: string := "No Matching Stub Found for the given request!"

  /**
   * `Money.equals` called on the stub's charge with the requested charge:
   * the same object is equal to itself, another object is compared by value.
   */
  function ChargeEquals(stubCharge: Ref<Money>, charge: Ref<Money>): Result<bool, Failure> {
    Equals(stubCharge.value, if stubCharge.identity == charge.identity then Same else Distinct(charge.value))
  }

  /**
   * The filter as written: `creditCard.equals(card) && charge.equals(charge)`
   * on the stub's request, with `Object.equals` for the card. A null request,
   * card or charge on the stub's side throws.
   */
  function MatchesAsWritten(stub: FraudCheckStub, card: Ref<CreditCard>, charge: Ref<Money>): (r: Result<bool, Failure>)
    ensures r == Ok(true) <==> stub.request.Some? && stub.request.value.creditCard.Some?
                               && stub.request.value.creditCard.value.identity == card.identity
                               && stub.request.value.charge.Some?
                               && ChargeEquals(stub.request.value.charge.value, charge) == Ok(true)
    ensures stub.request.Some? && stub.request.value.creditCard.Some?
            && stub.request.value.creditCard.value.identity != card.identity
        ==> r == Ok(false)
    ensures stub.request.None? || stub.request.value.creditCard.None? ==> r == Err(NullPointerException)
    ensures stub.request.Some? && stub.request.value.creditCard.Some?
            && stub.request.value.creditCard.value.identity == card.identity
            && stub.request.value.charge.None?
        ==> r == Err(NullPointerException)
    ensures r.Err? ==> r.error.NullPointerException?
  {
    match stub.request
    case None => Err(NullPointerException)
    case Some(request) =>
      match request.creditCard
      case None => Err(NullPointerException)
      case Some(stubCard) =>
        if stubCard.identity != card.identity then Ok(false)
        else
          match request.charge
          case None => Err(NullPointerException)
          case Some(stubCharge) => ChargeEquals(stubCharge, charge)
  }

  /** The filter as evidently intended: the stub's card and the requested card hold the same values. */
  function Matches(stub: FraudCheckStub, card: Ref<CreditCard>, charge: Ref<Money>): (r: Result<bool, Failure>)
    ensures r == Ok(true) <==> stub.request.Some? && stub.request.value.creditCard.Some?
                               && stub.request.value.creditCard.value.value == card.value
                               && stub.request.value.charge.Some?
                               && ChargeEquals(stub.request.value.charge.value, charge) == Ok(true)
    ensures stub.request.Some? && stub.request.value.creditCard.Some?
            && stub.request.value.creditCard.value.value != card.value
        ==> r == Ok(false)
    ensures stub.request.None? || stub.request.value.creditCard.None? ==> r == Err(NullPointerException)
    ensures stub.request.Some? && stub.request.value.creditCard.Some?
            && stub.request.value.creditCard.value.value == card.value
            && stub.request.value.charge.None?
        ==> r == Err(NullPointerException)
    ensures r.Err? ==> r.error.NullPointerException?
  {
    match stub.request
    case None => Err(NullPointerException)
    case Some(request) =>
      match request.creditCard
      case None => Err(NullPointerException)
      case Some(stubCard) =>
        if stubCard.value != card.value then Ok(false)
        else
          match request.charge
          case None => Err(NullPointerException)
          case Some(stubCharge) => ChargeEquals(stubCharge, charge)
  }

  /**
   * `verifyTransactionAuthenticity` over a stub table, with a given matching
   * rule: the "/check" stub's response if it matches, and otherwise a
   * `RuntimeException`; an exception thrown by the matching rule passes through.
   */
  function Answer(table: map<string, Option<FraudCheckStub>>, matching: Result<bool, Failure>): Result<FraudStatus, Failure>
    requires Lookup(table, CheckUrl).Some?
  {
    match matching
    case Err(e) => Err(e)
    case Ok(matched) =>
      if matched then Ok(Lookup(table, CheckUrl).value.response) else Err(RuntimeException(NoMatchingStub))
  }

  /** `verifyTransactionAuthenticity` as written. */
  function VerifyAsWritten(table: map<string, Option<FraudCheckStub>>, card: Ref<CreditCard>, charge: Ref<Money>): (r: Result<FraudStatus, Failure>)
    ensures Lookup(table, CheckUrl).None? ==> r == Err(RuntimeException(NoMatchingStub))
    ensures Lookup(table, CheckUrl).Some? && MatchesAsWritten(Lookup(table, CheckUrl).value, card, charge) == Ok(true)
        ==> r == Ok(Lookup(table, CheckUrl).value.response)
    ensures Lookup(table, CheckUrl).Some? && MatchesAsWritten(Lookup(table, CheckUrl).value, card, charge) == Ok(false)
        ==> r == Err(RuntimeException(NoMatchingStub))
    ensures Lookup(table, CheckUrl).Some? && MatchesAsWritten(Lookup(table, CheckUrl).value, card, charge).Err?
        ==> r == Err(MatchesAsWritten(Lookup(table, CheckUrl).value, card, charge).error)
    ensures r.Ok? ==> Lookup(table, CheckUrl).Some?
                      && MatchesAsWritten(Lookup(table, CheckUrl).value, card, charge) == Ok(true)
                      && r.value == Lookup(table, CheckUrl).value.response
  {
    match Lookup(table, CheckUrl)
    case None => Err(RuntimeException(NoMatchingStub))
    case Some(stub) => Answer(table, MatchesAsWritten(stub, card, charge))
  }

  /** `verifyTransactionAuthenticity` with the card compared by value. */
  function Verify(table: map<string, Option<FraudCheckStub>>, card: Ref<CreditCard>, charge: Ref<Money>): (r: Result<FraudStatus, Failure>)
    ensures Lookup(table, CheckUrl).None? ==> r == Err(RuntimeException(NoMatchingStub))
    ensures Lookup(table, CheckUrl).Some? && Matches(Lookup(table, CheckUrl).value, card, charge) == Ok(true)
        ==> r == Ok(Lookup(table, CheckUrl).value.response)
    ensures Lookup(table, CheckUrl).Some? && Matches(Lookup(table, CheckUrl).value, card, charge) == Ok(false)
        ==> r == Err(RuntimeException(NoMatchingStub))
    ensures Lookup(table, CheckUrl).Some? && Matches(Lookup(table, CheckUrl).value, card, charge).Err?
        ==> r == Err(Matches(Lookup(table, CheckUrl).value, card, charge).error)
    ensures r.Ok? ==> Lookup(table, CheckUrl).Some?
                      && Matches(Lookup(table, CheckUrl).value, card, charge) == Ok(true)
                      && r.value == Lookup(table, CheckUrl).value.response
  {
    match Lookup(table, CheckUrl)
    case None => Err(RuntimeException(NoMatchingStub))
    case Some(stub) => Answer(table, Matches(stub, card, charge))
  }

  /**
   * A stub whose request holds the requested card and charge, both complete,
   * gives its response back unchanged; a different card or charge gives the
   * "no matching stub" error.
   */
  lemma VerifyAgainstStub(table: map<string, Option<FraudCheckStub>>, stubCard: Ref<CreditCard>, stubCharge: Ref<Money>,
                          card: Ref<CreditCard>, charge: Ref<Money>)
    requires Lookup(table, CheckUrl).Some?
    requires Lookup(table, CheckUrl).value.request == Some(FraudCheckRequest(Some(stubCard), Some(stubCharge)))
    requires stubCharge.value.currency.Some? && stubCharge.value.amount.Some?
    requires stubCharge.identity == charge.identity ==> stubCharge.value == charge.value
    ensures stubCard.value == card.value && stubCharge.value == charge.value
        ==> Verify(table, card, charge) == Ok(Lookup(table, CheckUrl).value.response)
    ensures stubCard.value != card.value || stubCharge.value != charge.value
        ==> Verify(table, card, charge) == Err(RuntimeException(NoMatchingStub))
  {
    if stubCard.value == card.value && stubCharge.identity != charge.identity {
      assert ChargeEquals(stubCharge, charge) == Ok(stubCharge.value == charge.value);
    }
    if stubCard.value == card.value && stubCharge.value != charge.value {
      assert stubCharge.identity != charge.identity;
    }
  }

  /** Only the "/check" entry is consulted: tables that agree on it give the same answers. */
  lemma OnlyCheckEntryConsulted(table: map<string, Option<FraudCheckStub>>, other: map<string, Option<FraudCheckStub>>,
                                card: Ref<CreditCard>, charge: Ref<Money>)
    requires Lookup(table, CheckUrl) == Lookup(other, CheckUrl)
    ensures Verify(table, card, charge) == Verify(other, card, charge)
    ensures VerifyAsWritten(table, card, charge) == VerifyAsWritten(other, card, charge)
  {
  }

  /**
   * As written, a stub never answers a request whose card is another object
   * than the stub's, whatever the card holds. Every request body is a newly
   * read object, so the stub never answers, while matching by value does.
   */
  lemma NewCardObjectNeverMatches(table: map<string, Option<FraudCheckStub>>, stubCard: Ref<CreditCard>, stubCharge: Ref<Money>,
                                  card: Ref<CreditCard>, charge: Ref<Money>)
    requires Lookup(table, CheckUrl).Some?
    requires Lookup(table, CheckUrl).value.request == Some(FraudCheckRequest(Some(stubCard), Some(stubCharge)))
    requires stubCard.identity != card.identity
    ensures VerifyAsWritten(table, card, charge) == Err(RuntimeException(NoMatchingStub))
    ensures stubCard.value == card.value && stubCharge.value == charge.value
            && charge.value.currency.Some? && charge.value.amount.Some?
        ==> Verify(table, card, charge) == Ok(Lookup(table, CheckUrl).value.response)
  {
    if stubCard.value == card.value && stubCharge.value == charge.value
       && charge.value.currency.Some? && charge.value.amount.Some? {
      VerifyAgainstStub(table, stubCard, stubCharge, card, charge);
    }
  }

  class StubbedDelayVerificationService {
    const stubs: Stubs<FraudCheckStub>
    var timeInMillis: Int32

    constructor(stubs: Stubs<FraudCheckStub>)
      ensures this.stubs == stubs && timeInMillis == 0
    {
      this.stubs := stubs;
      timeInMillis := 0;
    }

    /** `setDelay`: sets the delay and nothing else. */
    method SetDelay(timeInMillis: Int32)
      modifies this
      ensures this.timeInMillis == timeInMillis
      ensures stubs.stubbedResponses == old(stubs.stubbedResponses)
    {
      this.timeInMillis := timeInMillis;
    }

    /**
     * `verifyTransactionAuthenticity` as written: it reads the stub table and
     * changes nothing. It answers only for the very card object the "/check"
     * stub holds, and then with that stub's response.
     */
    function VerifyTransactionAuthenticity(card: Ref<CreditCard>, charge: Ref<Money>): (r: Result<FraudStatus, Failure>)
      reads stubs
      ensures r == VerifyAsWritten(stubs.stubbedResponses, card, charge)
      ensures r.Ok? ==> var stub := Lookup(stubs.stubbedResponses, CheckUrl);
                        stub.Some? && r.value == stub.value.response
                        && stub.value.request.Some? && stub.value.request.value.creditCard.Some?
                        && stub.value.request.value.creditCard.value.identity == card.identity
    {
      VerifyAsWritten(stubs.stubbedResponses, card, charge)
    }
  }
}
