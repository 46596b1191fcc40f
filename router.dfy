/**
 * `VerificationServiceRouter`: sends each fraud check either to the real
 * verification service or to the stubbed one, as its public `routeTo` field
 * says, and the setup endpoint that flips that field.
 *
 * The real service (`DefaultVerificationService`) is not part of this model:
 * its answer is a parameter.
 */
module Router {
  import opened Wrappers
  import opened Cards
  import opened Monetary
  import opened Fraud
  import opened StubTable
  import opened StubbedService

  datatype RouteTo = Actual | Stub

  /** A verification service: the fraud status for a card and a charge, or the exception it throws. */
  type Service = (Ref<CreditCard>, Ref<Money>) -> Result<FraudStatus, Failure>

  class VerificationServiceRouter {
    const stubbedDelayVerificationService: StubbedDelayVerificationService
    var routeTo: RouteTo

    /** A new router sends checks to the real service. */
    constructor(stubbedDelayVerificationService: StubbedDelayVerificationService)
      ensures this.stubbedDelayVerificationService == stubbedDelayVerificationService
      ensures routeTo == Actual
    {
      this.stubbedDelayVerificationService := stubbedDelayVerificationService;
      routeTo := Actual;
    }

    /**
     * `verifyTransactionAuthenticity`: the answer of exactly one of the two
     * services, the one `routeTo` names. It reads the route and changes nothing.
     */
    function VerifyTransactionAuthenticity(defaultVerificationService: Service, card: Ref<CreditCard>, charge: Ref<Money>): (r: Result<FraudStatus, Failure>)
      reads this, stubbedDelayVerificationService.stubs
      ensures routeTo == Actual ==> r == defaultVerificationService(card, charge)
      ensures routeTo == Stub ==> r == stubbedDelayVerificationService.VerifyTransactionAuthenticity(card, charge)
    {
      if routeTo == Actual then defaultVerificationService(card, charge)
      else stubbedDelayVerificationService.VerifyTransactionAuthenticity(card, charge)
    }
  }

  /** The setup endpoint `/stubbingFor/check?on=…`: on routes to the stub, off to the real service. */
  method TurnStubbingForFraudCheck(router: VerificationServiceRouter, isEnabled: bool)
    modifies router
    ensures router.routeTo == (if isEnabled then Stub else Actual)
  {
    if isEnabled {
      router.routeTo := Stub;
    } else {
      router.routeTo := Actual;
    }
  }

  /**
   * With stubbing on, a check is answered from the "/check" stub as the stubbed
   * service writes it, whatever the real service would say.
   */
  lemma StubRouteUsesStubTable(router: VerificationServiceRouter, defaultVerificationService: Service,
                               card: Ref<CreditCard>, charge: Ref<Money>)
    requires router.routeTo == Stub
    ensures router.VerifyTransactionAuthenticity(defaultVerificationService, card, charge)
         == VerifyAsWritten(router.stubbedDelayVerificationService.stubs.stubbedResponses, card, charge)
  {
  }

  /**
   * With stubbing on, a request whose card is another object than the stub's
   * card gets the "no matching stub" error, even when it holds the same card
   * details: the stub route never answers a card read from a request body.
   */
  lemma StubRouteRejectsOtherCardObjects(router: VerificationServiceRouter, defaultVerificationService: Service,
                                         stubCard: Ref<CreditCard>, stubCharge: Ref<Money>,
                                         card: Ref<CreditCard>, charge: Ref<Money>)
    requires router.routeTo == Stub
    requires Lookup(router.stubbedDelayVerificationService.stubs.stubbedResponses, CheckUrl).Some?
    requires Lookup(router.stubbedDelayVerificationService.stubs.stubbedResponses, CheckUrl).value.request
          == Some(FraudCheckRequest(Some(stubCard), Some(stubCharge)))
    requires stubCard.identity != card.identity
    ensures router.VerifyTransactionAuthenticity(defaultVerificationService, card, charge)
         == Err(RuntimeException(NoMatchingStub))
  {
    NewCardObjectNeverMatches(router.stubbedDelayVerificationService.stubs.stubbedResponses,
                              stubCard, stubCharge, card, charge);
  }
}
