/**
 * `FraudStatus`: the verdict of a fraud check, built from a CVV code, an
 * address-verification (AVS) code and whether the card has expired.
 */
module Fraud {

  const Pass: string := "pass"
  const Fail: string := "fail"
  const IncorrectAddress: string := "incorrect address"
  const Suspicious: string := "suspicious"

  /** The status strings indexed by the CVV code: 0 is a match, 1 a mismatch. */
  const CvvStatuses: seq<string> := [Pass, Fail]

  /** The status strings indexed by the AVS code: 0 is a match, 1 a wrong address. */
  const AvStatuses: seq<string> := [Pass, IncorrectAddress]

  /** The three public final fields of a `FraudStatus`. */
  datatype FraudStatus = FraudStatus(cvvStatus: string, avStatus: string, overall: string)

  /**
   * `computeOverallStatus`: an expired card or a CVV mismatch fails; otherwise
   * a wrong address with a matching CVV is suspicious; otherwise the check passes.
   */
  function ComputeOverallStatus(cvvStatus: string, avStatus: string, isExpired: bool): (overall: string)
    ensures overall == Pass || overall == Fail || overall == Suspicious
    ensures isExpired ==> overall == Fail
    ensures overall == Suspicious ==> !isExpired && avStatus == IncorrectAddress
  {
    if isExpired || cvvStatus == Fail then Fail
    else if avStatus == IncorrectAddress && cvvStatus == Pass then Suspicious
    else Pass
  }

  /**
   * The constructor `FraudStatus(cvvStatusCode, avStatusCode, isExpired)`.
   * A code other than 0 or 1 indexes outside the status arrays, so both codes
   * must be 0 or 1. The contract is the full decision table over the eight
   * combinations of the inputs.
   */
  function NewFraudStatus(cvvStatusCode: int, avStatusCode: int, isExpired: bool): (status: FraudStatus)
    requires 0 <= cvvStatusCode < |CvvStatuses| && 0 <= avStatusCode < |AvStatuses|
    ensures status.cvvStatus == (if cvvStatusCode == 0 then Pass else Fail)
    ensures status.avStatus == (if avStatusCode == 0 then Pass else IncorrectAddress)
    ensures status.overall == Fail <==> isExpired || cvvStatusCode == 1
    ensures status.overall == Suspicious <==> !isExpired && cvvStatusCode == 0 && avStatusCode == 1
    ensures status.overall == Pass <==> !isExpired && cvvStatusCode == 0 && avStatusCode == 0
  {
    var cvvStatus := CvvStatuses[cvvStatusCode];
    var avStatus := AvStatuses[avStatusCode];
    FraudStatus(cvvStatus, avStatus, ComputeOverallStatus(cvvStatus, avStatus, isExpired))
  }
}
