/**
 * `CreditCard`: an immutable card record, the constraints declared on its
 * fields as one function from a card to its set of violations, and
 * `hasExpired`.
 */
module Cards {
  import opened Wrappers
  import opened Decimal
  import opened CardNumbers
  import opened Constraints
  import opened NumberOfDigits

  /** A `java.util.Date`, as milliseconds since the epoch. */
  type Date = int

  /** The five public final fields; every one of them may be null. */
  datatype CreditCard = CreditCard(
    number: Option<string>,
    holderName: Option<string>,
    issuingBank: Option<string>,
    validUntil: Option<Date>,
    cvv: Option<int>)

  const NumberRequired: string := "Card number is required"
  const NumberLength: string := "length must be between 16 and 19"
  const InvalidCardNumber: string := "Invalid Credit Card Number"
  const FailedLuhn: string := "Failed Luhn check!"
  const HolderRequired: string := "is required"
  const BankRequired: string := "name is required"
  const ExpiryRequired: string := "Expiry Date is mandatory!"
  const CvvRequired: string := "is mandatory!"
  const CvvDigits: string := "must have 3 digits"

  /** The violation a failed constraint reports, or none when it holds. */
  function Check(holds: bool, path: string, message: string): (vs: set<Violation>)
    ensures holds <==> vs == {}
    ensures !holds ==> vs == {Violation(path, message)}
  {
    if holds then {} else {Violation(path, message)}
  }

  /** `number`: `@NotBlank`, `@Length(min = 16, max = 19)`, `@CreditCardNumber` and `@LuhnCheck`. */
  function NumberViolations(number: Option<string>): (vs: set<Violation>)
    ensures forall v :: v in vs ==> v.path == "number"
    ensures Violation("number", NumberRequired) in vs <==> !NotBlank(number)
    ensures Violation("number", NumberLength) in vs <==> !LengthBetween(number, 16, 19)
    ensures Violation("number", InvalidCardNumber) in vs <==> !LuhnCheck(number)
    ensures Violation("number", FailedLuhn) in vs <==> !LuhnCheck(number)
  {
    Check(NotBlank(number), "number", NumberRequired)
    + Check(LengthBetween(number, 16, 19), "number", NumberLength)
    + Check(LuhnCheck(number), "number", InvalidCardNumber)
    + Check(LuhnCheck(number), "number", FailedLuhn)
  }

  /** `cvv`: `@NotNull` and `@NumberOfDigits(value = 3)`; the latter also rejects null. */
  function CvvViolations(cvv: Option<int>): (vs: set<Violation>)
    ensures forall v :: v in vs ==> v.path == "cvv"
    ensures Violation("cvv", CvvRequired) in vs <==> cvv.None?
    ensures Violation("cvv", CvvDigits) in vs <==> !HasDigits(cvv, 3)
  {
    Check(cvv.Some?, "cvv", CvvRequired) + Check(HasDigits(cvv, 3), "cvv", CvvDigits)
  }

  /**
   * Every constraint on every field is checked; the violations of the
   * fields accumulate, none stops the others.
   */
  function CardViolations(card: CreditCard): set<Violation> {
    NumberViolations(card.number)
    + Check(NotBlank(card.holderName), "holderName", HolderRequired)
    + Check(NotBlank(card.issuingBank), "issuingBank", BankRequired)
    + Check(card.validUntil.Some?, "validUntil", ExpiryRequired)
    + CvvViolations(card.cvv)
  }

  /**
   * The violations of each field depend on that field alone: every violation
   * a card reports under a field's path is one of that field's own, and all
   * of them are reported.
   */
  lemma FieldViolations(card: CreditCard, v: Violation)
    requires v in CardViolations(card)
    ensures v.path in {"number", "holderName", "issuingBank", "validUntil", "cvv"}
    ensures v.path == "number" ==> v in NumberViolations(card.number)
    ensures v.path == "holderName" ==> v == Violation("holderName", HolderRequired) && !NotBlank(card.holderName)
    ensures v.path == "issuingBank" ==> v == Violation("issuingBank", BankRequired) && !NotBlank(card.issuingBank)
    ensures v.path == "validUntil" ==> v == Violation("validUntil", ExpiryRequired) && card.validUntil.None?
    ensures v.path == "cvv" ==> v in CvvViolations(card.cvv)
  {
    if v !in NumberViolations(card.number) && v !in CvvViolations(card.cvv) {
      assert v in Check(NotBlank(card.holderName), "holderName", HolderRequired)
                + Check(NotBlank(card.issuingBank), "issuingBank", BankRequired)
                + Check(card.validUntil.Some?, "validUntil", ExpiryRequired);
    }
  }

  /** No field's violations are lost when the fields are checked together. */
  lemma ViolationsAccumulate(card: CreditCard)
    ensures NumberViolations(card.number) <= CardViolations(card)
    ensures CvvViolations(card.cvv) <= CardViolations(card)
    ensures !NotBlank(card.holderName) ==> Violation("holderName", HolderRequired) in CardViolations(card)
    ensures !NotBlank(card.issuingBank) ==> Violation("issuingBank", BankRequired) in CardViolations(card)
    ensures card.validUntil.None? ==> Violation("validUntil", ExpiryRequired) in CardViolations(card)
  {
  }

  /** A card has no violation exactly when each of its fields meets all its constraints. */
  lemma NoViolationsIffValid(card: CreditCard)
    ensures CardViolations(card) == {}
        <==> NotBlank(card.number) && LengthBetween(card.number, 16, 19) && LuhnCheck(card.number)
             && NotBlank(card.holderName) && NotBlank(card.issuingBank)
             && card.validUntil.Some? && HasDigits(card.cvv, 3)
  {
    if CardViolations(card) == {} {
      assert NumberViolations(card.number) == {};
      assert CvvViolations(card.cvv) == {};
    }
  }

  /**
   * `hasExpired` as written: `validUntil.after(new Date())`, true when the
   * expiry date is strictly later than now. A null expiry date throws.
   */
  function HasExpiredAsWritten(card: CreditCard, now: Date): (r: Result<bool, Failure>)
    ensures card.validUntil.None? <==> r == Err(NullPointerException)
    ensures r.Ok? ==> (r.value <==> card.validUntil.value > now)
  {
    match card.validUntil
    case None => Err(NullPointerException)
    case Some(validUntil) => Ok(validUntil > now)
  }

  /** `hasExpired` as its callers and tests expect it: the expiry date is already past. */
  function HasExpired(card: CreditCard, now: Date): (r: Result<bool, Failure>)
    ensures card.validUntil.None? <==> r == Err(NullPointerException)
    ensures r.Ok? ==> (r.value <==> card.validUntil.value < now)
  {
    match card.validUntil
    case None => Err(NullPointerException)
    case Some(validUntil) => Ok(now > validUntil)
  }

  /**
   * As written, a card whose expiry date lies in the future counts as expired,
   * and one whose expiry date lies in the past does not.
   */
  lemma HasExpiredIsInverted(card: CreditCard, now: Date)
    requires card.validUntil.Some? && card.validUntil.value != now
    ensures HasExpiredAsWritten(card, now) == Ok(!HasExpired(card, now).value)
    ensures card.validUntil.value > now ==> HasExpiredAsWritten(card, now) == Ok(true)
  {
  }
}
