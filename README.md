# Fraud checker service: a Dafny model of its core

The fraud checker service takes a payment request: a credit card, and a charge
given as an amount in a currency. It validates the request and answers with a
`FraudStatus`. This project models the service's core in Dafny and proves
properties of that model:

- **Fraud status.** `FraudStatus` (`Fraud`) turns a CVV code, an
  address-verification code and the expiry flag into a verdict. Its contract
  is the full decision table.
- **Domain records and their constraints.** Two records carry Bean Validation
  constraints:
  - `CreditCard` (`Cards`), which also has `hasExpired`;
  - `Money` (`Monetary`), which also has `add`, `equals` and `hashCode`.

  Each constraint is written out as a predicate (`Constraints`). A record's
  violations are a function from the record to a set of (path, message)
  pairs. The request body, `FraudCheckPayload` (`Payload`), nests the
  violations of its card and its charge under `creditCard.` and `charge.`.
- **The `@NumberOfDigits` validator** (`NumberOfDigits`). It is a class whose
  `isValid` loop counts decimal digits with Java's truncating division. It is
  proved to count the digits of the number's decimal rendering (`Decimal`).
- **The card-number helper `CreditCardNumberValidator`** (`CardNumbers`):
  - the Luhn checksum as the class computes it: reverse the digits, partition
    them by position, sum, and test the decimal rendering for a trailing "0";
  - the brand regular expression (`Patterns` is a small regular-expression
    matcher);
  - its `main`, which strips separators and then filters the sample list.

  The checksum is proved equal to the Luhn formula of ISO/IEC 7812-1. The
  regular expression is proved to accept exactly six brand shapes. `main` is
  proved to print only the seventh sample (`CardSamples`). The validation
  test cases of the web layer are proved as lemmas (`CardCases`).
- **The development-profile machinery**, modelled imperatively:
  - the `Stubs` table (`StubTable`);
  - the `StubbedDelayVerificationService` that answers from the "/check" stub
    (`StubbedService`). The service and the router use its matching as
    written, which compares cards by identity; matching by value is kept as
    the corrected half of a finding;
  - the `VerificationServiceRouter` and the endpoint that switches it
    (`Router`);
  - the append-only `ValidationErrorsResponse` and the exception handler that
    fills it (`Errors`).

## Model

| member | source | states |
|---|---|---|
| Fraud.ComputeOverallStatus | src/main/java/com/tsys/fraud_checker/domain/FraudStatus.java:69-77 | The overall status is one of pass, fail and suspicious. An expired card always fails. A suspicious verdict needs an unexpired card and a wrong address. |
| Fraud.NewFraudStatus | src/main/java/com/tsys/fraud_checker/domain/FraudStatus.java:42-67 | For codes 0 or 1, it gives the CVV and address strings the arrays hold. The overall status is fail iff expired or CVV mismatch, suspicious iff unexpired with matching CVV and wrong address, and pass iff everything matches. |
| Monetary.Add | src/main/java/com/tsys/fraud_checker/domain/Money.java:39-44 | The call succeeds iff the other money is present, in the same currency, and both amounts are set. The sum keeps the currency and adds the amounts. Different currencies throw IllegalArgumentException with the source's message; any other failure is a NullPointerException. |
| Monetary.AddCommutes | src/main/java/com/tsys/fraud_checker/domain/Money.java:39-44 | Adding in either order gives the same result, or the same exception. |
| Monetary.Equals | src/main/java/com/tsys/fraud_checker/domain/Money.java:51-65 | Null and other classes are unequal, and the same object is equal. Another complete money is equal iff currency and amount are equal. Only a null field of the receiver throws (NPE). |
| Monetary.EqualsIsEquivalence | src/main/java/com/tsys/fraud_checker/domain/Money.java:51-65 | On complete moneys, equals is reflexive, symmetric and transitive. |
| Monetary.Wrap32 | src/main/java/com/tsys/fraud_checker/domain/Money.java:69-72 | The result is a 32-bit int congruent to its argument modulo 2^32 (Java int overflow). |
| Monetary.Wrap32Linear | src/main/java/com/tsys/fraud_checker/domain/Money.java:70-71 | Wrapping the intermediate hash before `97 * hash + h` does not change the final wrapped value. |
| Monetary.HashCode | src/main/java/com/tsys/fraud_checker/domain/Money.java:67-73 | It throws NPE iff a field is null. Otherwise the value is (97·97·3 + 97·currencyHash + amountHash) wrapped to 32 bits. |
| Monetary.EqualMoneysHashEqually | src/main/java/com/tsys/fraud_checker/domain/Money.java:51-73 | Moneys that equals calls equal have equal hash codes. |
| Monetary.MoneyViolations | src/main/java/com/tsys/fraud_checker/domain/Money.java:17-27 | There is a "currency"/"amount" violation with message "is required!" exactly when that field is null, and no other violation. |
| NumberOfDigits.TruncDiv10 | src/main/java/com/tsys/fraud_checker/spring/validators/NumberOfDigitsValidator.java:33 | Java `/ 10` truncates toward zero: the quotient is bracketed from below for non-negative numbers and from above for negative ones. |
| NumberOfDigits.TruncDiv10Abs | src/main/java/com/tsys/fraud_checker/spring/validators/NumberOfDigitsValidator.java:33 | Truncating division drops the last digit of the magnitude. |
| NumberOfDigits.DivisionsCountDigits | src/main/java/com/tsys/fraud_checker/spring/validators/NumberOfDigitsValidator.java:30-35 | For a non-zero number, the loop runs once per digit of the magnitude's decimal rendering; for zero it runs 0 times. |
| NumberOfDigits.DigitsRange | src/main/java/com/tsys/fraud_checker/spring/validators/NumberOfDigitsValidator.java:30-37 | The count is k ≥ 1 iff 10^(k-1) ≤ \|n\| < 10^k. |
| NumberOfDigits.ZeroDigitsOnlyForZero | src/main/java/com/tsys/fraud_checker/spring/validators/NumberOfDigitsValidator.java:32-35 | The loop runs zero times iff the number is 0. |
| NumberOfDigits.NumberOfDigitsValidator.constructor | src/main/java/com/tsys/fraud_checker/spring/validators/NumberOfDigitsValidator.java:13 | A new validator holds value 0. |
| NumberOfDigits.NumberOfDigitsValidator.Initialize | src/main/java/com/tsys/fraud_checker/spring/validators/NumberOfDigitsValidator.java:15-18 | It stores the annotation's value, then fails with IllegalArgumentException("value must be more than 0") iff the value is below 1. |
| NumberOfDigits.NumberOfDigitsValidator.ValidateParameters | src/main/java/com/tsys/fraud_checker/spring/validators/NumberOfDigitsValidator.java:20-23 | It fails with the source's exception iff the value is below 1. |
| NumberOfDigits.NumberOfDigitsValidator.IsValid | src/main/java/com/tsys/fraud_checker/spring/validators/NumberOfDigitsValidator.java:26-38 | The loop's answer is true iff the number is non-null and its digit count equals value. |
| NumberOfDigits.ZeroNeverValid | src/main/java/com/tsys/fraud_checker/spring/validators/NumberOfDigitsValidator.java:32-37 | 0 never satisfies the constraint for an allowed value. |
| NumberOfDigits.FourDigitExamples | src/test/java/com/tsys/fraud_checker/spring/validators/NumberOfDigitsValidatorTest.java:28-40 | With value 4, 2345 passes, while 23 and -23 fail. |
| NumberOfDigits.ThreeDigits | src/main/java/com/tsys/fraud_checker/domain/CreditCard.java:46 | A CVV has 3 digits iff its magnitude is 100..999. |
| Decimal.DigitValue | src/test/java/com/tsys/fraud_checker/domain/CreditCardNumberValidator.java:88-91 | Parsing a digit character gives the digit that renders back as that character. |
| Decimal.Digits | src/test/java/com/tsys/fraud_checker/domain/CreditCardNumberValidator.java:83-86 | The parsed digits have the string's length and render back character by character. |
| Decimal.NatToDecimal | src/test/java/com/tsys/fraud_checker/domain/CreditCardNumberValidator.java:92 | `String.valueOf` of a non-negative int is a non-empty digit string with no leading zero, ending with the digit n % 10. |
| Decimal.DecimalRoundTrip | src/test/java/com/tsys/fraud_checker/domain/CreditCardNumberValidator.java:92 | Parsing the rendering gives back the number. |
| Decimal.DecimalLength | src/main/java/com/tsys/fraud_checker/spring/validators/NumberOfDigitsValidator.java:30-37 | The rendering of n has k characters with n < 10^k, and 10^(k-1) ≤ n for every n ≥ 1 (0 renders as the single character "0"). |
| Decimal.EndsWithZeroIffMultipleOfTen | src/test/java/com/tsys/fraud_checker/domain/CreditCardNumberValidator.java:92 | The rendering ends with "0" iff the number is a multiple of 10. |
| CardNumbers.Reverse | src/test/java/com/tsys/fraud_checker/domain/CreditCardNumberValidator.java:83 | The result has the same length, with element i taken from position \|s\|-1-i. |
| CardNumbers.RightmostNonDigit | src/test/java/com/tsys/fraud_checker/domain/CreditCardNumberValidator.java:83-86 | On a string with a non-digit, it is the position of a non-digit with only digits after it: the first character the reversed scan fails to parse, which the exception names. |
| CardNumbers.PartitionSumIsLuhnSum | src/test/java/com/tsys/fraud_checker/domain/CreditCardNumberValidator.java:84-91 | The source's s1 + s2 over the reversed digits equals the Luhn sum. |
| CardNumbers.LuhnTermIsFold | src/test/java/com/tsys/fraud_checker/domain/CreditCardNumberValidator.java:88-91 | Per position, the Luhn weight agrees with the source's `(x % 10) + 1` folding of doubled digits. |
| CardNumbers.ChecksumValidIffLuhn | src/test/java/com/tsys/fraud_checker/domain/CreditCardNumberValidator.java:82-93 | `IsChecksumValid` (the model of isChecksumValid) returns normally iff the string is all digits (otherwise NumberFormatException). The total is the Luhn sum, and the answer is true iff the Luhn formula holds. |
| CardNumbers.TotalIsLuhnSum | src/test/java/com/tsys/fraud_checker/domain/CreditCardNumberValidator.java:84-92 | On a digit string, the source's s1 + s2 is the Luhn sum, and its ends-with-"0" test is the Luhn test. |
| CardNumbers.EmptyPassesChecksum | src/test/java/com/tsys/fraud_checker/domain/CreditCardNumberValidator.java:82-93 | The empty string is accepted: its total 0 renders as "0". |
| CardNumbers.LuhnSumAppend | src/test/java/com/tsys/fraud_checker/domain/CreditCardNumberValidator.java:82-93 | Appending an even-length digit string adds its own Luhn sum. |
| CardNumbers.VisaPatternMeaning | src/test/java/com/tsys/fraud_checker/domain/CreditCardNumberValidator.java:14 | The Visa alternative accepts exactly 13 or 16 digits starting with 4. |
| CardNumbers.MasterCardPatternMeaning | src/test/java/com/tsys/fraud_checker/domain/CreditCardNumberValidator.java:15 | The MasterCard alternative accepts exactly 16 digits starting 51..55. |
| CardNumbers.DiscoverPatternMeaning | src/test/java/com/tsys/fraud_checker/domain/CreditCardNumberValidator.java:16 | The Discover alternative accepts exactly 16 digits starting 6011 or 65. |
| CardNumbers.AmexPatternMeaning | src/test/java/com/tsys/fraud_checker/domain/CreditCardNumberValidator.java:17 | The Amex alternative accepts exactly 15 digits starting 34 or 37. |
| CardNumbers.DinersPatternMeaning | src/test/java/com/tsys/fraud_checker/domain/CreditCardNumberValidator.java:18 | The Diners alternative accepts exactly 14 digits starting 300..305, 36 or 38, or 12 digits starting with 3, because the middle group is optional. |
| CardNumbers.JcbPatternMeaning | src/test/java/com/tsys/fraud_checker/domain/CreditCardNumberValidator.java:19 | The JCB alternative accepts exactly 15 digits starting 2131 or 1800, or 16 digits starting 35. |
| CardNumbers.FormatIsSomeBrand | src/test/java/com/tsys/fraud_checker/domain/CreditCardNumberValidator.java:14-19 | `IsValidCardNumberFormat`, the whole pattern, accepts a string iff it has the shape of one of the six brands. |
| CardNumbers.FormatShape | src/test/java/com/tsys/fraud_checker/domain/CreditCardNumberValidator.java:63-68 | Whatever isValidCardNumberFormat accepts is 12 to 16 digits whose first digit is 1..6. |
| CardNumbers.StripSeparators | src/test/java/com/tsys/fraud_checker/domain/CreditCardNumberValidator.java:110 | No separator is left, the result is no longer than the input, and a string without separators is unchanged. |
| CardNumbers.StripSeparatorsOfChar | src/test/java/com/tsys/fraud_checker/domain/CreditCardNumberValidator.java:110 | A hyphen, bar or space is removed, and any other character is kept; with StripSeparatorsAppend this pins the result down to the input with its separators deleted. |
| CardNumbers.StripSeparatorsAppend | src/test/java/com/tsys/fraud_checker/domain/CreditCardNumberValidator.java:110 | Stripping distributes over concatenation, so the kept characters stay in order. |
| CardNumbers.FilterMembers | src/test/java/com/tsys/fraud_checker/domain/CreditCardNumberValidator.java:111-112 | An element is kept iff it is in the input and the predicate accepts it. |
| CardNumbers.ValidCardsMeaning | src/test/java/com/tsys/fraud_checker/domain/CreditCardNumberValidator.java:109-117 | `ValidCards`, the list `main` prints, holds a card iff it is a stripped input card that passes the format and the checksum. |
| CardNumbers.PrintedCardsAreLuhnValid | src/test/java/com/tsys/fraud_checker/domain/CreditCardNumberValidator.java:109-117 | Every printed card is a 12-to-16-digit Luhn-valid string. |
| CardSamples.SeparatedSamplesStripped | src/test/java/com/tsys/fraud_checker/domain/CreditCardNumberValidator.java:96-110 | Stripping turns the three separated samples into their digit groups joined. |
| CardSamples.PlainSamplesStripped | src/test/java/com/tsys/fraud_checker/domain/CreditCardNumberValidator.java:96-110 | Samples 4 to 9 have no separators and are left unchanged. |
| CardSamples.ElevenDigitsRejected | src/test/java/com/tsys/fraud_checker/domain/CreditCardNumberValidator.java:14-19 | No 11-character string matches the pattern. |
| CardSamples.LeadingOneRejected | src/test/java/com/tsys/fraud_checker/domain/CreditCardNumberValidator.java:14-19 | No 16-character string starting with 1 matches. |
| CardSamples.FormatRejectsSamples | src/test/java/com/tsys/fraud_checker/domain/CreditCardNumberValidator.java:111 | The format filter rejects stripped samples 3, 4, 5, 6, 8 and 9. |
| CardSamples.FormatAcceptsSamples | src/test/java/com/tsys/fraud_checker/domain/CreditCardNumberValidator.java:111 | The format filter accepts stripped samples 1, 2 and 7. |
| CardSamples.FormatFilterOnSamples | src/test/java/com/tsys/fraud_checker/domain/CreditCardNumberValidator.java:110-111 | After stripping, the format filter leaves samples 1, 2 and 7, in order. |
| CardSamples.ChecksumFilterOnSamples | src/test/java/com/tsys/fraud_checker/domain/CreditCardNumberValidator.java:112 | Of these three, only the seventh passes isChecksumValid. |
| CardSamples.MainOutput | src/test/java/com/tsys/fraud_checker/domain/CreditCardNumberValidator.java:95-119 | main prints exactly one card: 4485284720134093. |
| Constraints.TrimEmptyIffBlank | src/main/java/com/tsys/fraud_checker/domain/CreditCard.java:22-32 | `NotBlank` (@NotBlank) fails iff trim leaves nothing, that is iff every character is at most U+0020. |
| Constraints.DigitsOnly | src/main/java/com/tsys/fraud_checker/domain/CreditCard.java:24-25 | Ignoring non-digits leaves an all-digit string no longer than the input. |
| Constraints.DigitsOnlyAppend | src/main/java/com/tsys/fraud_checker/domain/CreditCard.java:24-25 | Dropping non-digits distributes over concatenation. |
| Constraints.DigitsOnlyOfChar | src/main/java/com/tsys/fraud_checker/domain/CreditCard.java:24-25 | A non-digit is dropped and a digit is kept; with DigitsOnlyAppend this pins the result down to the input with its non-digits deleted. |
| Constraints.DigitsOnlyOfDigits | src/main/java/com/tsys/fraud_checker/domain/CreditCard.java:24-25 | A digit string has nothing to drop. |
| Constraints.LuhnCheckSplitsCheckDigit | src/main/java/com/tsys/fraud_checker/domain/CreditCard.java:24-25 | `LuhnCheck` (@CreditCardNumber and @LuhnCheck, ignoring non-digits) holds iff the value is null, or its last character is a digit and the digits before it, non-digits dropped, followed by that check digit satisfy the Luhn formula. A value ending in a separator fails. |
| Cards.NumberViolations | src/main/java/com/tsys/fraud_checker/domain/CreditCard.java:22-26 | Each of the four messages on `number` is reported iff its constraint fails: `NotBlank`, `LengthBetween` 16..19 (@Length, the raw length), and `LuhnCheck` for each of the two Luhn annotations. |
| Cards.CvvViolations | src/main/java/com/tsys/fraud_checker/domain/CreditCard.java:45-47 | "is mandatory!" is reported iff the CVV is null, and "must have 3 digits" iff it lacks exactly 3 digits (null included). |
| Cards.FieldViolations | src/main/java/com/tsys/fraud_checker/domain/CreditCard.java:22-47 | Every violation of a card is on one of the five fields, and is that field's own. |
| Cards.ViolationsAccumulate | src/main/java/com/tsys/fraud_checker/domain/CreditCard.java:22-47 | Every field's violations appear in the card's; none is lost when the fields are checked together. |
| Cards.NoViolationsIffValid | src/main/java/com/tsys/fraud_checker/domain/CreditCard.java:22-47 | `CardViolations` of a card is empty iff every field meets all its constraints. |
| Cards.HasExpiredAsWritten | src/main/java/com/tsys/fraud_checker/domain/CreditCard.java:74-77 | A null expiry throws NPE. Otherwise the answer is true iff the expiry is strictly after now. |
| Cards.HasExpired | src/main/java/com/tsys/fraud_checker/domain/CreditCard.java:74-77 | Corrected: a null expiry throws NPE. Otherwise the answer is true iff the expiry is before now. |
| Cards.HasExpiredIsInverted | src/test/java/com/tsys/fraud_checker/domain/CreditCardTest.java:15-31 | As written, the answer is the negation of the intended one for any expiry other than now. A future expiry counts as expired. |
| CardCases.ValidNumberPassesLuhn | src/test/java/com/tsys/fraud_checker/domain/CreditCardBuilder.java:35-38 | 4485-2847-2013-4093 passes @LuhnCheck. |
| CardCases.ValidNumberViolations | src/test/java/com/tsys/fraud_checker/domain/CreditCardBuilder.java:35-38 | The builder's valid number has no violation. |
| CardCases.ValidCardViolations | src/test/java/com/tsys/fraud_checker/web/FraudCheckerControllerCheckFraudValidationTest.java:83-96 | A card built from valid parts has no violation. |
| CardCases.OnlyNumberViolations | src/test/java/com/tsys/fraud_checker/web/FraudCheckerControllerCheckFraudValidationTest.java:161-283 | With the other fields valid, a card reports exactly its number's violations. |
| CardCases.NullNumberViolations | src/test/java/com/tsys/fraud_checker/web/FraudCheckerControllerCheckFraudValidationTest.java:161-185 | A null number reports only "Card number is required". |
| CardCases.EmptyNumberViolations | src/test/java/com/tsys/fraud_checker/web/FraudCheckerControllerCheckFraudValidationTest.java:187-224 | An empty number reports all four number messages. |
| CardCases.InvalidNumberFailsLuhn | src/test/java/com/tsys/fraud_checker/domain/CreditCardBuilder.java:40-43 | 1234 5678 9012 3456 fails @LuhnCheck. |
| CardCases.InvalidNumberViolations | src/test/java/com/tsys/fraud_checker/web/FraudCheckerControllerCheckFraudValidationTest.java:226-250 | 1234 5678 9012 3456 reports exactly the two Luhn messages. |
| CardCases.TrailingNonDigitViolations | src/main/java/com/tsys/fraud_checker/domain/CreditCard.java:22-25 | A non-blank number of 16..19 characters that ends in a non-digit reports exactly the two Luhn messages, whatever its digits. |
| CardCases.ValidDigitsWithTrailingHyphen | src/main/java/com/tsys/fraud_checker/domain/CreditCard.java:22-25 | 4485284720134093 followed by "-": its digits satisfy Luhn, yet the number reports exactly the two Luhn messages. |
| CardCases.ShortNumberPassesLuhn | src/test/java/com/tsys/fraud_checker/web/FraudCheckerControllerCheckFraudValidationTest.java:258-264 | 4992 7398 716 passes @LuhnCheck. |
| CardCases.ShortNumberViolations | src/test/java/com/tsys/fraud_checker/web/FraudCheckerControllerCheckFraudValidationTest.java:252-283 | 4992 7398 716 reports exactly the length message. |
| CardCases.BlankHolderViolations | src/test/java/com/tsys/fraud_checker/web/FraudCheckerControllerCheckFraudValidationTest.java:285-336 | A null or blank holder is the only violation: "holderName", "is required". |
| CardCases.BlankBankViolations | src/test/java/com/tsys/fraud_checker/web/FraudCheckerControllerCheckFraudValidationTest.java:338-387 | A null or blank bank is the only violation: "issuingBank", "name is required". |
| CardCases.NullExpiryViolations | src/test/java/com/tsys/fraud_checker/web/FraudCheckerControllerCheckFraudValidationTest.java:389-414 | A missing expiry is the only violation: "validUntil", "Expiry Date is mandatory!". |
| CardCases.OnlyCvvViolations | src/test/java/com/tsys/fraud_checker/web/FraudCheckerControllerCheckFraudValidationTest.java:447-500 | With the other fields valid, a card reports exactly its CVV's violations. |
| CardCases.NullCvvViolations | src/test/java/com/tsys/fraud_checker/web/FraudCheckerControllerCheckFraudValidationTest.java:447-474 | A null CVV reports both "is mandatory!" and "must have 3 digits". |
| CardCases.TwoDigitCvvViolations | src/test/java/com/tsys/fraud_checker/web/FraudCheckerControllerCheckFraudValidationTest.java:476-500 | A two-digit CVV reports only "must have 3 digits". |
| CardCases.ThreeDigitCvvViolations | src/test/java/com/tsys/fraud_checker/domain/CreditCardBuilder.java:70-81 | The builder's CVVs (three digits 1..8) have no violation. |
| CardCases.ExpiryTestCases | src/test/java/com/tsys/fraud_checker/domain/CreditCardTest.java:15-31 | With now between the builder's past and future dates, the as-written hasExpired gives the opposite of both expected answers, and the corrected one gives the expected answers. |
| Payload.NestedInjective | src/main/java/com/tsys/fraud_checker/web/FraudCheckPayload.java:19-25 | Prefixing a field name keeps violations apart: nested violations are equal iff the originals are. |
| Payload.NestedAllSize | src/main/java/com/tsys/fraud_checker/web/FraudCheckPayload.java:19-25 | Nesting keeps the number of violations. |
| Payload.NullCardViolations | src/test/java/com/tsys/fraud_checker/web/FraudCheckerControllerCheckFraudValidationTest.java:123-140 | A null card with a complete charge reports exactly "creditCard", "Require Credit Card Details!". |
| Payload.NullChargeViolations | src/test/java/com/tsys/fraud_checker/web/FraudCheckerControllerCheckFraudValidationTest.java:142-159 | A null charge adds "charge", "amount must be supplied!" to the card's nested violations. |
| Payload.CardViolationsNested | src/main/java/com/tsys/fraud_checker/web/FraudCheckPayload.java:19-21 | With a complete charge, the payload reports exactly the card's violations under "creditCard.", as many as the card has. |
| Payload.ChargeViolationsNested | src/main/java/com/tsys/fraud_checker/web/FraudCheckPayload.java:23-25 | With a valid card, the payload reports exactly the charge's violations under "charge.". |
| Payload.MissingAmountViolations | src/test/java/com/tsys/fraud_checker/web/FraudCheckerControllerCheckFraudValidationTest.java:502-520 | A charge with no amount reports exactly "charge.amount", "is required!". |
| Payload.MissingCurrencyViolations | src/test/java/com/tsys/fraud_checker/web/FraudCheckerControllerCheckFraudValidationTest.java:522-541 | A charge with no currency reports exactly "charge.currency", "is required!". |
| Payload.ValidPayload | src/main/java/com/tsys/fraud_checker/web/FraudCheckPayload.java:19-25 | `PayloadViolations` of a payload is empty iff the card and the charge are present and each is valid. |
| Errors.ErrorOfRoundTrip | src/main/java/com/tsys/fraud_checker/web/errors/GlobalExceptionHandler.java:53-54 | An error carries exactly a violation's path and message: the two conversions are inverse. |
| Errors.ValidationErrorsResponse.constructor | src/main/java/com/tsys/fraud_checker/web/errors/ValidationErrorsResponse.java:24 | A new response has no errors. |
| Errors.ValidationErrorsResponse.Add | src/main/java/com/tsys/fraud_checker/web/errors/ValidationErrorsResponse.java:26-28 | The error is appended: earlier ones keep their places and the new one is last. |
| Errors.OnConstraintViolationException | src/main/java/com/tsys/fraud_checker/web/errors/GlobalExceptionHandler.java:48-57 | A fresh response with one error per violation: as many as there are violations, without repeats, each from a violation, and every violation present. |
| StubTable.Lookup | src/main/java/com/tsys/fraud_checker/web/internal/Stubs.java:20-22 | The lookup is present iff the URL is stored with a non-null provider, and then it is that provider. |
| StubTable.LookupAfterPut | src/main/java/com/tsys/fraud_checker/web/internal/Stubs.java:16-22 | After a put, a get of that URL reads the provider back. |
| StubTable.LookupOtherAfterPut | src/main/java/com/tsys/fraud_checker/web/internal/Stubs.java:16-22 | A put leaves every other URL unchanged. |
| StubTable.PutReplaces | src/main/java/com/tsys/fraud_checker/web/internal/Stubs.java:16-18 | A second put under the same URL replaces the first. |
| StubTable.Stubs.constructor | src/main/java/com/tsys/fraud_checker/web/internal/Stubs.java:13 | A new table is empty. |
| StubTable.Stubs.Put | src/main/java/com/tsys/fraud_checker/web/internal/Stubs.java:16-18 | The table gains or replaces the entry. get reads it back, and every other URL reads as before. |
| StubTable.Stubs.GetAllStubs | src/main/java/com/tsys/fraud_checker/web/internal/Stubs.java:24-26 | It returns a copy that agrees with get on every URL. |
| StubTable.CopyBeforePut | src/main/java/com/tsys/fraud_checker/web/internal/Stubs.java:24-26 | A copy taken before a put still holds the old table, while the live table has the new entry. |
| StubbedService.MatchesAsWritten | src/main/java/com/tsys/fraud_checker/services/StubbedDelayVerificationService.java:39-42 | A match holds iff the stub has a request holding the very same card object and a charge that `equals` the requested one. Another card object gives false. A null request or card, or a null charge after the card matched, throws NPE, and NPE is the only exception. |
| StubbedService.Matches | src/main/java/com/tsys/fraud_checker/services/StubbedDelayVerificationService.java:39-42 | Corrected: the same, with the card compared by its values instead of its identity. |
| StubbedService.VerifyAsWritten | src/main/java/com/tsys/fraud_checker/services/StubbedDelayVerificationService.java:34-45 | With no "/check" stub, or a stub that does not match, it throws "No Matching Stub Found for the given request!". A matching stub gives its response, an exception from the match passes through, and every answer is a matched stub's response. |
| StubbedService.Verify | src/main/java/com/tsys/fraud_checker/services/StubbedDelayVerificationService.java:34-45 | Corrected: the same with matching by value. |
| StubbedService.VerifyAgainstStub | src/main/java/com/tsys/fraud_checker/services/StubbedDelayVerificationService.java:37-44 | For a complete stub, the response comes back iff the card and charge hold the stub's values; otherwise there is the no-match error. |
| StubbedService.OnlyCheckEntryConsulted | src/main/java/com/tsys/fraud_checker/services/StubbedDelayVerificationService.java:37 | Only the "/check" entry affects the answer. |
| StubbedService.NewCardObjectNeverMatches | src/main/java/com/tsys/fraud_checker/services/StubbedDelayVerificationService.java:41 | As written, a request whose card is another object never matches, even when its values are equal. Matching by value answers it. |
| StubbedService.StubbedDelayVerificationService.constructor | src/main/java/com/tsys/fraud_checker/services/StubbedDelayVerificationService.java:21-27 | It keeps the table, with delay 0. |
| StubbedService.StubbedDelayVerificationService.SetDelay | src/main/java/com/tsys/fraud_checker/services/StubbedDelayVerificationService.java:29-31 | It sets the delay and leaves the stub table alone. |
| StubbedService.StubbedDelayVerificationService.VerifyTransactionAuthenticity | src/main/java/com/tsys/fraud_checker/services/StubbedDelayVerificationService.java:34-45 | The service answers as written (VerifyAsWritten) from its stub table and changes nothing; any answer is the "/check" stub's response, given only for the very card object that stub holds. |
| Router.VerificationServiceRouter.constructor | src/main/java/com/tsys/fraud_checker/services/VerificationServiceRouter.java:21-30 | A new router routes to the real service. |
| Router.VerificationServiceRouter.VerifyTransactionAuthenticity | src/main/java/com/tsys/fraud_checker/services/VerificationServiceRouter.java:32-38 | The answer is exactly that of the service routeTo names. |
| Router.TurnStubbingForFraudCheck | src/main/java/com/tsys/fraud_checker/web/internal/TestSetupController.java:76-81 | on routes to the stub, and off routes to the real service. |
| Router.StubRouteUsesStubTable | src/main/java/com/tsys/fraud_checker/services/VerificationServiceRouter.java:34-37 | With stubbing on, the answer is the stubbed service's as-written answer for "/check", whatever the real service says. |
| Router.StubRouteRejectsOtherCardObjects | src/main/java/com/tsys/fraud_checker/services/VerificationServiceRouter.java:34-37 | With stubbing on, a request whose card is another object than the stub's gets "No Matching Stub Found for the given request!", even with equal card details. |

## Left out

- Logging, `Thread.sleep`, the printing in `main` and every `toString`: the model keeps no I/O. The delay is kept only as a stored field.
- StubbedService.StubbedDelayVerificationService.VerifyTransactionAuthenticity: with the sleep left out, so is the IllegalArgumentException `Thread.sleep` throws for a negative delay before the stub is looked up; `setDelay` accepts any int.
- The current time in `hasExpired` is a parameter `now`, in milliseconds since the epoch.
- `DefaultVerificationService`, with its random CVV and address codes and its sleep, is not part of this model. The router receives its answer as a function parameter.
- The Hibernate Validator internals are written as predicates of their own: `@NotBlank`, `@Length`, `@CreditCardNumber`, `@LuhnCheck` and `@NotNull`. The order in which violations are enumerated is left unspecified, so violations form a set.
- Errors.OnConstraintViolationException: states which errors the response holds and that none repeats, not their order, because the source's violation set has no defined order.
- The `Double` amount of `Money` is a mathematical real. IEEE rounding, NaN and `-0.0` are not modelled.
- Monetary.HashCode: the hash codes of `Currency` and `Double` are parameters, since their definitions lie outside the repository.
- NumberOfDigits.NumberOfDigitsValidator.IsValid: takes only integral inputs, as an unbounded integer. `longValue()`'s truncation of a `Double` or `Float` (123.9 counts 3 digits) and the 64-bit range of `long` are not modelled; the one annotated field, the CVV, is an `Integer`.
- Only the ASCII digits '0'..'9' are digits. Java's `Integer.parseInt` also accepts other Unicode digits, and so does `Character.isDigit`, which the Luhn annotations apply to the check digit.
- String lengths, as for `@Length`, count Unicode scalar values. Java's `String.length()` counts UTF-16 code units, so a character outside the Basic Multilingual Plane counts once here and twice in the source.
- Fraud.NewFraudStatus: a code outside 0..1 makes the source's array index throw; the model requires codes 0 or 1 instead of modelling that exception.
- Object identity is a number carried in a `Ref`. The heap, and `Object.equals` on anything but the stub's card and charge, are not modelled.
- The regular expression's named capture groups and Java's regex engine are replaced by a small matcher over the constructs the pattern uses.
- The Spring wiring, the HTTP endpoints, JSON mapping and the `@Profile` selection are not modelled. The only exceptions are the stub toggle and the stub table the setup controller updates.

## Findings

| source | as written | input that shows it | evidently intended | confidence | as-written member | corrected member |
|---|---|---|---|---|---|---|
| src/main/java/com/tsys/fraud_checker/domain/CreditCard.java:74-77 | `hasExpired` returns `validUntil.after(new Date())`, which is true while the card is still valid | A card valid until 30 December 4000 checked today: hasExpired is true, where CreditCardTest expects false | Expired when the expiry date is before now | not executed | Cards.HasExpiredAsWritten | Cards.HasExpired |
| src/main/java/com/tsys/fraud_checker/services/StubbedDelayVerificationService.java:41 | The stub's card is compared with `equals`, which `CreditCard` does not override, so objects are compared by identity | A request whose card is deserialised anew with the very values of the stubbed card: no match, RuntimeException | The card is compared by value, as the charge is | not executed | StubbedService.NewCardObjectNeverMatches | StubbedService.VerifyAgainstStub |
