/**
 * The outcomes the controller's validation tests expect for the card fields,
 * derived from `CardViolations`.
 */
module CardCases {
  import opened Wrappers
  import opened Decimal
  import opened CardNumbers
  import opened CardSamples
  import opened Constraints
  import opened NumberOfDigits
  import opened Cards

  // The card numbers the tests use, written group by group.

  /** The builder's valid number, 4485-2847-2013-4093. */
  function ValidNumber(): string {
    "4485" + "-" + "2847" + "-" + "2013" + "-" + "4093"
  }

  /** The builder's invalid number, 1234 5678 9012 3456. */
  function InvalidNumber(): string {
    "1234" + " " + "5678" + " " + "9012" + " " + "3456"
  }

  /** The too-short number 4992 7398 716 (valid by Luhn). */
  function ShortNumber(): string {
    "4992" + " " + "7398" + " " + "716"
  }

  /** Dropping one non-digit between two parts leaves their digits side by side. */
  lemma DigitsOnlyAround(a: string, sep: char, b: string)
    requires !IsDigitChar(sep)
    ensures DigitsOnly(a + [sep] + b) == DigitsOnly(a) + DigitsOnly(b)
  {
    DigitsOnlyAppend(a + [sep], b);
    DigitsOnlyAppend(a, [sep]);
    assert DigitsOnly([sep]) == [];
    assert DigitsOnly(a) + [] == DigitsOnly(a);
  }

  /** Digit groups joined by one non-digit lose only the separators. */
  lemma DigitsOnlyGroups(a: string, b: string, c: string, d: string, sep: string)
    requires |sep| == 1 && !IsDigitChar(sep[0])
    requires AllDigits(a) && AllDigits(b) && AllDigits(c) && AllDigits(d)
    ensures DigitsOnly(a + sep + b + sep + c) == a + b + c
    ensures DigitsOnly(a + sep + b + sep + c + sep + d) == a + b + c + d
  {
    assert sep == [sep[0]];
    DigitsOnlyAround(a + sep + b + sep + c, sep[0], d);
    DigitsOnlyAround(a + sep + b, sep[0], c);
    DigitsOnlyAround(a, sep[0], b);
    DigitsOnlyOfDigits(a);
    DigitsOnlyOfDigits(b);
    DigitsOnlyOfDigits(c);
    DigitsOnlyOfDigits(d);
  }

  /** A string that starts with a character `trim` keeps is not blank. */
  lemma StartsVisible(s: string)
    requires |s| >= 1 && !IsTrimmed(s[0])
    ensures NotBlank(Some(s))
  {
    TrimEmptyIffBlank(s);
  }

  /** The builder's valid number is not blank. */
  lemma ValidNumberNotBlank()
    ensures NotBlank(Some(ValidNumber()))
  {
    StartsVisible(ValidNumber());
  }

  /** What the Luhn-based checks say about a number that ends in a digit and whose digits and Luhn sum are known. */
  lemma LuhnCheckOfSum(s: string, digits: string, total: nat, passes: bool)
    requires |s| > 0 && IsDigitChar(s[|s| - 1])
    requires DigitsOnly(s) == digits && AllDigits(digits) && LuhnSum(digits) == total
    requires passes == (total % 10 == 0)
    ensures LuhnCheck(Some(s)) == passes
  {
  }

  lemma ValidNumberDigits()
    ensures DigitsOnly(ValidNumber()) == "4485" + "2847" + "2013" + "4093"
  {
    DigitsOnlyGroups("4485", "2847", "2013", "4093", "-");
  }

  /** Any number whose digits are 4485284720134093 passes the Luhn-based checks: their sum is 80. */
  lemma SeventhSampleDigitsPassLuhn(s: string)
    requires |s| > 0 && IsDigitChar(s[|s| - 1])
    requires DigitsOnly(s) == "4485" + "2847" + "2013" + "4093"
    ensures LuhnCheck(Some(s))
  {
    SeventhSampleDigitsLuhnValid(DigitsOnly(s));
  }

  /** 4485284720134093 satisfies the Luhn formula. */
  lemma SeventhSampleDigitsLuhnValid(digits: string)
    requires digits == "4485" + "2847" + "2013" + "4093"
    ensures AllDigits(digits) && LuhnValid(digits)
  {
    LuhnSumOfSeventhSample("4485", "2847", "2013", "4093");
  }

  /** The builder's valid number passes both Luhn-based checks. */
  lemma ValidNumberPassesLuhn()
    ensures LuhnCheck(Some(ValidNumber()))
  {
    ValidNumberDigits();
    assert ValidNumber()[|ValidNumber()| - 1] == '3';
    SeventhSampleDigitsPassLuhn(ValidNumber());
  }

  /** The builder's valid number meets every constraint on `number`. */
  lemma ValidNumberViolations()
    ensures NumberViolations(Some(ValidNumber())) == {}
  {
    ValidNumberNotBlank();
    ValidNumberPassesLuhn();
    NumberViolationsWhenValid(ValidNumber());
  }

  /** A non-blank number of acceptable length that passes the Luhn-based checks has no violation. */
  lemma NumberViolationsWhenValid(s: string)
    requires NotBlank(Some(s)) && 16 <= |s| <= 19 && LuhnCheck(Some(s))
    ensures NumberViolations(Some(s)) == {}
  {
  }

  /** A non-blank number of acceptable length that fails the Luhn-based checks has exactly their two violations. */
  lemma NumberViolationsWhenLuhnFails(s: string)
    requires NotBlank(Some(s)) && 16 <= |s| <= 19 && !LuhnCheck(Some(s))
    ensures NumberViolations(Some(s)) == {Violation("number", InvalidCardNumber), Violation("number", FailedLuhn)}
  {
    NumberViolationsOfChecks(Some(s), true, true, false);
    LuhnFailuresOnly();
  }

  /** With only the Luhn-based checks failing, their two messages are all that is reported. */
  lemma LuhnFailuresOnly()
    ensures Check(true, "number", NumberRequired) + Check(true, "number", NumberLength)
          + Check(false, "number", InvalidCardNumber) + Check(false, "number", FailedLuhn)
         == {Violation("number", InvalidCardNumber), Violation("number", FailedLuhn)}
  {
  }

  /** The violations of `number`, given the outcome of each of its checks. */
  lemma NumberViolationsOfChecks(number: Option<string>, notBlank: bool, length: bool, luhn: bool)
    requires notBlank == NotBlank(number) && length == LengthBetween(number, 16, 19) && luhn == LuhnCheck(number)
    ensures NumberViolations(number)
         == Check(notBlank, "number", NumberRequired) + Check(length, "number", NumberLength)
          + Check(luhn, "number", InvalidCardNumber) + Check(luhn, "number", FailedLuhn)
  {
  }

  /** A non-blank number that passes the Luhn-based checks but has the wrong length has only the length violation. */
  lemma NumberViolationsWhenLengthFails(s: string)
    requires NotBlank(Some(s)) && !(16 <= |s| <= 19) && LuhnCheck(Some(s))
    ensures NumberViolations(Some(s)) == {Violation("number", NumberLength)}
  {
    assert Check(NotBlank(Some(s)), "number", NumberRequired) == {};
    assert Check(LuhnCheck(Some(s)), "number", InvalidCardNumber) == {};
    assert Check(LuhnCheck(Some(s)), "number", FailedLuhn) == {};
  }

  /** The builder's invalid number is not blank. */
  lemma InvalidNumberNotBlank()
    ensures NotBlank(Some(InvalidNumber()))
  {
    StartsVisible(InvalidNumber());
  }

  /** The builder's invalid number fails the Luhn formula. */
  lemma InvalidNumberFailsLuhn()
    ensures !LuhnCheck(Some(InvalidNumber()))
  {
    InvalidNumberDigits();
    InvalidDigitsFailLuhn(InvalidNumber());
  }

  lemma InvalidNumberDigits()
    ensures DigitsOnly(InvalidNumber()) == "1234" + "5678" + "9012" + "3456"
  {
    DigitsOnlyGroups("1234", "5678", "9012", "3456", " ");
  }

  /** Any number whose digits are 1234567890123456 fails the Luhn-based checks: their sum is 64. */
  lemma InvalidDigitsFailLuhn(s: string)
    requires DigitsOnly(s) == "1234" + "5678" + "9012" + "3456"
    ensures !LuhnCheck(Some(s))
  {
    if |s| > 0 && IsDigitChar(s[|s| - 1]) {
      LuhnSumOfInvalidNumber("1234", "5678", "9012", "3456");
      LuhnCheckOfSum(s, "1234" + "5678" + "9012" + "3456", 64, false);
    }
  }

  /** 1234567890123456 has Luhn sum 64. */
  lemma LuhnSumOfInvalidNumber(a: string, b: string, c: string, d: string)
    requires a == "1234" && b == "5678" && c == "9012" && d == "3456"
    ensures AllDigits(a + b + c + d) && LuhnSum(a + b + c + d) == 64
  {
    GroupSum1234(a); GroupSum4093Or5678(b); GroupSum9012(c); GroupSum3456Or7812(d);
    LuhnSumOfGroups(a, b, c, d, 64);
  }

  /** 1234 5678 9012 3456 has the right length but fails both Luhn-based checks. */
  lemma InvalidNumberViolations()
    ensures NumberViolations(Some(InvalidNumber()))
         == {Violation("number", InvalidCardNumber), Violation("number", FailedLuhn)}
  {
    InvalidNumberNotBlank();
    InvalidNumberFailsLuhn();
    NumberViolationsWhenLuhnFails(InvalidNumber());
  }

  /** The short number is not blank. */
  lemma ShortNumberNotBlank()
    ensures NotBlank(Some(ShortNumber()))
  {
    StartsVisible(ShortNumber());
  }

  /** The short number satisfies the Luhn formula. */
  lemma ShortNumberPassesLuhn()
    ensures LuhnCheck(Some(ShortNumber()))
  {
    ShortNumberDigits();
    assert ShortNumber()[|ShortNumber()| - 1] == '6';
    FifthSampleDigitsPassLuhn(ShortNumber());
  }

  lemma ShortNumberDigits()
    ensures DigitsOnly(ShortNumber()) == "4992" + "7398" + "716"
  {
    DigitsOnlyGroups("4992", "7398", "716", "", " ");
  }

  /** Any number whose digits are 49927398716 passes the Luhn-based checks: their sum is 70. */
  lemma FifthSampleDigitsPassLuhn(s: string)
    requires |s| > 0 && IsDigitChar(s[|s| - 1])
    requires DigitsOnly(s) == "4992" + "7398" + "716"
    ensures LuhnCheck(Some(s))
  {
    FifthSampleDigitsLuhnValid(DigitsOnly(s));
  }

  /** 49927398716 satisfies the Luhn formula. */
  lemma FifthSampleDigitsLuhnValid(digits: string)
    requires digits == "4992" + "7398" + "716"
    ensures AllDigits(digits) && LuhnValid(digits)
  {
    LuhnSumOfFifthSample("4", "99", "2739", "8716");
    assert "4992" + "7398" + "716" == "4" + "99" + "2739" + "8716";
  }

  /**
   * A number of acceptable length that ends in a separator fails both
   * Luhn-based checks, whatever its digits: the check digit is its last
   * character.
   */
  lemma TrailingNonDigitViolations(s: string)
    requires NotBlank(Some(s)) && 16 <= |s| <= 19 && !IsDigitChar(s[|s| - 1])
    ensures NumberViolations(Some(s)) == {Violation("number", InvalidCardNumber), Violation("number", FailedLuhn)}
  {
    TrailingNonDigitFailsLuhn(s);
    NumberViolationsWhenLuhnFails(s);
  }

  /** The check digit is the last character, so a number ending in a non-digit fails the Luhn-based checks. */
  lemma TrailingNonDigitFailsLuhn(s: string)
    requires |s| > 0 && !IsDigitChar(s[|s| - 1])
    ensures !LuhnCheck(Some(s))
  {
  }

  /** 4485284720134093 followed by a hyphen: its digits pass Luhn, but the number is rejected. */
  lemma ValidDigitsWithTrailingHyphen(s: string)
    requires s == "4485" + "2847" + "2013" + "4093" + "-"
    ensures LuhnValid(DigitsOnly(s))
    ensures NumberViolations(Some(s)) == {Violation("number", InvalidCardNumber), Violation("number", FailedLuhn)}
  {
    var digits := "4485" + "2847" + "2013" + "4093";
    assert s == digits + ['-'];
    DigitsOnlyAppend(digits, ['-']);
    DigitsOnlyOfChar('-');
    SeventhSampleDigitsLuhnValid(digits);
    DigitsOnlyOfDigits(digits);
    assert DigitsOnly(s) == digits;
    StartsVisible(s);
    TrailingNonDigitViolations(s);
  }

  /** 4992 7398 716 passes Luhn but, at 13 characters, is too short. */
  lemma ShortNumberViolations()
    ensures NumberViolations(Some(ShortNumber())) == {Violation("number", NumberLength)}
  {
    ShortNumberNotBlank();
    ShortNumberPassesLuhn();
    NumberViolationsWhenLengthFails(ShortNumber());
  }

  /** A null number is only reported as missing: the other checks pass null. */
  lemma NullNumberViolations()
    ensures NumberViolations(None) == {Violation("number", NumberRequired)}
  {
  }

  /** The empty number fails all four checks: it has no digit to serve as check digit. */
  lemma EmptyNumberViolations()
    ensures NumberViolations(Some(""))
         == {Violation("number", NumberRequired), Violation("number", NumberLength),
             Violation("number", InvalidCardNumber), Violation("number", FailedLuhn)}
  {
    TrimEmptyIffBlank("");
  }

  /** A null CVV is reported as missing and as not having three digits. */
  lemma NullCvvViolations()
    ensures CvvViolations(None) == {Violation("cvv", CvvRequired), Violation("cvv", CvvDigits)}
  {
  }

  /** A two-digit CVV is reported only as not having three digits. */
  lemma TwoDigitCvvViolations(cvv: int)
    requires 10 <= cvv <= 99
    ensures CvvViolations(Some(cvv)) == {Violation("cvv", CvvDigits)}
  {
    ThreeDigits(cvv);
  }

  /** The builder's CVVs, three digits from 1 to 8, meet both constraints. */
  lemma ThreeDigitCvvViolations(cvv: int)
    requires 111 <= cvv <= 888
    ensures CvvViolations(Some(cvv)) == {}
  {
    ThreeDigits(cvv);
  }

  /** The other fields of a card are as the test builder makes them for a valid card. */
  predicate OtherFieldsValid(card: CreditCard) {
    NotBlank(card.holderName) && NotBlank(card.issuingBank) && card.validUntil.Some?
    && card.cvv.Some? && 111 <= card.cvv.value <= 888
  }

  /** A card built from valid parts has no violation at all. */
  lemma ValidCardViolations(card: CreditCard)
    requires card.number == Some(ValidNumber()) && OtherFieldsValid(card)
    ensures CardViolations(card) == {}
  {
    ValidNumberViolations();
    ThreeDigitCvvViolations(card.cvv.value);
  }

  /** With every other field valid, a card reports exactly its number's violations. */
  lemma OnlyNumberViolations(card: CreditCard)
    requires OtherFieldsValid(card)
    ensures CardViolations(card) == NumberViolations(card.number)
  {
    ThreeDigitCvvViolations(card.cvv.value);
  }

  /** With a valid number, a missing or blank holder name is the only violation. */
  lemma BlankHolderViolations(card: CreditCard)
    requires NumberViolations(card.number) == {}
    requires !NotBlank(card.holderName) && NotBlank(card.issuingBank) && card.validUntil.Some?
    requires card.cvv.Some? && 111 <= card.cvv.value <= 888
    ensures CardViolations(card) == {Violation("holderName", HolderRequired)}
  {
    ThreeDigitCvvViolations(card.cvv.value);
  }

  /** With a valid number, a missing or blank issuing bank is the only violation. */
  lemma BlankBankViolations(card: CreditCard)
    requires NumberViolations(card.number) == {}
    requires NotBlank(card.holderName) && !NotBlank(card.issuingBank) && card.validUntil.Some?
    requires card.cvv.Some? && 111 <= card.cvv.value <= 888
    ensures CardViolations(card) == {Violation("issuingBank", BankRequired)}
  {
    ThreeDigitCvvViolations(card.cvv.value);
  }

  /** With a valid number, a missing expiry date is the only violation. */
  lemma NullExpiryViolations(card: CreditCard)
    requires NumberViolations(card.number) == {}
    requires NotBlank(card.holderName) && NotBlank(card.issuingBank) && card.validUntil.None?
    requires card.cvv.Some? && 111 <= card.cvv.value <= 888
    ensures CardViolations(card) == {Violation("validUntil", ExpiryRequired)}
  {
    ThreeDigitCvvViolations(card.cvv.value);
  }

  /** With a valid number, a card's CVV violations are the only ones. */
  lemma OnlyCvvViolations(card: CreditCard)
    requires NumberViolations(card.number) == {}
    requires NotBlank(card.holderName) && NotBlank(card.issuingBank) && card.validUntil.Some?
    ensures CardViolations(card) == CvvViolations(card.cvv)
  {
  }

  /** The test builder's expiry dates: the epoch, and 30 December 4000. */
  const PastExpiry: Date := 0
  const FutureExpiry: Date := 64_092_038_400_000

  /**
   * For any current time between the two, the tests expect the future card not
   * to have expired and the past one to have expired; as written, both answers
   * are the opposite, while the intended `HasExpired` gives the expected ones.
   */
  lemma ExpiryTestCases(card: CreditCard, now: Date)
    requires PastExpiry < now < FutureExpiry
    ensures HasExpiredAsWritten(card.(validUntil := Some(FutureExpiry)), now) == Ok(true)
    ensures HasExpiredAsWritten(card.(validUntil := Some(PastExpiry)), now) == Ok(false)
    ensures HasExpired(card.(validUntil := Some(FutureExpiry)), now) == Ok(false)
    ensures HasExpired(card.(validUntil := Some(PastExpiry)), now) == Ok(true)
  {
  }
}
