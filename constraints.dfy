/**
 * The Bean Validation constraints the domain classes declare, each written
 * out as a predicate over the (possibly null) field value, and the violation
 * that a failed constraint reports.
 */
module Constraints {
  import opened Wrappers
  import opened Decimal
  import opened CardNumbers

  /** A constraint violation: the property path and the constraint's message. */
  datatype Violation = Violation(path: string, message: string)

  /** `String.trim` removes this character from either end. */
  predicate IsTrimmed(c: char) {
    c <= ' '
  }

  function TrimStart(s: string): (r: string)
    ensures |r| <= |s| && r == s[|s| - |r|..]
    ensures r != [] ==> !IsTrimmed(r[0])
  {
    if s != [] && IsTrimmed(s[0]) then TrimStart(s[1..]) else s
  }

  function TrimEnd(s: string): (r: string)
    ensures |r| <= |s| && r == s[..|r|]
    ensures r != [] ==> !IsTrimmed(r[|r| - 1])
  {
    if s != [] && IsTrimmed(s[|s| - 1]) then TrimEnd(s[..|s| - 1]) else s
  }

  /** `String.trim`. */
  function Trim(s: string): string {
    TrimEnd(TrimStart(s))
  }

  /** A string is blank when every character is one that `trim` removes. */
  predicate IsBlank(s: string) {
    forall i :: 0 <= i < |s| ==> IsTrimmed(s[i])
  }

  lemma {:induction false} TrimStartEmptyIffBlank(s: string)
    ensures TrimStart(s) == [] <==> IsBlank(s)
  {
    if s != [] {
      TrimStartEmptyIffBlank(s[1..]);
      if IsTrimmed(s[0]) && IsBlank(s[1..]) {
        forall i | 0 <= i < |s| ensures IsTrimmed(s[i]) {
          if i > 0 { assert s[i] == s[1..][i - 1]; }
        }
      }
    }
  }

  /** `trim` leaves nothing exactly when the string is blank. */
  lemma TrimEmptyIffBlank(s: string)
    ensures Trim(s) == [] <==> IsBlank(s)
  {
    TrimStartEmptyIffBlank(s);
    var t := TrimStart(s);
    if t != [] {
      assert !IsTrimmed(t[0]);
      assert TrimEnd(t) != [] by {
        if TrimEnd(t) == [] {
          TrimEndKeepsNonTrimmed(t);
        }
      }
    }
  }

  /** `TrimEnd` of a string starting with a kept character is not empty. */
  lemma {:induction false} TrimEndKeepsNonTrimmed(t: string)
    requires t != [] && !IsTrimmed(t[0])
    ensures TrimEnd(t) != []
  {
    if IsTrimmed(t[|t| - 1]) {
      TrimEndKeepsNonTrimmed(t[..|t| - 1]);
    }
  }

  /** `@NotBlank`: not null, and something is left after `trim`. */
  predicate NotBlank(s: Option<string>) {
    s.Some? && Trim(s.value) != []
  }

  /** `@Length(min, max)`: null passes; otherwise the raw length, separators included. */
  predicate LengthBetween(s: Option<string>, min: nat, max: nat) {
    s.None? || min <= |s.value| <= max
  }

  /** The string with every character outside [0-9] removed. */
  function DigitsOnly(s: string): (r: string)
    ensures AllDigits(r) && |r| <= |s|
  {
    if s == [] then []
    else (if IsDigitChar(s[0]) then [s[0]] else []) + DigitsOnly(s[1..])
  }

  lemma {:induction false} DigitsOnlyAppend(a: string, b: string)
    ensures DigitsOnly(a + b) == DigitsOnly(a) + DigitsOnly(b)
  {
    var ab := a + b;
    if a == [] {
      assert ab == b;
    } else {
      DigitsOnlyAppend(a[1..], b);
      assert ab[0] == a[0] && ab[1..] == a[1..] + b;
      var head := if IsDigitChar(a[0]) then [a[0]] else [];
      assert DigitsOnly(ab) == head + DigitsOnly(a[1..] + b);
      AppendAssoc(head, DigitsOnly(a[1..]), DigitsOnly(b));
    }
  }

  /** A single character is dropped exactly when it is not a digit, and kept otherwise. */
  lemma DigitsOnlyOfChar(c: char)
    ensures !IsDigitChar(c) ==> DigitsOnly([c]) == []
    ensures IsDigitChar(c) ==> DigitsOnly([c]) == [c]
  {
  }

  /** On an all-digit string there is nothing to remove. */
  lemma {:induction false} DigitsOnlyOfDigits(s: string)
    requires AllDigits(s)
    ensures DigitsOnly(s) == s
  {
    if s != [] {
      AllDigitsHead(s);
      DigitsOnlyOfDigits(s[1..]);
    }
  }

  /**
   * `@LuhnCheck(ignoreNonDigitCharacters = true)`, and `@CreditCardNumber`
   * with the same setting, which reports the same check as one violation.
   * Null passes. Otherwise the last character, as it stands, is the check
   * digit and must be a digit, and the digits of the whole value must
   * satisfy the Luhn formula. The empty string has no check digit and fails.
   */
  predicate LuhnCheck(s: Option<string>) {
    s.None? || (|s.value| > 0 && IsDigitChar(s.value[|s.value| - 1]) && LuhnValid(DigitsOnly(s.value)))
  }

  /**
   * The check as the validator runs it: the check digit is the raw last
   * character, the non-digits are dropped from the characters before it
   * only, and those digits followed by the check digit must satisfy the
   * Luhn formula. A value ending in a separator fails, whatever its digits.
   */
  lemma LuhnCheckSplitsCheckDigit(s: string)
    ensures LuhnCheck(Some(s))
        <==> |s| > 0 && IsDigitChar(s[|s| - 1]) && LuhnValid(DigitsOnly(s[..|s| - 1]) + [s[|s| - 1]])
  {
    if |s| > 0 && IsDigitChar(s[|s| - 1]) {
      var last := s[|s| - 1];
      assert s == s[..|s| - 1] + [last];
      DigitsOnlyAppend(s[..|s| - 1], [last]);
      DigitsOnlyOfChar(last);
    }
  }
}
