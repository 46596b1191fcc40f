/**
 * `ValidationErrorsResponse`: the body of a 400 answer, an append-only list
 * of (field, message) errors, and the exception handler that fills it with
 * one error per constraint violation.
 */
module Errors {
  import opened Constraints

  datatype ValidationError = ValidationError(fieldName: string, message: string)

  /** The error a violation is reported as: its property path and its message. */
  function ErrorOf(v: Violation): ValidationError {
    ValidationError(v.path, v.message)
  }

  /** The violation an error reports. */
  function ViolationOf(e: ValidationError): Violation {
    Violation(e.fieldName, e.message)
  }

  /** Reporting a violation loses nothing: the violation can be read back from its error. */
  lemma ErrorOfRoundTrip(v: Violation, e: ValidationError)
    ensures ViolationOf(ErrorOf(v)) == v
    ensures ErrorOf(ViolationOf(e)) == e
  {
  }

  /** No error occurs twice in a list. */
  predicate Distinct(errors: seq<ValidationError>) {
    forall i, j :: 0 <= i < j < |errors| ==> errors[i] != errors[j]
  }

  class ValidationErrorsResponse {
    var validationErrors: seq<ValidationError>

    /** A new response has no errors. */
    constructor()
      ensures validationErrors == []
    {
      validationErrors := [];
    }

    /** `add` appends: earlier errors stay where they were, the new one comes last. */
    method Add(validationError: ValidationError)
      modifies this
      ensures validationErrors == old(validationErrors) + [validationError]
      ensures |validationErrors| == |old(validationErrors)| + 1
      ensures validationErrors[..|old(validationErrors)|] == old(validationErrors)
      ensures validationErrors[|validationErrors| - 1] == validationError
    {
      validationErrors := validationErrors + [validationError];
    }
  }

  /**
   * `onConstraintViolationException`: a new response, with one error added
   * for every violation, in the order the violations are enumerated (which
   * the model leaves unspecified).
   */
  method OnConstraintViolationException(violations: set<Violation>) returns (errors: ValidationErrorsResponse)
    ensures fresh(errors)
    ensures |errors.validationErrors| == |violations|
    ensures Distinct(errors.validationErrors)
    ensures forall i :: 0 <= i < |errors.validationErrors| ==> ViolationOf(errors.validationErrors[i]) in violations
    ensures forall v :: v in violations ==> ErrorOf(v) in errors.validationErrors
  {
    errors := new ValidationErrorsResponse();
    var remaining := violations;
    while remaining != {}
      invariant remaining <= violations
      invariant |errors.validationErrors| + |remaining| == |violations|
      invariant Distinct(errors.validationErrors)
      invariant forall i :: 0 <= i < |errors.validationErrors|
                  ==> ViolationOf(errors.validationErrors[i]) in violations - remaining
      invariant forall v :: v in violations - remaining ==> ErrorOf(v) in errors.validationErrors
      decreases remaining
    {
      var v :| v in remaining;
      ghost var before := errors.validationErrors;
      errors.Add(ErrorOf(v));
      assert errors.validationErrors[|before|] == ErrorOf(v);
      assert forall i :: 0 <= i < |before| ==> errors.validationErrors[i] == before[i];
      remaining := remaining - {v};
    }
  }
}
