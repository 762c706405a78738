/**
 * One field-level validation failure (`ValidationErrorDetail.java`) and the
 * two factories that copy it out of the validation subsystem's reports.
 */
module ValidationErrorDetails {
  import opened Wrappers

  /**
   * Spring's `FieldError` as far as the factory reads it: the object it
   * belongs to, the field name and the resolved default message, which may
   * be null.
   */
  datatype FieldError = FieldError(objectName: string, field: string, defaultMessage: Option<string>)

  /**
   * Bean Validation's `ConstraintViolation`: the property path as
   * `getPropertyPath().toString()` renders it, and the interpolated message.
   */
  datatype ConstraintViolation = ConstraintViolation(propertyPath: string, message: string)

  /**
   * The record `(field, message)`. Record equality in Java compares both
   * components, as datatype equality does here; the message is nullable
   * because `FieldError.getDefaultMessage()` is.
   */
  datatype ValidationErrorDetail = ValidationErrorDetail(field: string, message: Option<string>)

  /** `from(FieldError)`: field name and default message, verbatim. */
  function FromFieldError(fe: FieldError): (d: ValidationErrorDetail)
    ensures d.field == fe.field && d.message == fe.defaultMessage
  {
    ValidationErrorDetail(fe.field, fe.defaultMessage)
  }

  /** `from(ConstraintViolation)`: rendered property path and message, verbatim. */
  function FromConstraintViolation(cv: ConstraintViolation): (d: ValidationErrorDetail)
    ensures d.field == cv.propertyPath && d.message == Some(cv.message)
  {
    ValidationErrorDetail(cv.propertyPath, Some(cv.message))
  }

  /**
   * `fieldErrors.stream().map(ValidationErrorDetail::from).toList()`: one
   * detail per field error, in the reported order, duplicates kept.
   */
  function FromFieldErrors(fes: seq<FieldError>): (ds: seq<ValidationErrorDetail>)
    ensures |ds| == |fes|
    ensures forall i :: 0 <= i < |fes| ==> ds[i].field == fes[i].field && ds[i].message == fes[i].defaultMessage
  {
    if fes == [] then [] else [FromFieldError(fes[0])] + FromFieldErrors(fes[1..])
  }

  /** The same mapping over the violations of a `ConstraintViolationException`. */
  function FromConstraintViolations(cvs: seq<ConstraintViolation>): (ds: seq<ValidationErrorDetail>)
    ensures |ds| == |cvs|
    ensures forall i :: 0 <= i < |cvs| ==> ds[i].field == cvs[i].propertyPath && ds[i].message == Some(cvs[i].message)
  {
    if cvs == [] then [] else [FromConstraintViolation(cvs[0])] + FromConstraintViolations(cvs[1..])
  }

  /** Two details are equal exactly when both their fields and their messages are. */
  lemma DetailEquality(a: ValidationErrorDetail, b: ValidationErrorDetail)
    ensures a == b <==> a.field == b.field && a.message == b.message
  {
  }

  /** Mapping commutes with concatenation: a report split in two maps piecewise. */
  lemma {:induction false} FromFieldErrorsAppend(a: seq<FieldError>, b: seq<FieldError>)
    ensures FromFieldErrors(a + b) == FromFieldErrors(a) + FromFieldErrors(b)
  {
    if a == [] {
      assert a + b == b;
    } else {
      assert (a + b)[1..] == a[1..] + b;
      FromFieldErrorsAppend(a[1..], b);
    }
  }

  /**
   * No deduplication: two failures on the same field with the same message
   * still give two details.
   */
  lemma NoDeduplication(fe: FieldError)
    ensures FromFieldErrors([fe, fe]) == [FromFieldError(fe), FromFieldError(fe)]
  {
    assert [fe, fe][1..] == [fe];
  }
}
