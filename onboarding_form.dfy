/**
 * The form itself: it wires the schema, the corporation-number lookup and the
 * submission controller together. It decides when a submit goes through,
 * which error the corporation-number field shows, and when the submit button
 * is disabled.
 */
module OnboardingForm {
  import opened JsValues
  import opened FormSchema
  import opened Endpoints
  import opened CorporationValidation
  import opened FormSubmission

  /** `onSubmit`'s guard: it returns without submitting while a lookup runs or a lookup error is set. */
  predicate SubmitAllowed(isValidating: bool, validationError: Option<string>)
    ensures SubmitAllowed(isValidating, validationError) <==>
      !isValidating && (validationError.None? || validationError.value == "")
  {
    !(isValidating || Truthy(validationError))
  }

  /** `errors.corporationNumber?.message || validationError`. */
  function CorporationFieldError(schemaError: Option<string>, validationError: Option<string>): (shown: Option<string>)
    ensures Truthy(schemaError) ==> shown == schemaError
    ensures !Truthy(schemaError) ==> shown == validationError
    ensures Truthy(shown) <==> Truthy(schemaError) || Truthy(validationError)
  {
    if Truthy(schemaError) then schemaError else validationError
  }

  /** The submit button's `disabled` attribute. */
  predicate SubmitDisabled(isSubmitting: bool, isValidating: bool)
    ensures isSubmitting ==> SubmitDisabled(isSubmitting, isValidating)
    ensures isValidating ==> SubmitDisabled(isSubmitting, isValidating)
  {
    isSubmitting || isValidating
  }

  /**
   * A submit reaches `submitForm` only when the schema reports no error (the
   * form library does not call `onSubmit` otherwise) and the guard passes.
   */
  predicate SubmitGate(values: FormData, v: ValidationState)
    ensures SubmitGate(values, v) ==>
      IsValidCanadianPhone(values.phone) && |values.corporationNumber| == CorporationNumberLength
      && !v.isValidating
  {
    ValidateAccepts(values);
    NoErrors(Validate(values)) && SubmitAllowed(v.isValidating, v.validationError)
  }

  /** The submission state after a submit: an attempt when the gate is open, else unchanged. */
  function AfterSubmit(sub: SubmissionState, values: FormData, v: ValidationState, r: Response): (t: SubmissionState)
    ensures t == sub || t.requests == sub.requests + [ProfilePost(values)]
    ensures v.isValidating ==> t == sub
  {
    if SubmitGate(values, v) then Attempt(sub, values, r) else sub
  }

  /**
   * Because a lookup error is never the empty string, the guard passes exactly
   * when no lookup is running and no lookup error is set.
   */
  lemma SubmitAllowedIff(v: ValidationState)
    requires ValidationInvariant(v)
    ensures SubmitAllowed(v.isValidating, v.validationError) <==> !v.isValidating && v.validationError.None?
  {
  }

  /**
   * The gate is open exactly when every field meets its rules, no lookup is
   * running and no lookup error is set. Then exactly one POST of the values is
   * sent; otherwise nothing is sent and `submitError` is left as it was.
   */
  lemma SubmitGateOutcome(sub: SubmissionState, values: FormData, v: ValidationState, r: Response)
    requires ValidationInvariant(v)
    ensures SubmitGate(values, v) <==>
      0 < |values.firstName| <= MaxNameLength
      && 0 < |values.lastName| <= MaxNameLength
      && IsValidCanadianPhone(values.phone)
      && |values.corporationNumber| == CorporationNumberLength
      && (forall i :: 0 <= i < |values.corporationNumber| ==> IsAsciiDigit(values.corporationNumber[i]))
      && !v.isValidating && v.validationError.None?
    ensures SubmitGate(values, v) ==>
      AfterSubmit(sub, values, v, r).requests == sub.requests + [ProfilePost(values)]
    ensures !SubmitGate(values, v) ==> AfterSubmit(sub, values, v, r) == sub
  {
    ValidateAccepts(values);
    SubmitAllowedIff(v);
  }

  /** A submit while a lookup is running sends no POST and raises no error. */
  lemma SubmitWhileValidatingIsWithheld(sub: SubmissionState, values: FormData, v: ValidationState, r: Response)
    requires v.isValidating
    ensures AfterSubmit(sub, values, v, r) == sub
  {
  }

  /**
   * The corporation-number field shows its schema error when there is one,
   * and the lookup's error otherwise; so a number of the wrong length always
   * shows the length message, whatever the lookup said.
   */
  lemma CorporationFieldErrorPrecedence(number: string, validationError: Option<string>)
    ensures var schema := CorporationNumberError(number);
      var shown := CorporationFieldError(schema, validationError);
      (schema.Some? ==> shown == schema) && (schema.None? ==> shown == validationError)
    ensures number != "" && |number| != CorporationNumberLength ==>
      CorporationFieldError(CorporationNumberError(number), validationError) == Some(CorporationNumberWrongLength)
  {
    var e := Validate(FormData("", "", "", number));
    assert e.corporationNumber == CorporationNumberError(number);
    CorporationNumberRule(number);
  }

  /**
   * The button is disabled for the whole time an attempt is in progress, and
   * once it has ended it is disabled exactly while a lookup runs.
   */
  lemma SubmitButtonDuringAttempt(sub: SubmissionState, values: FormData, r: Response, isValidating: bool)
    ensures SubmitDisabled(AfterStart(sub, values).isSubmitting, isValidating)
    ensures SubmitDisabled(Attempt(sub, values, r).isSubmitting, isValidating) <==> isValidating
  {
  }

  /**
   * The form: its current values, the corporation field's touched flag, and
   * whether the form library has validated that field yet. Its error state
   * holds a schema error for the field only once the field has been
   * validated: by a change of its value, by its blur handler, or by a submit.
   */
  class Form {
    var values: FormData
    var corporationTouched: bool
    var corporationValidated: bool
    const validator: CorporationValidator
    const submission: SubmissionController

    predicate Valid()
      reads this, validator, submission
    {
      validator.Valid() && submission.Valid()
      && validator.number == values.corporationNumber
      && validator.touched == corporationTouched
    }

    /** The first render: empty fields, nothing touched or validated. */
    constructor ()
      ensures Valid() && fresh(validator) && fresh(submission)
      ensures values == FormData("", "", "", "") && !corporationTouched && !corporationValidated
      ensures validator.State() == Mount("", false) && submission.State() == Initial()
    {
      values := FormData("", "", "", "");
      corporationTouched := false;
      corporationValidated := false;
      validator := new CorporationValidator("", false);
      submission := new SubmissionController();
    }

    /**
     * A render after the user edited fields: the lookup hook sees the new
     * value and touched flag, and a change of the corporation number
     * validates that field.
     */
    method Change(d: FormData, touched: bool)
      requires Valid()
      modifies this, validator
      ensures Valid()
      ensures values == d && corporationTouched == touched
      ensures corporationValidated == (old(corporationValidated) || d.corporationNumber != old(values.corporationNumber))
      ensures validator.State() == AfterInput(old(validator.State()), d.corporationNumber, touched)
      ensures submission.State() == old(submission.State())
    {
      if d.corporationNumber != values.corporationNumber {
        corporationValidated := true;
      }
      values, corporationTouched := d, touched;
      validator.InputChanged(d.corporationNumber, touched);
    }

    /**
     * `handleCorporationNumberBlur`: it validates the field. It replaces the
     * blur handler the form library would install, so it does not mark the
     * field touched.
     */
    method BlurCorporationNumber()
      requires Valid()
      modifies this
      ensures Valid()
      ensures corporationValidated
      ensures values == old(values) && corporationTouched == old(corporationTouched)
    {
      corporationValidated := true;
    }

    /** `handleSubmit(onSubmit)`, where the POST, if sent, ends with `r`. */
    method Submit(r: Response)
      requires Valid()
      modifies this, submission
      ensures Valid()
      ensures values == old(values) && corporationTouched == old(corporationTouched) && corporationValidated
      ensures submission.State() == AfterSubmit(old(submission.State()), values, validator.State(), r)
    {
      corporationValidated := true;
      if !NoErrors(Validate(values)) {
        return;
      }
      if validator.isValidating || Truthy(validator.validationError) {
        return;
      }
      submission.SubmitForm(values, r);
    }

    /**
     * The message under the corporation-number field: the schema error once
     * the field has been validated and its value breaks a rule, otherwise the
     * lookup's error.
     */
    function ShownCorporationError(): (shown: Option<string>)
      reads this, validator
      ensures !corporationValidated ==> shown == validator.validationError
      ensures corporationValidated && CorporationNumberError(values.corporationNumber).Some? ==>
        shown == CorporationNumberError(values.corporationNumber)
      ensures corporationValidated && CorporationNumberError(values.corporationNumber).None? ==>
        shown == validator.validationError
    {
      CorporationFieldErrorPrecedence(values.corporationNumber, validator.validationError);
      var schemaError := if corporationValidated then Validate(values).corporationNumber else None;
      CorporationFieldError(schemaError, validator.validationError)
    }

    /** The submit button's state in the rendered form. */
    function SubmitButtonDisabled(): (disabled: bool)
      reads validator, submission
      ensures submission.isSubmitting ==> disabled
      ensures validator.isValidating ==> disabled
    {
      SubmitDisabled(submission.isSubmitting, validator.isValidating)
    }
  }

  /**
   * A fresh form shows no error under the corporation-number field: the
   * lookup hook's first render leaves no error, and nothing schema-side is
   * shown yet. For a `Form` this follows from its constructor, which leaves
   * the field unvalidated with `validator.State() == Mount("", false)`, and
   * from `ShownCorporationError`, which then shows only the lookup's error.
   */
  lemma FreshFormShowsNoCorporationError()
    ensures Mount("", false).validationError == None
    ensures CorporationFieldError(None, Mount("", false).validationError) == None
  {
  }
}
