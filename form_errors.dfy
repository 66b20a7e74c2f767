/**
 * The error map the validated step forms keep: field name to message. A
 * field shows an error when its entry is present and non-empty; editing a
 * field blanks its entry rather than deleting it.
 */
module FormErrors {

  /** `!!errors[field]`: the field has a non-empty message. */
  predicate HasError<F>(errors: map<F, string>, field: F) {
    field in errors && errors[field] != ""
  }

  /**
   * `if (errors[field]) setErrors({ ...errors, [field]: '' })`: a field that
   * shows an error gets an empty message, and nothing else changes.
   */
  function ClearError<F>(errors: map<F, string>, field: F): (r: map<F, string>)
    ensures r.Keys == errors.Keys
    ensures !HasError(r, field)
    ensures forall g | g in errors && g != field :: r[g] == errors[g]
    ensures !HasError(errors, field) ==> r == errors
  {
    if HasError(errors, field) then errors[field := ""] else errors
  }

  /** Every message a validation produces is non-empty, so each entry it makes shows. */
  predicate AllShown<F>(errors: map<F, string>) {
    forall g | g in errors :: errors[g] != ""
  }
}
