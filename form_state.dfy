/** `useFormState`: four state cells that a form changes step by step. The
    form data is a record of text fields, modelled as a map from field name
    to value. The errors map may hold a field whose error has been cleared
    (`undefined` in the source, `None` here); such a field still counts as a
    key. */
module FormState {
  import opened Optional

  /** A validator's result as stored in the errors cell: every reported
      field with its message. */
  function Reported(messages: map<string, string>): (r: map<string, Option<string>>)
    ensures r.Keys == messages.Keys
    ensures forall k :: k in messages ==> r[k] == Some(messages[k])
  {
    map k | k in messages :: Some(messages[k])
  }

  /** The message shown for `field`, if any. */
  function Shown(errors: map<string, Option<string>>, field: string): Option<string>
  {
    if field in errors then errors[field] else None
  }

  class FormStateHook {
    var formData: map<string, string>
    var errors: map<string, Option<string>>
    var isSubmitting: bool
    var isSuccess: bool
    const initialData: map<string, string>
    const validator: map<string, string> -> map<string, string>

    /** The first render: the initial data, no errors, neither flag set. */
    constructor(initialData: map<string, string>, validator: map<string, string> -> map<string, string>)
      ensures this.initialData == initialData && this.validator == validator
      ensures formData == initialData && errors == map[]
      ensures !isSubmitting && !isSuccess
    {
      this.initialData := initialData;
      this.validator := validator;
      formData := initialData;
      errors := map[];
      isSubmitting := false;
      isSuccess := false;
    }

    /** `updateField`: the one field takes the new value and its error is
        cleared; every other field and error, and both flags, are kept. */
    method UpdateField(field: string, value: string)
      modifies this
      ensures formData == old(formData)[field := value]
      ensures errors == old(errors)[field := None]
      ensures Shown(errors, field).None?
      ensures forall f :: f != field ==> Shown(errors, f) == Shown(old(errors), f)
      ensures isSubmitting == old(isSubmitting) && isSuccess == old(isSuccess)
    {
      formData := formData[field := value];
      errors := errors[field := None];
    }

    /** `setErrors`: the errors cell is replaced as a whole. */
    method SetErrors(newErrors: map<string, Option<string>>)
      modifies this
      ensures errors == newErrors
      ensures formData == old(formData) && isSubmitting == old(isSubmitting) && isSuccess == old(isSuccess)
    {
      errors := newErrors;
    }

    method SetSubmitting(value: bool)
      modifies this
      ensures isSubmitting == value
      ensures formData == old(formData) && errors == old(errors) && isSuccess == old(isSuccess)
    {
      isSubmitting := value;
    }

    method SetSuccess(value: bool)
      modifies this
      ensures isSuccess == value
      ensures formData == old(formData) && errors == old(errors) && isSubmitting == old(isSubmitting)
    {
      isSuccess := value;
    }

    /** `validate`: the errors become exactly what the validator reports for
        the current data, and the answer is whether it reported nothing. */
    method Validate() returns (ok: bool)
      modifies this
      ensures errors == Reported(validator(formData))
      ensures ok <==> validator(formData) == map[]
      ensures ok <==> errors == map[]
      ensures formData == old(formData) && isSubmitting == old(isSubmitting) && isSuccess == old(isSuccess)
    {
      var found := validator(formData);
      errors := Reported(found);
      ok := |found.Keys| == 0;
      if !ok {
        var k :| k in found;
        assert k in errors;
      }
    }

    /** `reset`: back to the first render's state. */
    method Reset()
      modifies this
      ensures formData == initialData && errors == map[]
      ensures !isSubmitting && !isSuccess
    {
      formData := initialData;
      errors := map[];
      isSubmitting := false;
      isSuccess := false;
    }
  }

  /** Editing a field and then validating leaves the errors the validator
      reports: the edit's clearing is overwritten, not merged. */
  method EditThenValidate(form: FormStateHook, field: string, value: string) returns (ok: bool)
    modifies form
    ensures form.formData == old(form.formData)[field := value]
    ensures form.errors == Reported(form.validator(old(form.formData)[field := value]))
    ensures ok <==> form.errors == map[]
  {
    form.UpdateField(field, value);
    ok := form.Validate();
  }
}
