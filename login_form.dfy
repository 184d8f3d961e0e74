/** The login form: the shared e-mail rule and a non-empty password, held in
    one state record whose change handlers clear only their own field's
    error and whose submit step either stores the validation errors or
    starts submitting. */
module LoginForm {
  import opened Optional
  import opened Js
  import opened Email
  import RegisterForm

  /** The errors `validateForm` returns: one optional message per field. */
  datatype LoginErrors = LoginErrors(email: Option<string>, password: Option<string>)
  {
    predicate IsEmpty()
    {
      email.None? && password.None?
    }
  }

  /** `validateForm`: unlike registration, any non-empty password passes. */
  function ValidateLogin(email: string, password: string): (errors: LoginErrors)
    ensures errors.email.None? <==> IsEmailAddress(email)
    ensures errors.email.Some? ==> errors.email == FieldError(email)
    ensures errors.password.None? <==> password != ""
    ensures errors.password.Some? ==> errors.password.value == "Password is required"
    ensures errors.IsEmpty() <==> IsEmailAddress(email) && password != ""
  {
    LoginErrors(FieldError(email), if password == "" then Some("Password is required") else None)
  }

  /** Every registration the register form lets through can be used to log in. */
  lemma RegisteredCredentialsPassLogin(d: RegisterForm.RegisterFormData)
    requires RegisterForm.ValidateRegisterForm(d).IsEmpty()
    ensures ValidateLogin(d.email, d.password).IsEmpty()
  {
  }

  /** The e-mail message is the same in both forms, and a password of 1 to 7
      characters is refused only by the register form. */
  lemma LoginIsLooserOnPasswords(email: string, password: string, confirm: string)
    requires 0 < |password| < RegisterForm.MinPasswordLength
    ensures ValidateLogin(email, password).password.None?
    ensures RegisterForm.ValidateRegisterForm(RegisterForm.RegisterFormData(email, password, confirm)).password
            == Some("Password must be at least 8 characters")
    ensures ValidateLogin(email, password).email
            == RegisterForm.ValidateRegisterForm(RegisterForm.RegisterFormData(email, password, confirm)).email
  {
  }

  /** The errors the form shows: the two fields' and the form-level one. A
      cleared field error is absent. */
  datatype ShownErrors = ShownErrors(email: Option<string>, password: Option<string>, form: Option<string>)

  const NoErrors := ShownErrors(None, None, None)

  /** `LoginFormState`: the two texts, the errors shown, and the submitting flag. */
  class LoginFormState {
    var email: string
    var password: string
    var errors: ShownErrors
    var isSubmitting: bool

    constructor()
      ensures email == "" && password == "" && errors == NoErrors && !isSubmitting
    {
      email := "";
      password := "";
      errors := NoErrors;
      isSubmitting := false;
    }

    /** `handleEmailChange`: the new e-mail, and its error (only) cleared. */
    method HandleEmailChange(value: string)
      modifies this
      ensures email == value && password == old(password) && isSubmitting == old(isSubmitting)
      ensures errors == old(errors).(email := None)
    {
      email := value;
      errors := errors.(email := None);
    }

    /** `handlePasswordChange`: the new password, and its error (only) cleared. */
    method HandlePasswordChange(value: string)
      modifies this
      ensures password == value && email == old(email) && isSubmitting == old(isSubmitting)
      ensures errors == old(errors).(password := None)
    {
      password := value;
      errors := errors.(password := None);
    }

    /** The synchronous part of `handleSubmit`: validation errors replace the
        stored errors as a whole (a form-level error is dropped) and nothing
        is sent; otherwise the errors are emptied and submitting starts. */
    method BeginSubmit() returns (send: bool)
      modifies this
      ensures unchanged(this`email, this`password)
      ensures send <==> IsEmailAddress(old(email)) && old(password) != ""
      ensures !send ==> && errors == ShownErrors(ValidateLogin(old(email), old(password)).email,
                                                 ValidateLogin(old(email), old(password)).password, None)
                        && isSubmitting == old(isSubmitting)
      ensures send ==> errors == NoErrors && isSubmitting
    {
      var found := ValidateLogin(email, password);
      if !found.IsEmpty() {
        errors := ShownErrors(found.email, found.password, None);
        send := false;
      } else {
        errors := NoErrors;
        isSubmitting := true;
        send := true;
      }
    }

    /** A refused request: the server's error, or a fixed text when it sent
        none, becomes the only error, and submitting stops. */
    method SubmissionRejected(serverError: Option<string>)
      modifies this
      ensures errors == ShownErrors(None, None, Some(if serverError.Some? && serverError.value != "" then serverError.value
                                                     else "Invalid email or password"))
      ensures !isSubmitting
      ensures email == old(email) && password == old(password)
    {
      var message := if serverError.Some? && serverError.value != "" then serverError.value else "Invalid email or password";
      errors := ShownErrors(None, None, Some(message));
      isSubmitting := false;
    }

    /** A request that could not complete. */
    method SubmissionFailed()
      modifies this
      ensures errors == ShownErrors(None, None, Some("An error occurred. Please try again."))
      ensures !isSubmitting
      ensures email == old(email) && password == old(password)
    {
      errors := ShownErrors(None, None, Some("An error occurred. Please try again."));
      isSubmitting := false;
    }
  }

  /** After the e-mail is edited, a submit that is refused shows the e-mail
      error again exactly when the new address is malformed. */
  method EditEmailThenSubmit(form: LoginFormState, value: string) returns (send: bool)
    modifies form
    ensures send <==> IsEmailAddress(value) && form.password != ""
    ensures !send ==> (form.errors.email.Some? <==> !IsEmailAddress(value))
  {
    form.HandleEmailChange(value);
    send := form.BeginSubmit();
  }
}
