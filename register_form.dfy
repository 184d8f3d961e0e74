/** The register form's client-side rules: the shared e-mail rule, a
    password of at least 8 characters, and a confirmation equal to the
    password. Only the e-mail and the password are sent. */
module RegisterForm {
  import opened Optional
  import opened Js
  import opened Email

  datatype RegisterFormData = RegisterFormData(email: string, password: string, confirmPassword: string)

  /** The minimum password length the form, the route and the store agree on. */
  const MinPasswordLength: nat := 8

  /** An empty password is "required"; a short one is too short. */
  function PasswordError(password: string): (e: Option<string>)
    ensures e.None? <==> |password| >= MinPasswordLength
    ensures password == "" ==> e == Some("Password is required")
    ensures password != "" && |password| < MinPasswordLength ==> e == Some("Password must be at least 8 characters")
  {
    if password == "" then Some("Password is required")
    else if |password| < MinPasswordLength then Some("Password must be at least 8 characters")
    else None
  }

  /** An empty confirmation is asked for; otherwise it must equal the password. */
  function ConfirmError(password: string, confirmPassword: string): (e: Option<string>)
    ensures e.None? <==> confirmPassword != "" && confirmPassword == password
    ensures confirmPassword == "" ==> e == Some("Please confirm your password")
    ensures confirmPassword != "" && confirmPassword != password ==> e == Some("Passwords do not match")
  {
    if confirmPassword == "" then Some("Please confirm your password")
    else if password != confirmPassword then Some("Passwords do not match")
    else None
  }

  /** The errors object: one optional message per field. */
  datatype RegisterErrors = RegisterErrors(email: Option<string>, password: Option<string>, confirmPassword: Option<string>)
  {
    /** `Object.keys(errors).length === 0`. */
    predicate IsEmpty()
    {
      email.None? && password.None? && confirmPassword.None?
    }

    /** The object as the form state's errors map: the fields holding a message. */
    function AsMap(): (m: map<string, string>)
      ensures m.Keys <= {"email", "password", "confirmPassword"}
      ensures "email" in m <==> email.Some?
      ensures "password" in m <==> password.Some?
      ensures "confirmPassword" in m <==> confirmPassword.Some?
      ensures m == map[] <==> IsEmpty()
    {
      var m := if email.Some? then map["email" := email.value] else map[];
      var m := if password.Some? then m["password" := password.value] else m;
      var m := if confirmPassword.Some? then m["confirmPassword" := confirmPassword.value] else m;
      assert !IsEmpty() ==> "email" in m || "password" in m || "confirmPassword" in m;
      m
    }
  }

  /** `validateRegisterForm`: three independent field rules. */
  function ValidateRegisterForm(d: RegisterFormData): (errors: RegisterErrors)
    ensures errors.email.None? <==> IsEmailAddress(d.email)
    ensures errors.password.None? <==> |d.password| >= MinPasswordLength
    ensures errors.confirmPassword.None? <==> d.confirmPassword != "" && d.confirmPassword == d.password
    ensures errors.IsEmpty() <==> IsEmailAddress(d.email) && |d.password| >= MinPasswordLength && d.confirmPassword == d.password
  {
    RegisterErrors(FieldError(d.email), PasswordError(d.password), ConfirmError(d.password, d.confirmPassword))
  }

  /** The body sent on submit: the e-mail and the password, untrimmed; the
      confirmation stays in the browser. */
  function SubmissionBody(d: RegisterFormData): (body: JsValue)
    ensures body.Obj? && body.fields.Keys == {"email", "password"}
    ensures Get(body, "email") == Str(d.email) && Get(body, "password") == Str(d.password)
    ensures Get(body, "confirmPassword").Undefined?
  {
    Obj(map["email" := Str(d.email), "password" := Str(d.password)])
  }

  /** A mismatch is reported on the confirmation alone: the password's own
      entry depends only on the password. */
  lemma MismatchIsReportedOnConfirmation(d: RegisterFormData)
    requires IsEmailAddress(d.email) && |d.password| >= MinPasswordLength
    requires d.confirmPassword != "" && d.confirmPassword != d.password
    ensures ValidateRegisterForm(d) == RegisterErrors(None, None, Some("Passwords do not match"))
  {
  }

  /** The same password in both fields silences the confirmation rule and
      leaves the password rule alone. */
  lemma MatchingConfirmation(email: string, password: string)
    ensures ValidateRegisterForm(RegisterFormData(email, password, password)).confirmPassword.None?
            <==> password != ""
    ensures ValidateRegisterForm(RegisterFormData(email, password, password)).IsEmpty()
            <==> IsEmailAddress(email) && |password| >= MinPasswordLength
  {
  }
}
