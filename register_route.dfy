/** The registration endpoint: a ladder of input checks, each ending the
    request with a 400, then the sign-up call, whose error message is mapped
    to a friendly text with 409 for a duplicate e-mail and 400 otherwise. */
module RegisterRoute {
  import opened Optional
  import opened Text
  import opened Js
  import opened Email
  import opened AuthApi
  import RegisterForm

  const AlreadyRegistered := "This email address is already registered."
  const InvalidEmail := "Please enter a valid email address."
  const ShortPassword := "Password must be at least 8 characters."
  const DefaultMessage := "An error occurred during registration. Please try again."
  const NoUserMessage := "Registration failed. Please try again."

  /** The service messages with a text of their own; the entry under
      "default" is the fallback, reachable by that exact message too. */
  const ErrorMessages: map<string, string> := map[
    "User already registered" := AlreadyRegistered,
    "Email already exists" := AlreadyRegistered,
    "Invalid email" := InvalidEmail,
    "Password should be at least 8 characters" := ShortPassword,
    "default" := DefaultMessage]

  /** The message, lower-cased, mentions "already" or "duplicate". */
  predicate DuplicateLike(message: string)
  {
    Contains(AsciiLower(message), "already") || Contains(AsciiLower(message), "duplicate")
  }

  /** `getUserFriendlyError`: a duplicate-like message is a duplicate e-mail;
      any other is looked up exactly, with the default text as the fallback. */
  function FriendlyError(message: string): (r: string)
    ensures r in ErrorMessages.Values
    ensures DuplicateLike(message) ==> r == AlreadyRegistered
    ensures !DuplicateLike(message) && message in ErrorMessages ==> r == ErrorMessages[message]
    ensures !DuplicateLike(message) && message !in ErrorMessages ==> r == DefaultMessage
  {
    assert ErrorMessages["default"] == DefaultMessage && ErrorMessages["User already registered"] == AlreadyRegistered;
    if DuplicateLike(message) then AlreadyRegistered
    else if message in ErrorMessages then ErrorMessages[message]
    else DefaultMessage
  }

  /** `password.length < 8` for the values that have a length. */
  predicate TooShort(password: JsValue)
  {
    (password.Str? && |password.s| < RegisterForm.MinPasswordLength)
    || (password.Arr? && |password.items| < RegisterForm.MinPasswordLength)
  }

  /** `emailRegex.test(email)`: the pattern is tried on the value's string
      form, so an array holding an address passes too. */
  predicate ValidEmail(email: JsValue)
  {
    StringForm(email).Converted? && IsEmailAddress(StringForm(email).text)
  }

  /** Converting the e-mail for the pattern throws, and the route's `catch`
      answers. */
  predicate EmailTestThrows(email: JsValue)
  {
    StringForm(email).Throws?
  }

  /** The body gets through every input check and reaches the service. */
  predicate PassesChecks(body: Option<JsValue>)
  {
    Destructurable(body) && HasCredentials(body.value)
    && ValidEmail(Get(body.value, "email")) && !TooShort(Get(body.value, "password"))
  }

  /** The reply to the service's answer. */
  function Respond(outcome: AuthOutcome): (r: Reply)
    ensures r.Accepted? <==> outcome.error.None? && outcome.user.Some?
    ensures r.Accepted? ==> r.user == outcome.user.value
    ensures outcome.error.Some? ==> r == Refused(if DuplicateLike(outcome.error.value) then 409 else 400,
                                                 FriendlyError(outcome.error.value))
    ensures outcome.error.None? && outcome.user.None? ==> r == Refused(400, NoUserMessage)
  {
    match outcome.error
    case Some(message) => Refused(if DuplicateLike(message) then 409 else 400, FriendlyError(message))
    case None =>
      match outcome.user
      case None => Refused(400, NoUserMessage)
      case Some(user) => Accepted(user)
  }

  /** `POST /api/auth/register`: the checks run in order and the first that
      fails decides the reply; only a body that passes them all is sent to
      `signUp`. */
  function Register(body: Option<JsValue>, signUp: (JsValue, JsValue) -> AuthOutcome): (r: Reply)
    ensures !Destructurable(body) ==> r == Refused(500, UnexpectedMessage)
    ensures Destructurable(body) && !HasCredentials(body.value) ==> r == Refused(400, RequiredMessage)
    ensures Destructurable(body) && HasCredentials(body.value) && EmailTestThrows(Get(body.value, "email"))
            ==> r == Refused(500, UnexpectedMessage)
    ensures Destructurable(body) && HasCredentials(body.value) && !EmailTestThrows(Get(body.value, "email"))
            && !ValidEmail(Get(body.value, "email"))
            ==> r == Refused(400, InvalidEmail)
    ensures Destructurable(body) && HasCredentials(body.value) && ValidEmail(Get(body.value, "email"))
            && TooShort(Get(body.value, "password"))
            ==> r == Refused(400, ShortPassword)
    ensures PassesChecks(body) ==> r == Respond(signUp(Get(body.value, "email"), Get(body.value, "password")))
  {
    match CommonChecks(body)
    case Some(reply) => reply
    case None =>
      var email := Get(body.value, "email");
      var password := Get(body.value, "password");
      if EmailTestThrows(email) then Refused(500, UnexpectedMessage)
      else if !ValidEmail(email) then Refused(400, InvalidEmail)
      else if TooShort(password) then Refused(400, ShortPassword)
      else Respond(signUp(email, password))
  }

  /** Lower-casing keeps an occurrence of a word written in lower case. */
  lemma LowerKeepsOccurrence(message: string, word: string, i: int)
    requires OccursAt(message, word, i)
    requires forall k :: 0 <= k < |word| ==> !('A' <= word[k] <= 'Z')
    ensures Contains(AsciiLower(message), word)
  {
    var lower := AsciiLower(message);
    assert lower[i..i + |word|] == word by {
      forall k | 0 <= k < |word| ensures lower[i + k] == word[k] {
        assert message[i + k] == message[i..i + |word|][k];
      }
    }
    assert OccursAt(lower, word, i);
  }

  /** Both messages that map to the duplicate text are themselves duplicate-like. */
  lemma DuplicateKeysAreDuplicateLike()
    ensures DuplicateLike("User already registered")
    ensures DuplicateLike("Email already exists")
  {
    var a := "User already registered";
    assert a[5..12] == "already";
    AlreadyMakesDuplicateLike(a, 5);
    var b := "Email already exists";
    assert b[6..13] == "already";
    AlreadyMakesDuplicateLike(b, 6);
  }

  /** A message with "already" in it, in lower case, is duplicate-like. */
  lemma AlreadyMakesDuplicateLike(message: string, i: int)
    requires 0 <= i && i + 7 <= |message| && message[i..i + 7] == "already"
    ensures DuplicateLike(message)
  {
    var word := "already";
    assert forall k :: 0 <= k < |word| ==> !('A' <= word[k] <= 'Z');
    LowerKeepsOccurrence(message, word, i);
  }

  /** A refused sign-up is a 409 exactly when its reply says the address is
      already registered: the duplicate text is reached by no other route. */
  lemma ConflictIffAlreadyRegistered(message: string)
    ensures FriendlyError(message) == AlreadyRegistered <==> DuplicateLike(message)
    ensures Respond(AuthOutcome(None, Some(message))).Status() == 409 <==> DuplicateLike(message)
  {
    DuplicateKeysAreDuplicateLike();
  }

  /** A message is looked up exactly: any change of case or wording that is
      not duplicate-like falls back to the default text. */
  lemma UnknownMessageFallsBack(message: string)
    requires !DuplicateLike(message) && message !in ErrorMessages
    ensures Respond(AuthOutcome(None, Some(message))) == Refused(400, DefaultMessage)
  {
  }

  /** Every service error is refused with 400 or 409, never accepted, and a
      user is accepted only when the service reports no error. */
  lemma ServiceErrorIsRefused(body: Option<JsValue>, signUp: (JsValue, JsValue) -> AuthOutcome)
    ensures Register(body, signUp).Accepted? ==> PassesChecks(body)
    ensures PassesChecks(body) && signUp(Get(body.value, "email"), Get(body.value, "password")).error.Some?
            ==> Register(body, signUp).Refused? && Register(body, signUp).Status() in {400, 409}
  {
  }

  /** A missing field is reported before anything else, whatever the service
      would have answered. */
  lemma MissingFieldComesFirst(fields: map<string, JsValue>, signUp: (JsValue, JsValue) -> AuthOutcome)
    requires "email" !in fields || !Truthy(fields["email"]) || "password" !in fields || !Truthy(fields["password"])
    ensures Register(Some(Obj(fields)), signUp) == Refused(400, RequiredMessage)
  {
  }

  /** What the register form submits after its own checks passes every check
      here and reaches the service unchanged. */
  lemma FormSubmissionReachesService(d: RegisterForm.RegisterFormData, signUp: (JsValue, JsValue) -> AuthOutcome)
    requires RegisterForm.ValidateRegisterForm(d).IsEmpty()
    ensures PassesChecks(Some(RegisterForm.SubmissionBody(d)))
    ensures Register(Some(RegisterForm.SubmissionBody(d)), signUp) == Respond(signUp(Str(d.email), Str(d.password)))
  {
    EmailAddressIsUnpadded(d.email);
  }

  /** An address wrapped in a one-item array gets through the format check,
      as its string form is the address itself, and reaches the service as
      the array. */
  lemma ArrayEmailReachesService(s: string, password: string, signUp: (JsValue, JsValue) -> AuthOutcome)
    requires IsEmailAddress(s) && |password| >= RegisterForm.MinPasswordLength
    ensures Register(Some(Obj(map["email" := Arr([Str(s)]), "password" := Str(password)])), signUp)
            == Respond(signUp(Arr([Str(s)]), Str(password)))
  {
    StringFormOfStrings(s);
    var body := Obj(map["email" := Arr([Str(s)]), "password" := Str(password)]);
    assert Get(body, "email") == Arr([Str(s)]) && Get(body, "password") == Str(password);
  }

  /** An object without an own `"toString"` key never passes the format
      check: its string form holds a space. */
  lemma ObjectEmailIsRefused(fields: map<string, JsValue>, password: JsValue, signUp: (JsValue, JsValue) -> AuthOutcome)
    requires "toString" !in fields && Truthy(password)
    ensures Register(Some(Obj(map["email" := Obj(fields), "password" := password])), signUp)
            == Refused(400, InvalidEmail)
  {
    var form := "[object Object]";
    assert StringForm(Obj(fields)) == Converted(form);
    assert IsSpace(form[7]);
    var body := Obj(map["email" := Obj(fields), "password" := password]);
    assert Get(body, "email") == Obj(fields) && Get(body, "password") == password;
  }

  /** An e-mail that is, or holds inside arrays, an object with an own
      `"toString"` key makes the pattern test throw, and the route answers
      with the generic 500. */
  lemma OwnToStringEmailIsUnexpected(email: JsValue, password: JsValue, signUp: (JsValue, JsValue) -> AuthOutcome)
    requires HoldsOwnToString(email) && Truthy(password)
    ensures Register(Some(Obj(map["email" := email, "password" := password])), signUp)
            == Refused(500, UnexpectedMessage)
  {
    ThrowsIffOwnToString(email);
    var body := Obj(map["email" := email, "password" := password]);
    assert Get(body, "email") == email && Get(body, "password") == password;
  }

  /** The two inputs that show it: an object with its own `"toString"`, and
      an address followed by such an object in an array. */
  lemma OwnToStringExamples(signUp: (JsValue, JsValue) -> AuthOutcome)
    ensures Register(Some(Obj(map["email" := Obj(map["toString" := Num(1.0)]), "password" := Str("longpassword")])), signUp)
            == Refused(500, UnexpectedMessage)
    ensures Register(Some(Obj(map["email" := Arr([Str("a@b.co"), Obj(map["toString" := Num(1.0)])]),
                                  "password" := Str("longpassword")])), signUp)
            == Refused(500, UnexpectedMessage)
  {
    var o := Obj(map["toString" := Num(1.0)]);
    OwnToStringEmailIsUnexpected(o, Str("longpassword"), signUp);
    var a := Arr([Str("a@b.co"), o]);
    assert HoldsOwnToString(a.items[1]);
    OwnToStringEmailIsUnexpected(a, Str("longpassword"), signUp);
  }
}
