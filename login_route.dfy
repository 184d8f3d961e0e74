/** The login endpoint: a missing field is a 400, every refusal by the
    authentication service is a 401 with a friendly text looked up exactly
    by the service's message, and a sign-in without a user is a 401 too. */
module LoginRoute {
  import opened Optional
  import opened Js
  import opened Email
  import opened AuthApi
  import LoginForm
  import RegisterRoute

  const WrongCredentials := "The email or password you entered is incorrect."
  const NotConfirmed := "Please verify your email address before logging in."
  const DefaultMessage := "An error occurred during login. Please try again."
  const NoUserMessage := "Login failed. Please try again."

  /** The service messages with a text of their own; the entry under
      "default" is the fallback, reachable by that exact message too. */
  const ErrorMessages: map<string, string> := map[
    "Invalid login credentials" := WrongCredentials,
    "Email not confirmed" := NotConfirmed,
    "User not found" := WrongCredentials,
    "default" := DefaultMessage]

  /** `getUserFriendlyError`: an exact lookup with the default text as the fallback. */
  function FriendlyError(message: string): (r: string)
    ensures r in ErrorMessages.Values
    ensures message in ErrorMessages ==> r == ErrorMessages[message]
    ensures message !in ErrorMessages ==> r == DefaultMessage
  {
    assert ErrorMessages["default"] == DefaultMessage;
    if message in ErrorMessages then ErrorMessages[message] else DefaultMessage
  }

  /** The reply to the service's answer: every failure is a 401. */
  function Respond(outcome: AuthOutcome): (r: Reply)
    ensures r.Accepted? <==> outcome.error.None? && outcome.user.Some?
    ensures r.Accepted? ==> r.user == outcome.user.value
    ensures r.Refused? ==> r.status == 401
    ensures outcome.error.Some? ==> r == Refused(401, FriendlyError(outcome.error.value))
    ensures outcome.error.None? && outcome.user.None? ==> r == Refused(401, NoUserMessage)
  {
    match outcome.error
    case Some(message) => Refused(401, FriendlyError(message))
    case None =>
      match outcome.user
      case None => Refused(401, NoUserMessage)
      case Some(user) => Accepted(user)
  }

  /** `POST /api/auth/login`: the fields are passed to `signIn` as they came,
      without any format check of their own. */
  function Login(body: Option<JsValue>, signIn: (JsValue, JsValue) -> AuthOutcome): (r: Reply)
    ensures !Destructurable(body) ==> r == Refused(500, UnexpectedMessage)
    ensures Destructurable(body) && !HasCredentials(body.value) ==> r == Refused(400, RequiredMessage)
    ensures Destructurable(body) && HasCredentials(body.value)
            ==> r == Respond(signIn(Get(body.value, "email"), Get(body.value, "password")))
    ensures r.Status() in {200, 400, 401, 500}
  {
    match CommonChecks(body)
    case Some(reply) => reply
    case None => Respond(signIn(Get(body.value, "email"), Get(body.value, "password")))
  }

  /** An unknown account and a wrong password read the same. */
  lemma UnknownUserLooksLikeWrongPassword()
    ensures FriendlyError("Invalid login credentials") == FriendlyError("User not found") == WrongCredentials
    ensures FriendlyError("Email not confirmed") != WrongCredentials
  {
  }

  /** A message with no entry of its own gets the default text. */
  lemma UnmappedMessageFallsBack(message: string)
    requires message !in ErrorMessages || message == "default"
    ensures Respond(AuthOutcome(None, Some(message))) == Refused(401, DefaultMessage)
  {
  }

  /** Every refusal carries a non-empty text, so the login form shows the
      route's own words rather than its fallback. */
  lemma RefusalsCarryText(body: Option<JsValue>, signIn: (JsValue, JsValue) -> AuthOutcome)
    ensures Login(body, signIn).Refused? ==> Login(body, signIn).error != ""
  {
    var r := Login(body, signIn);
    if r.Refused? && Destructurable(body) && HasCredentials(body.value) {
      var outcome := signIn(Get(body.value, "email"), Get(body.value, "password"));
      if outcome.error.Some? {
        assert r.error in ErrorMessages.Values;
      }
    }
  }

  /** What the login form submits after its own checks reaches the service
      unchanged. */
  lemma FormSubmissionReachesService(email: string, password: string, signIn: (JsValue, JsValue) -> AuthOutcome)
    requires LoginForm.ValidateLogin(email, password).IsEmpty()
    ensures Login(Some(Obj(map["email" := Str(email), "password" := Str(password)])), signIn)
            == Respond(signIn(Str(email), Str(password)))
  {
    EmailAddressIsUnpadded(email);
  }

  /** Every body that gets through the register checks gets through the
      login checks; a short password reaches the login service but not the
      sign-up service. */
  lemma LoginChecksAreLooser(body: Option<JsValue>, signIn: (JsValue, JsValue) -> AuthOutcome)
    ensures RegisterRoute.PassesChecks(body)
            ==> Login(body, signIn) == Respond(signIn(Get(body.value, "email"), Get(body.value, "password")))
  {
  }

  /** A password of 1 to 7 characters with a valid address: the register
      route refuses it itself, the login route asks the service. */
  lemma ShortPasswordOnlyStopsRegistration(email: string, password: string,
                                           signUp: (JsValue, JsValue) -> AuthOutcome,
                                           signIn: (JsValue, JsValue) -> AuthOutcome)
    requires IsEmailAddress(email) && 0 < |password| < 8
    ensures RegisterRoute.Register(Some(Obj(map["email" := Str(email), "password" := Str(password)])), signUp)
            == Refused(400, RegisterRoute.ShortPassword)
    ensures Login(Some(Obj(map["email" := Str(email), "password" := Str(password)])), signIn)
            == Respond(signIn(Str(email), Str(password)))
  {
    EmailAddressIsUnpadded(email);
  }
}
