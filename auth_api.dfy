/** What the two auth routes share: the parsed request body, the answer of
    the authentication service, and the JSON replies. Reading the body and
    calling the service are left to the caller: a body that is not JSON is
    `None`, and the service is a function parameter of each route. */
module AuthApi {
  import opened Optional
  import opened Js

  /** The user the authentication service returns. */
  datatype AuthUser = AuthUser(id: string, email: Option<string>)

  /** The service's `{ data: { user }, error }`: an error carries its message. */
  datatype AuthOutcome = AuthOutcome(user: Option<AuthUser>, error: Option<string>)

  /** A reply: a failure with its status and `error` text, or a 200 success
      carrying the user. */
  datatype Reply = Refused(status: int, error: string) | Accepted(user: AuthUser)
  {
    function Status(): (s: int)
      ensures Refused? ==> s == status
      ensures Accepted? ==> s == 200
    {
      if Refused? then status else 200
    }
  }

  const RequiredMessage := "Email and password are required."
  const UnexpectedMessage := "An unexpected error occurred. Please try again."

  /** Destructuring `{ email, password }` throws on a body that is `null`,
      and reading the body throws on text that is not JSON. */
  predicate Destructurable(body: Option<JsValue>)
  {
    body.Some? && !body.value.Null? && !body.value.Undefined?
  }

  /** Both fields are truthy. */
  predicate HasCredentials(body: JsValue)
  {
    Truthy(Get(body, "email")) && Truthy(Get(body, "password"))
  }

  /** The steps both routes begin with: a body that cannot be destructured
      is the generic 500, and a missing field is a 400. `None` means the
      route goes on. */
  function CommonChecks(body: Option<JsValue>): (r: Option<Reply>)
    ensures r.None? <==> Destructurable(body) && HasCredentials(body.value)
    ensures !Destructurable(body) ==> r == Some(Refused(500, UnexpectedMessage))
    ensures Destructurable(body) && !HasCredentials(body.value) ==> r == Some(Refused(400, RequiredMessage))
  {
    if !Destructurable(body) then Some(Refused(500, UnexpectedMessage))
    else if !HasCredentials(body.value) then Some(Refused(400, RequiredMessage))
    else None
  }
}
