/** The request middleware's authentication rule: the user found in the
    session cookies is recorded for the page, an anonymous request for a
    path outside the public list is sent to the login page, and a signed-in
    request for one of the two auth pages is sent to the dashboard. Reading
    the session is left to the caller: the user it finds is a parameter. */
module Middleware {
  import opened Optional

  /** The paths an anonymous request may reach, compared as whole strings. */
  const PublicPaths: seq<string> := ["/", "/auth/login", "/auth/register", "/api/auth/login", "/api/auth/register", "/api/auth/logout"]

  /** The pages a signed-in user is sent away from. */
  const AuthPages: set<string> := {"/auth/login", "/auth/register"}

  const LoginPage := "/auth/login"
  const Dashboard := "/dashboard"

  /** The user the session yields; its e-mail may be absent. */
  datatype SessionUser = SessionUser(id: string, email: Option<string>)

  /** The user recorded for the page. */
  datatype LocalsUser = LocalsUser(id: string, email: string)

  datatype Decision = RedirectTo(location: string) | Next

  /** The recorded user: present exactly when the session has one, with an
      absent (or empty) e-mail recorded as the empty string. */
  function Locals(user: Option<SessionUser>): (r: Option<LocalsUser>)
    ensures r.Some? <==> user.Some?
    ensures user.Some? ==> r.value.id == user.value.id
    ensures user.Some? && user.value.email.Some? ==> r.value.email == user.value.email.value
    ensures user.Some? && user.value.email.None? ==> r.value.email == ""
  {
    match user
    case None => None
    case Some(u) => Some(LocalsUser(u.id, match u.email case Some(e) => e case None => ""))
  }

  /** The redirect decision for a signed-in or anonymous request to `path`. */
  function Decide(signedIn: bool, path: string): (d: Decision)
    ensures d == RedirectTo(LoginPage) <==> !signedIn && path !in PublicPaths
    ensures d == RedirectTo(Dashboard) <==> signedIn && path in AuthPages
    ensures d.Next? <==> (signedIn || path in PublicPaths) && !(signedIn && path in AuthPages)
  {
    if !signedIn && path !in PublicPaths then RedirectTo(LoginPage)
    else if signedIn && (path == "/auth/login" || path == "/auth/register") then RedirectTo(Dashboard)
    else Next
  }

  /** `onRequest` without its I/O: what is recorded and where the request goes. */
  function OnRequest(user: Option<SessionUser>, path: string): (r: (Option<LocalsUser>, Decision))
    ensures r.0.Some? <==> user.Some?
    ensures r.0.Some? ==> r.0.value.id == user.value.id
    ensures r.1 == RedirectTo(LoginPage) <==> user.None? && path !in PublicPaths
    ensures r.1 == RedirectTo(Dashboard) <==> user.Some? && path in AuthPages
    ensures r.1.Next? ==> path in PublicPaths || user.Some?
  {
    (Locals(user), Decide(user.Some?, path))
  }

  /** Only public paths reach an anonymous request's handler, and the auth
      pages never reach a signed-in one. */
  lemma NextIsGuarded(signedIn: bool, path: string)
    ensures Decide(signedIn, path).Next? && !signedIn ==> path in PublicPaths
    ensures Decide(signedIn, path).Next? && signedIn ==> path != LoginPage && path != "/auth/register"
  {
  }

  /** Membership is exact: a trailing slash or an unlisted API path is not public. */
  lemma PublicMembershipIsExact()
    ensures "/auth/login/" !in PublicPaths
    ensures "/api/flats" !in PublicPaths
    ensures "/dashboard" !in PublicPaths
    ensures Decide(false, "/auth/login/") == RedirectTo(LoginPage)
    ensures Decide(false, "/api/flats") == RedirectTo(LoginPage)
  {
  }

  /** A signed-in request to the landing page or to the auth API goes through. */
  lemma SignedInPublicPathsProceed(path: string)
    requires path in PublicPaths && path !in AuthPages
    ensures Decide(true, path) == Next
    ensures Decide(false, path) == Next
  {
  }

  /** A redirect never leads to another redirect: the login page is public
      and the dashboard is not an auth page. */
  lemma RedirectTargetIsFinal(signedIn: bool, path: string)
    requires Decide(signedIn, path).RedirectTo?
    ensures Decide(signedIn, Decide(signedIn, path).location) == Next
  {
    assert LoginPage == PublicPaths[1];
  }
}
