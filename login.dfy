/** The sign-in page: where a successful sign-in leads. */
module Login {
  import opened Wrappers
  import opened Text
  import Auth

  /**
   * `from || (role ? getRedirectPath(role) : "/dashboard")`: the page the user
   * was sent away from, else the landing path of `role`, else the dashboard.
   * The delayed redirect reads `role` from the render the submit handler belongs
   * to, not from the auth state after the sign-in.
   */
  function RedirectTarget(from: Option<string>, role: Option<string>): (r: string)
    ensures Truthy(from) ==> r == from.value
    ensures !Truthy(from) && Truthy(role) ==> r == Auth.GetRedirectPath(role.value)
    ensures !Truthy(from) && !Truthy(role) ==> r == "/dashboard"
  {
    Or(from, Some(if Truthy(role) then Auth.GetRedirectPath(role.value) else "/dashboard")).value
  }

  /** Without a saved page, a signed-in user lands on one of the two home areas, the admin one only for admins. */
  lemma TargetWithoutFrom(from: Option<string>, role: Option<string>)
    requires !Truthy(from)
    ensures RedirectTarget(from, role) == "/admin" || RedirectTarget(from, role) == "/dashboard"
    ensures RedirectTarget(from, role) == "/admin" <==> role == Some(Auth.AdminRole)
  {
  }

  /** What `handleSubmit` does: the navigation it schedules, the error it shows, and the final loading flag. */
  datatype LoginOutcome = LoginOutcome(navigateTo: Option<string>, errorMessage: Option<string>, loading: bool)

  /** `renderRole` is the role `useAuth` reported when the page rendered the form that was submitted. */
  function HandleSubmit(response: Auth.AuthResponse, from: Option<string>, renderRole: Option<string>): (o: LoginOutcome)
    ensures o.navigateTo.Some? <==> response.WithUser?
    ensures o.navigateTo.Some? ==> o.navigateTo.value == RedirectTarget(from, renderRole)
    ensures o.errorMessage.Some? <==> response.AuthError?
    ensures response.AuthError? ==> o.errorMessage.value == response.message
    ensures !o.loading
  {
    match response
    case AuthError(message) => LoginOutcome(None, Some(message), false)
    case NoUser => LoginOutcome(None, None, false)
    case WithUser(_) => LoginOutcome(Some(RedirectTarget(from, renderRole)), None, false)
  }

  /**
   * A visitor who is signed out when the form renders has no role yet, so a
   * successful sign-in without a saved page goes to /dashboard, administrators included.
   */
  lemma SignedOutRenderGoesToDashboard(response: Auth.AuthResponse, from: Option<string>)
    requires response.WithUser? && !Truthy(from)
    ensures HandleSubmit(response, from, None).navigateTo == Some("/dashboard")
  {
  }
}
