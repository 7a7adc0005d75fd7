/** The generic guard: requires a session and, optionally, one specific role. */
module ProtectedRoute {
  import opened Wrappers
  import opened Text
  import opened AccessControl
  import opened GuardView

  const SIGN_UP := "/auth/signup"
  const HOME := "/"

  /** `redirectTo = "/auth/signin"`: the default applies only when the prop is not passed at all. */
  function RedirectTarget(redirectTo: Option<string>): string {
    if redirectTo.Some? then redirectTo.value else SIGN_IN
  }

  /** The effect: once loading is over, a caller without a session is sent to the redirect target. */
  function ProtectedEffect(v: AuthView, redirectTo: Option<string>): (nav: Option<string>)
    ensures nav.Some? <==> !v.loading && !v.hasSession
    ensures nav.Some? ==> nav.value == RedirectTarget(redirectTo)
    ensures redirectTo.None? && nav.Some? ==> nav.value == SIGN_IN
  {
    if !v.loading && !v.hasSession then Some(RedirectTarget(redirectTo)) else None
  }

  /**
   * The rendered screen: loading; without a session the fallback or the
   * sign-in/sign-up card; with a truthy required role that the user lacks,
   * the insufficient-permissions card; otherwise the protected content.
   */
  function ProtectedScreen(v: AuthView, hasFallback: bool, requiredRole: Option<string>): (s: Screen)
    ensures s == Loading <==> v.loading
    ensures s == Children <==>
      !v.loading && v.hasSession && (!Truthy(requiredRole) || v.role == requiredRole)
    ensures !v.loading && !v.hasSession ==>
      s == (if hasFallback then Fallback else AccessRestricted(SIGN_IN, SIGN_UP))
    ensures s.InsufficientPermissions? <==>
      !v.loading && v.hasSession && Truthy(requiredRole) && v.role != requiredRole
    ensures s.InsufficientPermissions? ==> s.buttonTarget == HOME
  {
    if v.loading then Loading
    else if !v.hasSession then (if hasFallback then Fallback else AccessRestricted(SIGN_IN, SIGN_UP))
    else if Truthy(requiredRole) && v.role != Some(requiredRole.value) then InsufficientPermissions(HOME)
    else Children
  }

  /**
   * With a required role of "guest" or "host", the content shows for the
   * same sessions the policy evaluator grants booking or the host area to.
   */
  lemma RequiredRoleMatchesPolicy(v: AuthView)
    requires !v.loading
    ensures ProtectedScreen(v, false, Some(GUEST)) == Children <==> CanBookDinners(MockSession(v))
    ensures ProtectedScreen(v, false, Some(HOST)) == Children <==> CanAccessHostDashboard(MockSession(v))
  {
  }
}
