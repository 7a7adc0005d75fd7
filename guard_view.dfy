/**
 * What the route guards read from the authentication context, and the
 * screens they can render.
 */
module GuardView {
  import opened Wrappers
  import opened AccessControl
  import AuthContext

  /**
   * The context as a guard sees it: still loading, whether there is a
   * session (`isAuthenticated` is `!!session`), and `user?.role`.
   */
  datatype AuthView = AuthView(loading: bool, hasSession: bool, role: Option<string>)

  /** The guard's view of the context's three state variables. */
  function ViewOf(session: Option<AuthContext.Session>, user: Option<AuthContext.ContextUser>, loading: bool): (v: AuthView)
    ensures v.loading == loading && v.hasSession == session.Some?
    ensures v.role == (if user.Some? then user.value.role else None)
  {
    AuthView(loading, session.Some?, if user.Some? then user.value.role else None)
  }

  /**
   * `session ? { user: { ...user, role: user?.role } } : null`: the session
   * shape the policy evaluator takes; its user is always present, even when
   * the context has no profile yet.
   */
  function MockSession(v: AuthView): (s: Option<SessionLike>)
    ensures s.Some? <==> v.hasSession
    ensures v.hasSession ==> RoleOf(s) == v.role
  {
    if v.hasSession then Some(SessionLike(Some(SessionUser(v.role)))) else None
  }

  /** The screens a guard renders. */
  datatype Screen =
    | Loading
    | RedirectingToSignIn
    | Denied(message: string, buttonTarget: string)
    | Fallback
    | Children
    | AccessRestricted(signInTarget: string, signUpTarget: string)
    | InsufficientPermissions(buttonTarget: string)
}
