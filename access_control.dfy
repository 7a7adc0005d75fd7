/**
 * The role policy evaluator: total functions from an optional session to a
 * capability answer, a denial message or a redirect path. A missing session,
 * a missing user and a missing or unrecognised role are all denied.
 */
module AccessControl {
  import opened Wrappers

  const GUEST := "guest"
  const HOST := "host"

  const HOST_CANNOT_BOOK := "Host accounts cannot book dinners. Switch to a guest account to make bookings."
  const MUST_BE_GUEST := "You must be logged in as a guest to book dinners."
  const GUEST_CANNOT_HOST := "Guest accounts cannot access the host dashboard. Switch to a host account or sign up as a host."
  const MUST_BE_HOST := "You must be logged in as a host to access the dashboard."

  const HOST_DASHBOARD := "/host/dashboard"
  const SIGN_IN := "/auth/signin"

  /** The part of a session the policy reads: `session.user`, which may be absent, with its optional role. */
  datatype SessionUser = SessionUser(role: Option<string>)
  datatype SessionLike = SessionLike(user: Option<SessionUser>)

  /** `session?.user?.role`. */
  function RoleOf(s: Option<SessionLike>): Option<string> {
    if s.Some? && s.value.user.Some? then s.value.user.value.role else None
  }

  /** `session?.user?.role === expected`, following the optional chain link by link. */
  predicate HasRole(s: Option<SessionLike>, expected: string) {
    match s
    case None => false
    case Some(session) =>
      match session.user
      case None => false
      case Some(user) => user.role == Some(expected)
  }

  /** Only guests can book dinners. */
  function CanBookDinners(s: Option<SessionLike>): (r: bool)
    ensures r <==> RoleOf(s) == Some(GUEST)
  {
    HasRole(s, GUEST)
  }

  /** Only hosts can create dinners. */
  function CanCreateDinners(s: Option<SessionLike>): (r: bool)
    ensures r <==> RoleOf(s) == Some(HOST)
  {
    HasRole(s, HOST)
  }

  /** Only hosts can open the host dashboard. */
  function CanAccessHostDashboard(s: Option<SessionLike>): (r: bool)
    ensures r <==> RoleOf(s) == Some(HOST)
  {
    HasRole(s, HOST)
  }

  /** The explanation shown when booking is refused: host-specific for hosts, a sign-in request otherwise. */
  function GetAccessDeniedMessage(s: Option<SessionLike>): (m: string)
    ensures m == HOST_CANNOT_BOOK <==> RoleOf(s) == Some(HOST)
    ensures m == MUST_BE_GUEST <==> RoleOf(s) != Some(HOST)
  {
    if HasRole(s, HOST) then HOST_CANNOT_BOOK else MUST_BE_GUEST
  }

  /** The explanation shown when the host dashboard is refused: guest-specific for guests, a sign-in request otherwise. */
  function GetAccessDeniedMessageForHostDashboard(s: Option<SessionLike>): (m: string)
    ensures m == GUEST_CANNOT_HOST <==> RoleOf(s) == Some(GUEST)
    ensures m == MUST_BE_HOST <==> RoleOf(s) != Some(GUEST)
  {
    if HasRole(s, GUEST) then GUEST_CANNOT_HOST else MUST_BE_HOST
  }

  /** Where a refused user is sent: the host dashboard for hosts, sign-in for everyone else. */
  function GetRoleBasedRedirect(s: Option<SessionLike>): (path: string)
    ensures path == HOST_DASHBOARD <==> RoleOf(s) == Some(HOST)
    ensures path == SIGN_IN <==> RoleOf(s) != Some(HOST)
  {
    if HasRole(s, HOST) then HOST_DASHBOARD else SIGN_IN
  }

  /**
   * Deny by default: no session grants both booking and the host area, and a
   * session without a role, or with any role other than "guest" and "host",
   * gets neither.
   */
  lemma DenyByDefault(s: Option<SessionLike>)
    ensures !(CanBookDinners(s) && CanAccessHostDashboard(s))
    ensures RoleOf(s) != Some(GUEST) && RoleOf(s) != Some(HOST) ==>
      !CanBookDinners(s) && !CanCreateDinners(s) && !CanAccessHostDashboard(s)
    ensures s.None? || s.value.user.None? ==>
      !CanBookDinners(s) && !CanCreateDinners(s) && !CanAccessHostDashboard(s)
  {
  }

  /** Creating dinners and opening the host dashboard are the same capability. */
  lemma CreateIffDashboard(s: Option<SessionLike>)
    ensures CanCreateDinners(s) == CanAccessHostDashboard(s)
  {
  }

  /** A refused user is sent to the host dashboard exactly when they may use it, and never when they may book. */
  lemma RedirectMatchesCapability(s: Option<SessionLike>)
    ensures GetRoleBasedRedirect(s) == HOST_DASHBOARD <==> CanAccessHostDashboard(s)
    ensures CanBookDinners(s) ==> GetRoleBasedRedirect(s) == SIGN_IN
    ensures CanBookDinners(s) ==> GetAccessDeniedMessageForHostDashboard(s) == GUEST_CANNOT_HOST
  {
  }
}
