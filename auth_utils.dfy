/** Post-login landing decisions over the same session shape as the policy evaluator. */
module AuthUtils {
  import opened Wrappers
  import opened AccessControl

  const HOME := "/"

  /** `!session?.user`: no session, or a session without a user. */
  predicate NoUser(s: Option<SessionLike>) {
    s.None? || s.value.user.None?
  }

  /** Where to land after login: hosts to their dashboard, everyone else (and no session) to the home page. */
  function GetRedirectUrl(s: Option<SessionLike>): (path: string)
    ensures NoUser(s) ==> path == HOME
    ensures path == HOST_DASHBOARD <==> RoleOf(s) == Some(HOST)
    ensures path == HOME <==> RoleOf(s) != Some(HOST)
  {
    if NoUser(s) then HOME
    else if s.value.user.value.role == Some(HOST) then HOST_DASHBOARD
    else HOME
  }

  /** Whether the landing page is the host dashboard. */
  function ShouldRedirectToDashboard(s: Option<SessionLike>): (r: bool)
    ensures r <==> RoleOf(s) == Some(HOST)
  {
    HasRole(s, HOST)
  }

  /** The two landing decisions agree, and agree with the host capability of the policy evaluator. */
  lemma DashboardDecisionsAgree(s: Option<SessionLike>)
    ensures ShouldRedirectToDashboard(s) <==> GetRedirectUrl(s) == HOST_DASHBOARD
    ensures ShouldRedirectToDashboard(s) == CanAccessHostDashboard(s)
  {
  }
}
