/** The guard in front of the host area: only hosts get through; it never navigates on its own. */
module HostGuard {
  import opened Wrappers
  import opened AccessControl
  import opened GuardView

  const HOME := "/"

  /** The rendered screen: loading, a denial with a button home, or the protected content. */
  function HostScreen(v: AuthView): (s: Screen)
    ensures s == Loading <==> v.loading
    ensures s == Children <==> !v.loading && v.hasSession && v.role == Some(HOST)
    ensures s.Denied? ==> s.buttonTarget == HOME
    ensures s.Denied? ==> (s.message == GUEST_CANNOT_HOST <==> v.hasSession && v.role == Some(GUEST))
    ensures s == Loading || s == Children || s.Denied?
  {
    var mock := MockSession(v);
    if v.loading then Loading
    else if !CanAccessHostDashboard(mock) then Denied(GetAccessDeniedMessageForHostDashboard(mock), HOME)
    else Children
  }

  /** The host area opens for exactly the sessions the policy evaluator lets create dinners. */
  lemma HostScreenMatchesPolicy(v: AuthView)
    requires !v.loading
    ensures HostScreen(v) == Children <==> CanCreateDinners(MockSession(v))
  {
  }
}
