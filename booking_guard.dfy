/** The guard in front of booking pages: only guests get through. */
module BookingGuard {
  import opened Wrappers
  import opened AccessControl
  import opened GuardView

  /**
   * The effect run after each render: nothing while loading; sign-in when
   * there is no session; otherwise the role-based redirect for anyone who
   * may not book.
   */
  function BookingEffect(v: AuthView): (nav: Option<string>)
    ensures v.loading ==> nav.None?
    ensures !v.loading && !v.hasSession ==> nav == Some(SIGN_IN)
    ensures !v.loading && v.hasSession ==> (nav.None? <==> v.role == Some(GUEST))
    ensures !v.loading && v.hasSession && v.role == Some(HOST) ==> nav == Some(HOST_DASHBOARD)
    ensures nav.Some? ==> nav.value == SIGN_IN || nav.value == HOST_DASHBOARD
  {
    if v.loading then None
    else if !v.hasSession then Some(SIGN_IN)
    else
      var mock := MockSession(v);
      if mock.Some? && !CanBookDinners(mock) then Some(GetRoleBasedRedirect(mock)) else None
  }

  /**
   * The rendered screen. The source's last branch (a loading screen after
   * all other cases) is kept; it is unreachable because `isAuthenticated`
   * and the presence of a session are the same fact.
   */
  function BookingScreen(v: AuthView, hasFallback: bool): (s: Screen)
    ensures s == Loading <==> v.loading
    ensures s == Children <==> !v.loading && v.hasSession && v.role == Some(GUEST)
    ensures !v.loading && !v.hasSession ==> s == RedirectingToSignIn
    ensures !v.loading && v.hasSession && v.role != Some(GUEST) ==>
      s == (if hasFallback then Fallback
            else Denied(GetAccessDeniedMessage(MockSession(v)), GetRoleBasedRedirect(MockSession(v))))
  {
    var isAuthenticated := v.hasSession;
    if v.loading then Loading
    else
      var mock := MockSession(v);
      if mock.Some? && !CanBookDinners(mock) then
        (if hasFallback then Fallback else Denied(GetAccessDeniedMessage(mock), GetRoleBasedRedirect(mock)))
      else if isAuthenticated && mock.Some? && CanBookDinners(mock) then Children
      else if !isAuthenticated then RedirectingToSignIn
      else Loading
  }

  /**
   * The guard's two outputs agree: whenever it shows a denial, its effect
   * already navigates to the denial's button target, and it never navigates
   * while showing the protected content.
   */
  lemma EffectMatchesScreen(v: AuthView, hasFallback: bool)
    ensures BookingScreen(v, false).Denied? ==> BookingEffect(v) == Some(BookingScreen(v, false).buttonTarget)
    ensures BookingScreen(v, hasFallback) == Children ==> BookingEffect(v).None?
    ensures BookingScreen(v, hasFallback) == RedirectingToSignIn ==> BookingEffect(v) == Some(SIGN_IN)
  {
  }
}
