/**
 * The header's account menu: what a visitor, a guest and a host are offered,
 * the label and avatar letter shown for the user, and where each entry leads.
 */
module Header {
  import opened Wrappers
  import opened Text
  import opened Tabs
  import AccessControl
  import AuthContext

  const DASHBOARD := "/host/dashboard"
  const PROFILE := "/profile"
  const HELP_CENTER := "/help-center"
  const SIGN_UP := "/auth/signup"
  const SIGN_IN := "/auth/signin"
  const SETTINGS_TAB := "settings"

  /** A menu entry: the user's label, a link, a separator, or the logout entry. */
  datatype MenuItem = Heading(text: Option<string>) | Link(title: string, target: string) | Separator | Logout

  /** `user.name || user.email`. */
  function UserLabel(user: AuthContext.ContextUser): (shown: Option<string>)
    ensures Truthy(user.name) ==> shown == user.name
    ensures !Truthy(user.name) ==> shown == user.email
  {
    if Truthy(user.name) then user.name else user.email
  }

  /** `user?.name ? user.name.charAt(0).toUpperCase() : <icon>`: the avatar letter, or none for the icon. */
  function AvatarLetter(user: Option<AuthContext.ContextUser>): (letter: Option<char>)
    ensures letter.Some? <==> user.Some? && Truthy(user.value.name)
    ensures letter.Some? ==> letter.value == UpperChar(user.value.name.value[0])
    ensures letter.Some? ==> !('a' <= letter.value <= 'z')
  {
    if user.Some? && Truthy(user.value.name) then Some(UpperChar(user.value.name.value[0])) else None
  }

  /** The host's entries: the dashboard and three of its tabs. */
  const HOST_ENTRIES: seq<MenuItem> := [
    Link("Host Dashboard", "/host/dashboard"),
    Link("My Dinners", "/host/dashboard?tab=dinners"),
    Link("Bookings", "/host/dashboard?tab=bookings"),
    Link("Reviews", "/host/dashboard?tab=reviews")
  ]

  /** Everyone else's entries: the profile and two of its tabs. */
  const GUEST_ENTRIES: seq<MenuItem> := [
    Link("My Profile", "/profile"),
    Link("My bookings", "/profile?tab=bookings"),
    Link("My reviews", "/profile?tab=reviews")
  ]

  /** The settings entry's target: the dashboard's settings tab for a host, the profile's otherwise. */
  function SettingsTarget(role: Option<string>): (target: string)
    ensures role == Some(AccessControl.HOST) ==> target == TabUrl(DASHBOARD, SETTINGS_TAB)
    ensures role != Some(AccessControl.HOST) ==> target == TabUrl(PROFILE, SETTINGS_TAB)
  {
    if role == Some(AccessControl.HOST) then "/host/dashboard?tab=settings" else "/profile?tab=settings"
  }

  /** The entries after the role's entries: help, settings and logout. */
  function MenuTail(settings: string): seq<MenuItem> {
    [Separator, Link("Help Center", HELP_CENTER), Link("Settings", settings), Logout]
  }

  /** No guest entry appears in a host's menu. */
  lemma HostMenuHasNoGuestEntry(shown: Option<string>, settings: string)
    ensures forall e | e in GUEST_ENTRIES :: e !in ([Heading(shown)] + HOST_ENTRIES + MenuTail(settings))
  {
    forall e | e in GUEST_ENTRIES
      ensures e !in ([Heading(shown)] + HOST_ENTRIES + MenuTail(settings))
    {
      assert e.Link? && e.title[..3] == "My ";
    }
  }

  /** No host entry appears in a guest's menu. */
  lemma GuestMenuHasNoHostEntry(shown: Option<string>, settings: string)
    ensures forall e | e in HOST_ENTRIES :: e !in ([Heading(shown)] + GUEST_ENTRIES + MenuTail(settings))
  {
    forall e | e in HOST_ENTRIES
      ensures e !in ([Heading(shown)] + GUEST_ENTRIES + MenuTail(settings))
    {
      assert e.Link? && e.target[..6] == "/host/";
    }
  }

  /**
   * The menu: for a signed-in user, the label, the role's entries, help,
   * settings and logout; for anyone else, sign up, log in and help.
   */
  function Menu(isAuthenticated: bool, user: Option<AuthContext.ContextUser>): (items: seq<MenuItem>)
    ensures Link("Help Center", HELP_CENTER) in items
    ensures Logout in items <==> isAuthenticated && user.Some?
    ensures !(isAuthenticated && user.Some?) ==>
      items == [Link("Sign up", SIGN_UP), Link("Log in", SIGN_IN), Separator, Link("Help Center", HELP_CENTER)]
    ensures isAuthenticated && user.Some? ==>
      |items| == (if user.value.role == Some(AccessControl.HOST) then 9 else 8)
    ensures isAuthenticated && user.Some? && user.value.role == Some(AccessControl.HOST) ==>
      items[1..5] == HOST_ENTRIES && forall e | e in GUEST_ENTRIES :: e !in items
    ensures isAuthenticated && user.Some? && user.value.role != Some(AccessControl.HOST) ==>
      items[1..4] == GUEST_ENTRIES && forall e | e in HOST_ENTRIES :: e !in items
    ensures isAuthenticated && user.Some? ==>
      items[0] == Heading(UserLabel(user.value)) && Link("Settings", SettingsTarget(user.value.role)) in items
  {
    if isAuthenticated && user.Some? then
      var u := user.value;
      var entries := if u.role == Some(AccessControl.HOST) then HOST_ENTRIES else GUEST_ENTRIES;
      var items := [Heading(UserLabel(u))] + entries + MenuTail(SettingsTarget(u.role));
      assert items[|entries| + 2] == Link("Help Center", HELP_CENTER);
      assert items[|entries| + 3] == Link("Settings", SettingsTarget(u.role));
      assert items[|entries| + 4] == Logout;
      if u.role == Some(AccessControl.HOST) then
        HostMenuHasNoGuestEntry(UserLabel(u), SettingsTarget(u.role));
        items
      else
        GuestMenuHasNoHostEntry(UserLabel(u), SettingsTarget(u.role));
        items
    else
      [Link("Sign up", SIGN_UP), Link("Log in", SIGN_IN), Separator, Link("Help Center", HELP_CENTER)]
  }

  /** The host's tab entries are the URLs the dashboard writes for those tabs. */
  lemma HostEntriesAreTabUrls()
    ensures HOST_ENTRIES[0].target == TabUrl(DASHBOARD, OVERVIEW)
    ensures HOST_ENTRIES[1].target == TabUrl(DASHBOARD, "dinners")
    ensures HOST_ENTRIES[2].target == TabUrl(DASHBOARD, "bookings")
    ensures HOST_ENTRIES[3].target == TabUrl(DASHBOARD, "reviews")
  {
    assert "dinners" != OVERVIEW && "bookings" != OVERVIEW && "reviews" != OVERVIEW;
  }

  /** The guest's tab entries are the URLs the profile page writes for those tabs. */
  lemma GuestEntriesAreTabUrls()
    ensures GUEST_ENTRIES[0].target == TabUrl(PROFILE, OVERVIEW)
    ensures GUEST_ENTRIES[1].target == TabUrl(PROFILE, "bookings")
    ensures GUEST_ENTRIES[2].target == TabUrl(PROFILE, "reviews")
  {
    assert "bookings" != OVERVIEW && "reviews" != OVERVIEW;
  }

  /**
   * Each tab entry of the menu opens the tab it names: the page reads the
   * tab back from the entry's target, and the bare page opens on the overview.
   */
  lemma EntriesOpenTheirTabs(i: int, j: int)
    requires 0 <= i < |HOST_ENTRIES| && 0 <= j < |GUEST_ENTRIES|
    ensures InitialTab(TabParamOf(DASHBOARD, HOST_ENTRIES[i].target)) ==
      [OVERVIEW, "dinners", "bookings", "reviews"][i]
    ensures InitialTab(TabParamOf(PROFILE, GUEST_ENTRIES[j].target)) == [OVERVIEW, "bookings", "reviews"][j]
  {
    HostEntriesAreTabUrls();
    GuestEntriesAreTabUrls();
    TabUrlRoundTrip(DASHBOARD, [OVERVIEW, "dinners", "bookings", "reviews"][i]);
    TabUrlRoundTrip(PROFILE, [OVERVIEW, "bookings", "reviews"][j]);
  }

  /** The settings entry opens the settings tab of the page it leads to. */
  lemma SettingsOpensSettingsTab(role: Option<string>)
    ensures role == Some(AccessControl.HOST) ==> InitialTab(TabParamOf(DASHBOARD, SettingsTarget(role))) == SETTINGS_TAB
    ensures role != Some(AccessControl.HOST) ==> InitialTab(TabParamOf(PROFILE, SettingsTarget(role))) == SETTINGS_TAB
  {
    TabUrlRoundTrip(DASHBOARD, SETTINGS_TAB);
    TabUrlRoundTrip(PROFILE, SETTINGS_TAB);
  }

  /** The host entries are offered exactly to the users the policy lets into the host dashboard. */
  lemma HostEntriesFollowPolicy(user: AuthContext.ContextUser)
    ensures HOST_ENTRIES[0] in Menu(true, Some(user)) <==>
      AccessControl.CanAccessHostDashboard(Some(AccessControl.SessionLike(Some(AccessControl.SessionUser(user.role)))))
  {
    var items := Menu(true, Some(user));
    if user.role == Some(AccessControl.HOST) {
      assert items[1] == HOST_ENTRIES[0];
    }
  }
}
