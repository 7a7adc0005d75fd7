/**
 * The client-side authentication context: the provider session, the user
 * profile derived from the local mirror (or, failing that, from the session
 * itself), and the loading flag the guards wait on.
 */
module AuthContext {
  import opened Wrappers
  import opened Text
  import opened UserStore
  import CurrentUserRoute

  const ROLE_SELECTION := "/auth/role-selection"
  const HOME := "/"

  /** A provider session: the access token and the provider's user. */
  datatype Session = Session(accessToken: string, user: AuthUser)

  /** The profile the context exposes to the pages. */
  datatype ContextUser = ContextUser(
    id: string,
    email: Option<string>,
    name: Option<string>,
    image: Option<string>,
    role: Option<string>)

  /** How the call to the current-user route ended: a response, or an exception before one was read. */
  datatype ProfileFetch = Fetched(response: Response) | FetchThrew

  /** `response.ok`. */
  predicate Ok(r: Response) {
    200 <= r.status <= 299
  }

  /** The row the current-user route returned, when the fetch succeeded and the body carried one. */
  function FetchedRecord(fetch: ProfileFetch): Option<UserRecord> {
    if fetch.Fetched? && Ok(fetch.response) && fetch.response.body.CurrentUserBody? then
      Some(fetch.response.body.user)
    else None
  }

  /** `avatar || image || picture` from the provider's metadata. */
  function ImageOf(user: AuthUser): Option<string> {
    FirstTruthy(user.metadata.avatar, user.metadata.image, user.metadata.picture)
  }

  /** The profile derived from the provider's user alone, used when the local mirror cannot be reached. */
  function MapSupabaseUser(user: Option<AuthUser>): (r: Option<ContextUser>)
    ensures r.None? <==> user.None?
    ensures user.Some? ==> r.value.id == user.value.id && r.value.email == user.value.email
    ensures user.Some? ==> r.value.role == user.value.metadata.role && r.value.image == ImageOf(user.value)
    ensures user.Some? && Truthy(user.value.metadata.name) ==> r.value.name == user.value.metadata.name
    ensures user.Some? && !Truthy(user.value.metadata.name) ==>
      r.value.name == (if user.value.email.Some? then Some(EmailPrefix(user.value.email.value)) else None)
  {
    match user
    case None => None
    case Some(u) =>
      var name := if Truthy(u.metadata.name) then u.metadata.name
                  else if u.email.Some? then Some(EmailPrefix(u.email.value)) else None;
      Some(ContextUser(u.id, u.email, name, ImageOf(u), u.metadata.role))
  }

  /** The profile after a fetch: the mirror's row with the session's picture, or the session-derived fallback. */
  function LoadProfile(s: Session, fetch: ProfileFetch): (u: ContextUser)
    ensures FetchedRecord(fetch).Some? ==>
      var rec := FetchedRecord(fetch).value;
      u == ContextUser(rec.id, Some(rec.email), Some(rec.name), ImageOf(s.user), rec.role)
    ensures FetchedRecord(fetch).None? ==> Some(u) == MapSupabaseUser(Some(s.user))
  {
    match FetchedRecord(fetch)
    case Some(rec) => ContextUser(rec.id, Some(rec.email), Some(rec.name), ImageOf(s.user), rec.role)
    case None => MapSupabaseUser(Some(s.user)).value
  }

  /** `!dbUser.role || dbUser.needsRoleSelection`. */
  predicate NeedsRoleSelection(rec: UserRecord) {
    !Truthy(rec.role) || rec.needsRoleSelection == Some(true)
  }

  /**
   * The navigation a profile fetch triggers: to the role-selection page when
   * the mirror's row lacks a role or is flagged, unless already there.
   */
  function RoleSelectionNavigation(fetch: ProfileFetch, path: string): (nav: Option<string>)
    ensures nav.Some? <==>
      FetchedRecord(fetch).Some? && NeedsRoleSelection(FetchedRecord(fetch).value) && path != ROLE_SELECTION
    ensures nav.Some? ==> nav.value == ROLE_SELECTION && nav.value != path
  {
    match FetchedRecord(fetch)
    case Some(rec) =>
      if NeedsRoleSelection(rec) && path != ROLE_SELECTION then Some(ROLE_SELECTION) else None
    case None => None
  }

  /**
   * A first sign-in end to end: for a user the mirror has never seen and whose
   * provider metadata carries no role, the context's profile fetch (sent as
   * `Bearer <access token>`) creates a flagged "guest" row and sends the user
   * to role selection.
   */
  lemma NewUserIsSentToRoleSelection(rows: map<string, UserRecord>, s: Session,
                                     getUser: string -> AuthLookup, path: string)
    requires getUser(s.accessToken) == Found(s.user) && Truthy(s.user.email)
    requires s.user.email.value !in rows
    requires !Truthy(s.user.metadata.role)
    requires path != ROLE_SELECTION
    ensures var o := CurrentUserRoute.CurrentUser(rows, Some("Bearer " + s.accessToken), getUser, true);
      RoleSelectionNavigation(Fetched(o.response), path) == Some(ROLE_SELECTION) &&
      LoadProfile(s, Fetched(o.response)).role == Some(GUEST)
  {
    BearerTokenRoundTrip(s.accessToken);
  }

  /**
   * The session-derived fallback agrees with the row the mirror would create
   * on id, email and name, and on the role whenever the metadata carries one.
   */
  lemma FallbackAgreesWithNewRecord(user: AuthUser)
    requires Truthy(user.email)
    ensures var fallback := MapSupabaseUser(Some(user)).value;
      var rec := CurrentUserRoute.NewRecord(user, user.email.value);
      fallback.id == rec.id && fallback.email == Some(rec.email) && fallback.name == Some(rec.name) &&
      (Truthy(user.metadata.role) ==> fallback.role == rec.role)
  {
  }

  /** The context's state: the provider session, the derived profile, and whether the profile is still loading. */
  class AuthProvider {
    var session: Option<Session>
    var user: Option<ContextUser>
    var loading: bool

    /** `isAuthenticated` is `!!session`, derived from the session on every read. */
    function IsAuthenticated(): bool
      reads this
    {
      session.Some?
    }

    constructor()
      ensures session.None? && user.None? && loading
      ensures !IsAuthenticated()
    {
      session := None;
      user := None;
      loading := true;
    }

    /** Load the profile for a session; loading always ends, whatever the fetch did. */
    method FetchUserProfile(s: Session, fetch: ProfileFetch, path: string) returns (nav: Option<string>)
      modifies this`user, this`loading
      ensures user == Some(LoadProfile(s, fetch))
      ensures !loading
      ensures nav == RoleSelectionNavigation(fetch, path)
    {
      nav := None;
      if fetch.Fetched? && Ok(fetch.response) && fetch.response.body.CurrentUserBody? {
        var dbUser := fetch.response.body.user;
        user := Some(ContextUser(dbUser.id, Some(dbUser.email), Some(dbUser.name), ImageOf(s.user), dbUser.role));
        if !Truthy(dbUser.role) || dbUser.needsRoleSelection == Some(true) {
          if path != ROLE_SELECTION {
            nav := Some(ROLE_SELECTION);
          }
        }
      } else {
        user := MapSupabaseUser(Some(s.user));
      }
      loading := false;
    }

    /** The answer to the initial session check: record it, then load its profile or stop loading. */
    method OnInitialSession(found: Option<Session>, fetch: ProfileFetch, path: string) returns (nav: Option<string>)
      modifies this
      ensures session == found && IsAuthenticated() == found.Some?
      ensures !loading
      ensures found.Some? ==> user == Some(LoadProfile(found.value, fetch)) && nav == RoleSelectionNavigation(fetch, path)
      ensures found.None? ==> user == old(user) && nav.None?
    {
      session := found;
      nav := None;
      if found.Some? {
        nav := FetchUserProfile(found.value, fetch, path);
      } else {
        loading := false;
      }
    }

    /** A change reported by the provider: a new session reloads the profile, no session clears it. */
    method OnAuthStateChange(changed: Option<Session>, fetch: ProfileFetch, path: string) returns (nav: Option<string>)
      modifies this
      ensures session == changed && IsAuthenticated() == changed.Some?
      ensures !loading
      ensures changed.Some? ==> user == Some(LoadProfile(changed.value, fetch)) && nav == RoleSelectionNavigation(fetch, path)
      ensures changed.None? ==> user.None? && nav.None?
    {
      session := changed;
      nav := None;
      if changed.Some? {
        nav := FetchUserProfile(changed.value, fetch, path);
      } else {
        user := None;
        loading := false;
      }
    }

    /** Sign out: forget the profile and the session and go home. */
    method SignOut() returns (nav: Option<string>)
      modifies this`user, this`session
      ensures user.None? && session.None? && !IsAuthenticated()
      ensures nav == Some(HOME)
    {
      user := None;
      session := None;
      nav := Some(HOME);
    }
  }
}
