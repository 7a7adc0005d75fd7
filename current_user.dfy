/**
 * GET /api/auth/current-user: find the caller's row by email, creating it
 * from the identity provider's data on first sight, and answer with the row
 * and a session summary mirroring it.
 */
module CurrentUserRoute {
  import opened Wrappers
  import opened Text
  import opened UserStore
  import UpdateRoleRoute

  /** The response and the user table afterwards. */
  datatype Outcome = Outcome(response: Response, rows: map<string, UserRecord>)

  /**
   * The row created for a user seen for the first time: the metadata role,
   * or "guest" when there is none, in which case the user still has to pick
   * a role.
   */
  function NewRecord(user: AuthUser, email: string): (rec: UserRecord)
    ensures rec.email == email && rec.id == user.id && rec.name == DefaultName(user, email)
    ensures rec.role == Some(if Truthy(user.metadata.role) then user.metadata.role.value else GUEST)
    ensures rec.needsRoleSelection == Some(!Truthy(user.metadata.role))
    ensures rec.role != Some(GUEST) ==> rec.needsRoleSelection == Some(false)
  {
    UserRecord(user.id, email, DefaultName(user, email),
               Some(OrElse(user.metadata.role, GUEST)), Some(!Truthy(user.metadata.role)))
  }

  /** The `session` part of the response: the record's own fields. */
  function Summary(rec: UserRecord): (s: SessionSummary)
    ensures s.id == rec.id && s.email == rec.email && s.name == rec.name
    ensures s.role == rec.role && s.needsRoleSelection == rec.needsRoleSelection
  {
    SessionSummary(rec.id, rec.email, rec.name, rec.role, rec.needsRoleSelection)
  }

  /** The route as a function of the table before, the request and the environment. */
  function CurrentUser(rows: map<string, UserRecord>, header: Option<string>,
                       getUser: string -> AuthLookup, dbAvailable: bool): (o: Outcome)
    ensures o.response.status == 200 <==> Authenticate(header, getUser).Success? && dbAvailable
    ensures o.response.status != 200 ==> o.rows == rows && o.response.body.ErrorBody?
    ensures o.response.status == 200 ==>
      var user := Authenticate(header, getUser).value;
      var email := user.email.value;
      email in o.rows &&
      o.response.body == CurrentUserBody(o.rows[email], Summary(o.rows[email])) &&
      (email in rows ==> o.rows == rows) &&
      (email !in rows ==> o.rows == rows[email := NewRecord(user, email)])
    ensures Authenticate(header, getUser).Failure? ==> o.response == Authenticate(header, getUser).error
    ensures Authenticate(header, getUser).Success? && !dbAvailable ==> o.response == InternalError()
    ensures KeyedByEmail(rows) ==> KeyedByEmail(o.rows)
  {
    match Authenticate(header, getUser)
    case Failure(resp) => Outcome(resp, rows)
    case Success(user) =>
      if !dbAvailable then Outcome(InternalError(), rows)
      else
        var email := user.email.value;
        var rows' := if email in rows then rows else rows[email := NewRecord(user, email)];
        Outcome(Response(200, CurrentUserBody(rows'[email], Summary(rows'[email]))), rows')
  }

  /** Asking again creates nothing more and returns the same answer. */
  lemma CurrentUserStable(rows: map<string, UserRecord>, header: Option<string>, getUser: string -> AuthLookup)
    requires CurrentUser(rows, header, getUser, true).response.status == 200
    ensures var first := CurrentUser(rows, header, getUser, true);
      var second := CurrentUser(first.rows, header, getUser, true);
      second.rows == first.rows && second.response == first.response
  {
  }

  /**
   * A role chosen through the update-role route is what the current-user
   * route reports afterwards, with the role-selection flag cleared.
   */
  lemma ChosenRoleIsReported(rows: map<string, UserRecord>, header: Option<string>, role: string,
                             getUser: string -> AuthLookup, backend: UpdateRoleRoute.Backend)
    requires UpdateRoleRoute.UpdateRole(rows, header, UpdateRoleRoute.JsonBody(Some(role)), getUser, true, backend).response.status == 200
    ensures var updated := UpdateRoleRoute.UpdateRole(rows, header, UpdateRoleRoute.JsonBody(Some(role)), getUser, true, backend);
      var o := CurrentUser(updated.rows, header, getUser, true);
      o.response.status == 200 && o.rows == updated.rows &&
      o.response.body.user.role == Some(role) &&
      o.response.body.session.role == Some(role) &&
      o.response.body.session.needsRoleSelection == Some(false)
  {
  }

  /** The route, step by step: authenticate, look the row up, create it if missing, answer. */
  method Get(table: UserTable, header: Option<string>, getUser: string -> AuthLookup, dbAvailable: bool)
    returns (response: Response)
    requires table.Valid()
    modifies table
    ensures table.Valid()
    ensures var o := CurrentUser(old(table.rows), header, getUser, dbAvailable);
      response == o.response && table.rows == o.rows
  {
    var auth := Authenticate(header, getUser);
    if auth.Failure? {
      response := auth.error;
      return;
    }
    var user := auth.value;
    if !dbAvailable {
      response := InternalError();
      return;
    }
    var email := user.email.value;
    var found: Option<UserRecord> := if email in table.rows then Some(table.rows[email]) else None;
    if found.None? {
      var created := NewRecord(user, email);
      table.rows := table.rows[email := created];
      found := Some(created);
    }
    var rec := found.value;
    response := Response(200, CurrentUserBody(rec, Summary(rec)));
  }
}
