/**
 * POST /api/auth/update-role: records the role a signed-in user chose in the
 * local user table (creating the row if needed), then best-effort informs the
 * external backend and, for hosts, initialises the host profile there.
 */
module UpdateRoleRoute {
  import opened Wrappers
  import opened Text
  import opened UserStore

  const INVALID_ROLE := "Invalid role"
  const NEW_HOST_BIO := "I am a new host on DineWithUs!"

  /** The request body: unparsable JSON, or an object whose `role` may be missing (a non-string role is treated like a missing one: both are rejected). */
  datatype RequestBody = Malformed | JsonBody(role: Option<string>)

  /** How an external call ended: a response, whatever its status, or a thrown exception. */
  datatype FetchOutcome = Responded(ok: bool) | Threw

  /** The external backend as this route sees it: its base URL (if configured) and how each call would end. */
  datatype Backend = Backend(apiBase: Option<string>, roleSync: FetchOutcome, hostInit: FetchOutcome)

  datatype CallBody = RoleBody(role: string) | BioBody(bio: string)

  /** An outgoing request to the external backend. */
  datatype BackendCall = BackendCall(verb: string, url: string, authorization: string, body: CallBody)

  /** The response, the user table afterwards, and the external calls made, in order. */
  datatype Outcome = Outcome(response: Response, rows: map<string, UserRecord>, calls: seq<BackendCall>)

  /** `role` is truthy and one of "guest" and "host". */
  predicate ValidRole(role: Option<string>) {
    role == Some(GUEST) || role == Some(HOST)
  }

  /** The upsert by email: update role and clear the flag, or create the row with a default name. */
  function Upsert(rows: map<string, UserRecord>, user: AuthUser, email: string, role: string): (r: map<string, UserRecord>)
    ensures r.Keys == rows.Keys + {email}
    ensures forall e | e in rows && e != email :: r[e] == rows[e]
    ensures email in rows ==>
      r[email].id == rows[email].id && r[email].email == rows[email].email && r[email].name == rows[email].name
    ensures email !in rows ==> r[email].id == user.id && r[email].email == email && r[email].name == DefaultName(user, email)
    ensures r[email].role == Some(role) && r[email].needsRoleSelection == Some(false)
  {
    if email in rows then
      rows[email := rows[email].(role := Some(role), needsRoleSelection := Some(false))]
    else
      rows[email := UserRecord(user.id, email, DefaultName(user, email), Some(role), Some(false))]
  }

  /**
   * The external calls: none without a base URL; otherwise the role update,
   * then, for hosts, the host-profile initialisation, which an exception
   * from the first call skips.
   */
  function BackendCalls(token: string, role: string, backend: Backend): (calls: seq<BackendCall>)
    ensures calls == [] <==> !Truthy(backend.apiBase)
    ensures |calls| <= 2
    ensures calls != [] ==>
      calls[0] == BackendCall("POST", backend.apiBase.value + "/auth/update-role", "Bearer " + token, RoleBody(role))
    ensures |calls| == 2 <==> Truthy(backend.apiBase) && role == HOST && !backend.roleSync.Threw?
    ensures |calls| == 2 ==>
      calls[1] == BackendCall("PATCH", backend.apiBase.value + "/hosts/@me", "Bearer " + token, BioBody(NEW_HOST_BIO))
  {
    if !Truthy(backend.apiBase) then []
    else
      var auth := "Bearer " + token;
      [BackendCall("POST", backend.apiBase.value + "/auth/update-role", auth, RoleBody(role))] +
      (if backend.roleSync.Threw? || role != HOST then []
       else [BackendCall("PATCH", backend.apiBase.value + "/hosts/@me", auth, BioBody(NEW_HOST_BIO))])
  }

  /** The route as a function of the table before, the request and the environment. */
  function UpdateRole(rows: map<string, UserRecord>, header: Option<string>, body: RequestBody,
                      getUser: string -> AuthLookup, dbAvailable: bool, backend: Backend): (o: Outcome)
    ensures o.response.status == 200 <==>
      Authenticate(header, getUser).Success? && body.JsonBody? && ValidRole(body.role) && dbAvailable
    ensures o.response.status != 200 ==> o.rows == rows && o.calls == []
    ensures Authenticate(header, getUser).Success? && (body.JsonBody? && !ValidRole(body.role)) ==>
      o.response == Response(400, ErrorBody(INVALID_ROLE))
    ensures o.response.status == 200 ==>
      var email := Authenticate(header, getUser).value.email.value;
      o.response.body == RoleUpdated(true, body.role) &&
      email in o.rows && o.rows[email].role == body.role && o.rows[email].needsRoleSelection == Some(false) &&
      (forall e | e in rows && e != email :: e in o.rows && o.rows[e] == rows[e]) &&
      (forall e | e in o.rows && e != email :: e in rows)
    ensures Authenticate(header, getUser).Failure? ==> o.response == Authenticate(header, getUser).error
    ensures Authenticate(header, getUser).Success? && body.Malformed? ==> o.response == InternalError()
    ensures Authenticate(header, getUser).Success? && body.JsonBody? && ValidRole(body.role) && !dbAvailable ==>
      o.response == InternalError()
    ensures o.response.status == 200 ==>
      var user := Authenticate(header, getUser).value;
      o.rows == Upsert(rows, user, user.email.value, body.role.value) &&
      o.calls == BackendCalls(BearerToken(header.value), body.role.value, backend)
    ensures KeyedByEmail(rows) ==> KeyedByEmail(o.rows)
  {
    match Authenticate(header, getUser)
    case Failure(resp) => Outcome(resp, rows, [])
    case Success(user) =>
      match body
      case Malformed => Outcome(InternalError(), rows, [])
      case JsonBody(role) =>
        if !ValidRole(role) then Outcome(Response(400, ErrorBody(INVALID_ROLE)), rows, [])
        else if !dbAvailable then Outcome(InternalError(), rows, [])
        else
          var email := user.email.value;
          var token := BearerToken(header.value);
          Outcome(Response(200, RoleUpdated(true, role)), Upsert(rows, user, email, role.value),
                  BackendCalls(token, role.value, backend))
  }

  /** Repeating a successful request leaves the table as the first one left it and answers the same. */
  lemma UpdateRoleIdempotent(rows: map<string, UserRecord>, header: Option<string>, body: RequestBody,
                             getUser: string -> AuthLookup, backend: Backend)
    requires UpdateRole(rows, header, body, getUser, true, backend).response.status == 200
    ensures var first := UpdateRole(rows, header, body, getUser, true, backend);
      var second := UpdateRole(first.rows, header, body, getUser, true, backend);
      second.rows == first.rows && second.response == first.response
  {
    var first := UpdateRole(rows, header, body, getUser, true, backend);
    var user := Authenticate(header, getUser).value;
    var email := user.email.value;
    var role := body.role.value;
    assert email in first.rows;
    var rec := first.rows[email];
    assert rec.(role := Some(role), needsRoleSelection := Some(false)) == rec;
    assert Upsert(first.rows, user, email, role) == first.rows;
  }

  /** The external backend is advisory: how its calls end never changes the response or the table. */
  lemma BackendIsAdvisory(rows: map<string, UserRecord>, header: Option<string>, body: RequestBody,
                          getUser: string -> AuthLookup, dbAvailable: bool, b1: Backend, b2: Backend)
    requires b1.apiBase == b2.apiBase
    ensures UpdateRole(rows, header, body, getUser, dbAvailable, b1).response ==
            UpdateRole(rows, header, body, getUser, dbAvailable, b2).response
    ensures UpdateRole(rows, header, body, getUser, dbAvailable, b1).rows ==
            UpdateRole(rows, header, body, getUser, dbAvailable, b2).rows
  {
  }

  /**
   * The host profile is initialised only for a successful request choosing
   * "host" with the backend configured and reachable for the first call; the
   * role update is always the first call when any is made.
   */
  lemma HostProfileOnlyForHosts(rows: map<string, UserRecord>, header: Option<string>, body: RequestBody,
                                getUser: string -> AuthLookup, dbAvailable: bool, backend: Backend)
    ensures var o := UpdateRole(rows, header, body, getUser, dbAvailable, backend);
      (o.calls != [] <==> o.response.status == 200 && Truthy(backend.apiBase)) &&
      (o.calls != [] ==> o.calls[0].verb == "POST" && o.calls[0].body == RoleBody(body.role.value)) &&
      (|o.calls| == 2 <==>
        o.response.status == 200 && Truthy(backend.apiBase) && body.role == Some(HOST) && !backend.roleSync.Threw?) &&
      |o.calls| <= 2
  {
  }

  /** The route, step by step: early returns, the upsert on the table, then the advisory external calls. */
  method Post(table: UserTable, header: Option<string>, body: RequestBody,
              getUser: string -> AuthLookup, dbAvailable: bool, backend: Backend)
    returns (response: Response, calls: seq<BackendCall>)
    requires table.Valid()
    modifies table
    ensures table.Valid()
    ensures var o := UpdateRole(old(table.rows), header, body, getUser, dbAvailable, backend);
      response == o.response && calls == o.calls && table.rows == o.rows
  {
    calls := [];
    if !Truthy(header) {
      response := Response(401, ErrorBody(MISSING_HEADER));
      return;
    }
    var token := BearerToken(header.value);
    var lookup := getUser(token);
    if lookup.LookupThrew? {
      response := InternalError();
      return;
    }
    if !lookup.Found? || !Truthy(lookup.user.email) {
      response := Response(401, ErrorBody(UNAUTHORIZED));
      return;
    }
    var user := lookup.user;
    if body.Malformed? {
      response := InternalError();
      return;
    }
    var role := body.role;
    if !ValidRole(role) {
      response := Response(400, ErrorBody(INVALID_ROLE));
      return;
    }
    if !dbAvailable {
      response := InternalError();
      return;
    }
    var email := user.email.value;
    if email in table.rows {
      var existing := table.rows[email];
      table.rows := table.rows[email := existing.(role := role, needsRoleSelection := Some(false))];
    } else {
      table.rows := table.rows[email := UserRecord(user.id, email, DefaultName(user, email), role, Some(false))];
    }
    if Truthy(backend.apiBase) {
      var auth := "Bearer " + token;
      calls := calls + [BackendCall("POST", backend.apiBase.value + "/auth/update-role", auth, RoleBody(role.value))];
      if !backend.roleSync.Threw? && role == Some(HOST) {
        calls := calls + [BackendCall("PATCH", backend.apiBase.value + "/hosts/@me", auth, BioBody(NEW_HOST_BIO))];
      }
    }
    response := Response(200, RoleUpdated(true, role));
  }
}
