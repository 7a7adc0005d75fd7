/**
 * The local user mirror shared by the three server routes: the user table
 * keyed by email, the identity provider's view of a user, the bearer-token
 * authentication every route starts with, and the JSON responses the routes
 * return.
 */
module UserStore {
  import opened Wrappers
  import opened Text

  const GUEST := "guest"
  const HOST := "host"

  const MISSING_HEADER := "Missing authorization header"
  const UNAUTHORIZED := "Unauthorized"
  const INTERNAL_ERROR := "Internal server error"

  /** A row of the local user table. `role` and `needsRoleSelection` are nullable columns. */
  datatype UserRecord = UserRecord(
    id: string,
    email: string,
    name: string,
    role: Option<string>,
    needsRoleSelection: Option<bool>)

  /** The identity provider's free-form user metadata, restricted to the keys the system reads. */
  datatype Metadata = Metadata(
    name: Option<string>,
    role: Option<string>,
    avatar: Option<string>,
    image: Option<string>,
    picture: Option<string>)

  /** A user as the identity provider reports it. */
  datatype AuthUser = AuthUser(id: string, email: Option<string>, metadata: Metadata)

  /**
   * What `getUser(token)` yields: an error object, no user, a user, or a
   * rejected promise (a network failure), which lands in the route's catch.
   */
  datatype AuthLookup = LookupError | NoUser | Found(user: AuthUser) | LookupThrew

  /** The `session` object of the current-user response: the record's fields again. */
  datatype SessionSummary = SessionSummary(
    id: string,
    email: string,
    name: string,
    role: Option<string>,
    needsRoleSelection: Option<bool>)

  /** The JSON bodies the routes return. */
  datatype Body =
    | ErrorBody(error: string)
    | RoleUpdated(success: bool, role: Option<string>)
    | CurrentUserBody(user: UserRecord, session: SessionSummary)
    | RoleSelectionBody(needsRoleSelection: bool, currentRole: Option<string>)

  datatype Response = Response(status: int, body: Body)

  /** Every row is stored under its own email, which is the table's unique key. */
  predicate KeyedByEmail(rows: map<string, UserRecord>) {
    forall e | e in rows :: rows[e].email == e
  }

  /** `authHeader.replace("Bearer ", "")`. */
  function BearerToken(header: string): (token: string)
    ensures "Bearer " <= header ==> token == header[7..]
    ensures !Contains(header, "Bearer ") ==> token == header
    ensures Contains(header, "Bearer ") ==>
      exists i :: FirstOccurrence(header, "Bearer ", i) && token == header[..i] + header[i + 7..]
  {
    ReplaceFirst(header, "Bearer ", "")
  }

  /** A header built as `Bearer ${token}` yields the token back. */
  lemma BearerTokenRoundTrip(token: string)
    ensures BearerToken("Bearer " + token) == token
  {
    assert "Bearer " <= "Bearer " + token;
    assert ("Bearer " + token)[7..] == token;
  }

  /**
   * The authentication prefix of every route: a missing or empty header is
   * 401 "Missing authorization header"; a provider error, no user or a user
   * without an email is 401 "Unauthorized"; a provider exception is 500.
   * Success yields the provider's user, whose email is then known to be set.
   */
  function Authenticate(header: Option<string>, getUser: string -> AuthLookup): (r: Result<AuthUser, Response>)
    ensures !Truthy(header) ==> r == Failure(Response(401, ErrorBody(MISSING_HEADER)))
    ensures r.Success? <==>
      Truthy(header) && getUser(BearerToken(header.value)).Found? &&
      Truthy(getUser(BearerToken(header.value)).user.email)
    ensures r.Success? ==> r.value == getUser(BearerToken(header.value)).user && Truthy(r.value.email)
    ensures Truthy(header) && getUser(BearerToken(header.value)).LookupThrew? ==>
      r == Failure(Response(500, ErrorBody(INTERNAL_ERROR)))
    ensures r.Failure? ==> r.error.status in {401, 500}
  {
    if !Truthy(header) then Failure(Response(401, ErrorBody(MISSING_HEADER)))
    else
      match getUser(BearerToken(header.value))
      case LookupThrew => Failure(Response(500, ErrorBody(INTERNAL_ERROR)))
      case LookupError => Failure(Response(401, ErrorBody(UNAUTHORIZED)))
      case NoUser => Failure(Response(401, ErrorBody(UNAUTHORIZED)))
      case Found(user) =>
        if Truthy(user.email) then Success(user) else Failure(Response(401, ErrorBody(UNAUTHORIZED)))
  }

  /** The name a new row gets: the metadata name if set, else the part of the email before '@'. */
  function DefaultName(user: AuthUser, email: string): (name: string)
    ensures Truthy(user.metadata.name) ==> name == user.metadata.name.value
    ensures !Truthy(user.metadata.name) ==> name <= email && '@' !in name
    ensures !Truthy(user.metadata.name) && '@' in email ==> email[|name|] == '@'
  {
    OrElse(user.metadata.name, EmailPrefix(email))
  }

  /** The 500 response every route returns from its catch. */
  function InternalError(): Response {
    Response(500, ErrorBody(INTERNAL_ERROR))
  }

  /** The local user table, which the routes read and write in place. */
  class UserTable {
    var rows: map<string, UserRecord>

    ghost predicate Valid()
      reads this
    {
      KeyedByEmail(rows)
    }

    constructor(initial: map<string, UserRecord>)
      requires KeyedByEmail(initial)
      ensures Valid()
      ensures rows == initial
    {
      rows := initial;
    }
  }
}
