/**
 * GET /api/auth/check-role-selection: whether the caller still has to pick a
 * role, and the role on record. Read-only.
 */
module CheckRoleSelectionRoute {
  import opened Wrappers
  import opened Text
  import opened UserStore
  import UpdateRoleRoute
  import CurrentUserRoute

  const USER_NOT_FOUND := "User not found"

  /** The route's response for a given table, request and environment; the table is never written. */
  function CheckRoleSelection(rows: map<string, UserRecord>, header: Option<string>,
                              getUser: string -> AuthLookup, dbAvailable: bool): (r: Response)
    ensures r.status == 200 <==>
      Authenticate(header, getUser).Success? && dbAvailable && Authenticate(header, getUser).value.email.value in rows
    ensures Authenticate(header, getUser).Success? && dbAvailable &&
            Authenticate(header, getUser).value.email.value !in rows ==>
      r == Response(404, ErrorBody(USER_NOT_FOUND))
    ensures Authenticate(header, getUser).Failure? ==> r == Authenticate(header, getUser).error
    ensures Authenticate(header, getUser).Success? && !dbAvailable ==> r == InternalError()
    ensures r.status == 200 ==>
      var rec := rows[Authenticate(header, getUser).value.email.value];
      r.body == RoleSelectionBody(rec.needsRoleSelection == Some(true), rec.role)
  {
    match Authenticate(header, getUser)
    case Failure(resp) => resp
    case Success(user) =>
      if !dbAvailable then InternalError()
      else if user.email.value !in rows then Response(404, ErrorBody(USER_NOT_FOUND))
      else
        var rec := rows[user.email.value];
        // `needsRoleSelection || false`: a null flag reads as false
        Response(200, RoleSelectionBody(if rec.needsRoleSelection.Some? then rec.needsRoleSelection.value else false, rec.role))
  }

  /**
   * After the current-user route has created or found the row, the check
   * finds it; for a row it created, a selection is pending exactly when the
   * provider's metadata carried no role.
   */
  lemma CheckAfterCurrentUser(rows: map<string, UserRecord>, header: Option<string>, getUser: string -> AuthLookup)
    requires CurrentUserRoute.CurrentUser(rows, header, getUser, true).response.status == 200
    ensures var o := CurrentUserRoute.CurrentUser(rows, header, getUser, true);
      var user := Authenticate(header, getUser).value;
      var r := CheckRoleSelection(o.rows, header, getUser, true);
      r.status == 200 &&
      (user.email.value !in rows ==> r.body.needsRoleSelection == !Truthy(user.metadata.role))
  {
  }

  /** After a successful role choice no selection is pending and the chosen role is reported. */
  lemma NoSelectionAfterChoice(rows: map<string, UserRecord>, header: Option<string>, role: string,
                               getUser: string -> AuthLookup, backend: UpdateRoleRoute.Backend)
    requires UpdateRoleRoute.UpdateRole(rows, header, UpdateRoleRoute.JsonBody(Some(role)), getUser, true, backend).response.status == 200
    ensures var updated := UpdateRoleRoute.UpdateRole(rows, header, UpdateRoleRoute.JsonBody(Some(role)), getUser, true, backend);
      CheckRoleSelection(updated.rows, header, getUser, true) == Response(200, RoleSelectionBody(false, Some(role)))
  {
  }
}
