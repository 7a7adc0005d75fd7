/**
 * The host dashboard: the permission sync handler and its busy flag, the tab
 * kept in the URL, the dinner status filter, the totals, and the status badges.
 */
module HostDashboard {
  import opened Wrappers
  import opened Text
  import opened Lists
  import opened Tabs
  import AuthContext
  import ProfilePage

  const DASHBOARD := "/host/dashboard"
  const ALL := "all"
  const UPDATE_ROLE_URL := "/api/auth/update-role"
  const CANNOT_SYNC := "Cannot sync role: Missing session or role"
  const SYNCED := "Account permissions synced successfully!"
  const SYNC_PENDING := "Permissions updated (Backend sync pending)"
  const SYNC_FAILED := "An error occurred while syncing."

  /** How the POST to the role route ended: a response with its `ok` flag, or an exception. */
  datatype SyncReply = SyncResponded(ok: bool) | SyncThrew

  datatype ToastKind = ToastSuccess | ToastError

  /** What the handler does, in order: flag changes, calls to the provider and the role route, toasts. */
  datatype Effect =
    | SetSyncing(on: bool)
    | UpdateMetadata(role: string)
    | PostUpdateRole(url: string, authorization: string, role: string)
    | RefreshSession
    | Toast(kind: ToastKind, message: string)

  /** A call to the identity provider or to the role route. */
  predicate IsCall(e: Effect) {
    e.UpdateMetadata? || e.PostUpdateRole? || e.RefreshSession?
  }

  /** The steps inside the `try`, after the flag is set: stop at the first failure with the error toast. */
  function SyncSteps(token: string, role: string, metadataOk: bool, reply: SyncReply, refreshOk: bool): (steps: seq<Effect>)
    ensures 2 <= |steps| && steps[0] == UpdateMetadata(role)
    ensures forall i | 0 <= i < |steps| :: !steps[i].SetSyncing?
    ensures metadataOk ==> steps[1] == PostUpdateRole(UPDATE_ROLE_URL, "Bearer " + token, role)
    ensures steps[|steps| - 1] == Toast(ToastError, SYNC_FAILED) <==> !metadataOk || reply.SyncThrew? || !refreshOk
  {
    if !metadataOk then [UpdateMetadata(role), Toast(ToastError, SYNC_FAILED)]
    else
      var post := PostUpdateRole(UPDATE_ROLE_URL, "Bearer " + token, role);
      match reply
      case SyncThrew => [UpdateMetadata(role), post, Toast(ToastError, SYNC_FAILED)]
      case SyncResponded(ok) =>
        [UpdateMetadata(role), post, Toast(ToastSuccess, if ok then SYNCED else SYNC_PENDING), RefreshSession] +
        (if refreshOk then [] else [Toast(ToastError, SYNC_FAILED)])
  }

  /**
   * Everything `handleSyncRole` does for the given provider and route answers:
   * without a token or a role one error toast and nothing else; otherwise the
   * steps bracketed by setting and clearing the busy flag.
   */
  function SyncRoleTrace(token: Option<string>, role: Option<string>, metadataOk: bool, reply: SyncReply,
                         refreshOk: bool): (t: seq<Effect>)
    ensures !Truthy(token) || !Truthy(role) ==> t == [Toast(ToastError, CANNOT_SYNC)]
    ensures Truthy(token) && Truthy(role) ==>
      4 <= |t| && t[0] == SetSyncing(true) && t[|t| - 1] == SetSyncing(false) &&
      t[1] == UpdateMetadata(role.value)
  {
    if !Truthy(token) || !Truthy(role) then [Toast(ToastError, CANNOT_SYNC)]
    else [SetSyncing(true)] + SyncSteps(token.value, role.value, metadataOk, reply, refreshOk) + [SetSyncing(false)]
  }

  /** The busy flag after a prefix of a trace: the last value set, and false before any. */
  function FlagAfter(t: seq<Effect>): bool {
    if t == [] then false
    else if t[|t| - 1].SetSyncing? then t[|t| - 1].on
    else FlagAfter(t[..|t| - 1])
  }

  /** Effects that do not touch the flag leave it as it was. */
  lemma {:induction false} FlagAfterAppend(a: seq<Effect>, b: seq<Effect>)
    requires forall i | 0 <= i < |b| :: !b[i].SetSyncing?
    ensures FlagAfter(a + b) == FlagAfter(a)
  {
    if b == [] {
      assert a + b == a;
    } else {
      var last := |a + b| - 1;
      assert (a + b)[last] == b[|b| - 1];
      assert !(a + b)[last].SetSyncing?;
      assert (a + b)[..last] == a + b[..|b| - 1];
      assert FlagAfter(a + b) == FlagAfter((a + b)[..last]);
      FlagAfterAppend(a, b[..|b| - 1]);
    }
  }

  /**
   * The busy flag is set during every provider and route call the handler
   * makes, and it is clear once the handler has finished, whatever the
   * answers were.
   */
  lemma {:induction false} FlagSetDuringCalls(token: Option<string>, role: Option<string>, metadataOk: bool,
                                              reply: SyncReply, refreshOk: bool)
    ensures var t := SyncRoleTrace(token, role, metadataOk, reply, refreshOk);
      (forall i | 0 <= i < |t| && IsCall(t[i]) :: FlagAfter(t[..i])) && !FlagAfter(t)
  {
    var t := SyncRoleTrace(token, role, metadataOk, reply, refreshOk);
    if Truthy(token) && Truthy(role) {
      var steps := SyncSteps(token.value, role.value, metadataOk, reply, refreshOk);
      assert forall k | 0 <= k < |steps| :: !steps[k].SetSyncing?;
      forall i | 0 <= i < |t| && IsCall(t[i])
        ensures FlagAfter(t[..i])
      {
        assert 1 <= i <= |steps|;
        assert t[..i] == [SetSyncing(true)] + steps[..i - 1];
        FlagAfterAppend([SetSyncing(true)], steps[..i - 1]);
      }
      assert t[|t| - 1] == SetSyncing(false);
    } else {
      assert t[..0] == [];
      assert FlagAfter(t) == FlagAfter(t[..0]);
    }
  }

  /**
   * The handler's outcomes: without a token or role no call at all; a failed
   * metadata update stops before the role route; a response from the route,
   * ok or not, reports success and goes on to the refresh; the error toast
   * appears exactly when a step failed.
   */
  lemma SyncOutcomes(token: Option<string>, role: Option<string>, metadataOk: bool, reply: SyncReply, refreshOk: bool)
    ensures var t := SyncRoleTrace(token, role, metadataOk, reply, refreshOk);
      (!Truthy(token) || !Truthy(role) ==> forall i | 0 <= i < |t| :: !IsCall(t[i])) &&
      (!metadataOk ==> forall i | 0 <= i < |t| :: !t[i].PostUpdateRole?) &&
      (Truthy(token) && Truthy(role) && metadataOk && reply.SyncResponded? ==>
        Toast(ToastSuccess, if reply.ok then SYNCED else SYNC_PENDING) in t && RefreshSession in t) &&
      (Truthy(token) && Truthy(role) ==>
        (Toast(ToastError, SYNC_FAILED) in t <==> !metadataOk || reply.SyncThrew? || !refreshOk))
  {
  }

  /** `dinnerFilter === "all" ? all dinners : those with that status`. */
  datatype HostDinner = HostDinner(id: string, status: string, guests: int, revenue: int)

  /** The status test the filter applies. */
  function StatusIs(status: string): HostDinner -> bool {
    (d: HostDinner) => d.status == status
  }

  function OtherStatus(status: string): HostDinner -> bool {
    (d: HostDinner) => d.status != status
  }

  function Revenue(d: HostDinner): int { d.revenue }

  function Guests(d: HostDinner): int { d.guests }

  function FilterByStatus(dinners: seq<HostDinner>, filter: string): (r: seq<HostDinner>)
    ensures filter == ALL ==> r == dinners
    ensures filter != ALL ==> forall d :: multiset(r)[d] == if d.status == filter then multiset(dinners)[d] else 0
    ensures filter != ALL ==> forall i | 0 <= i < |r| :: r[i].status == filter
  {
    if filter == ALL then dinners
    else
      var r := Filter(dinners, StatusIs(filter));
      assert forall d :: multiset(r)[d] == if d.status == filter then multiset(dinners)[d] else 0 by {
        forall d { FilterCount(dinners, StatusIs(filter), d); }
      }
      r
  }

  /** Filtering keeps the dinners in their original order: it is the same as filtering a concatenation piecewise. */
  lemma FilterByStatusAppend(xs: seq<HostDinner>, ys: seq<HostDinner>, filter: string)
    ensures FilterByStatus(xs + ys, filter) == FilterByStatus(xs, filter) + FilterByStatus(ys, filter)
  {
    if filter != ALL {
      FilterAppend(xs, ys, StatusIs(filter));
    }
  }

  function TotalRevenue(dinners: seq<HostDinner>): int {
    SumOf(dinners, Revenue)
  }

  function TotalGuests(dinners: seq<HostDinner>): int {
    SumOf(dinners, Guests)
  }

  /**
   * The totals are over all dinners, whatever the filter shows: for any
   * status, the dinners with it and the others add up to the totals.
   */
  lemma TotalsSplitByStatus(dinners: seq<HostDinner>, status: string)
    requires status != ALL
    ensures TotalRevenue(dinners) ==
      TotalRevenue(FilterByStatus(dinners, status)) + TotalRevenue(Filter(dinners, OtherStatus(status)))
    ensures TotalGuests(dinners) ==
      TotalGuests(FilterByStatus(dinners, status)) + TotalGuests(Filter(dinners, OtherStatus(status)))
  {
    SumOfPartition(dinners, StatusIs(status), OtherStatus(status), Revenue);
    SumOfPartition(dinners, StatusIs(status), OtherStatus(status), Guests);
  }

  /** Totals of non-negative counts and amounts are non-negative. */
  lemma TotalsNonNegative(dinners: seq<HostDinner>)
    requires forall i | 0 <= i < |dinners| :: dinners[i].guests >= 0 && dinners[i].revenue >= 0
    ensures TotalRevenue(dinners) >= 0 && TotalGuests(dinners) >= 0
  {
    SumOfNonNegative(dinners, Revenue);
    SumOfNonNegative(dinners, Guests);
  }

  /** The badge colour of a dinner status on the dashboard. */
  function DashboardStatusColor(status: string): (c: string)
    ensures status == "upcoming" <==> c == "bg-blue-100 text-blue-800"
    ensures status == "completed" <==> c == "bg-green-100 text-green-800"
    ensures status == "cancelled" <==> c == "bg-red-100 text-red-800"
    ensures status !in {"upcoming", "completed", "cancelled"} <==> c == "bg-gray-100 text-gray-800"
  {
    if status == "upcoming" then "bg-blue-100 text-blue-800"
    else if status == "completed" then "bg-green-100 text-green-800"
    else if status == "draft" then "bg-gray-100 text-gray-800"
    else if status == "cancelled" then "bg-red-100 text-red-800"
    else "bg-gray-100 text-gray-800"
  }

  /** The dashboard's state. */
  class Dashboard {
    var activeTab: string
    var dinnerFilter: string
    var syncingRole: bool
    var profile: ProfilePage.ProfileFields

    constructor(tabParam: Option<string>)
      ensures activeTab == InitialTab(tabParam) && dinnerFilter == ALL && !syncingRole
      ensures profile == ProfilePage.ProfileFields("", "", "")
    {
      activeTab := InitialTab(tabParam);
      dinnerFilter := ALL;
      syncingRole := false;
      profile := ProfilePage.ProfileFields("", "", "");
    }

    /** The sync button is disabled while a sync runs. */
    predicate SyncButtonDisabled()
      reads this
    {
      syncingRole
    }

    /** Switch tab and return the URL that replaces the current one. */
    method HandleTabChange(tab: string) returns (url: string)
      modifies this`activeTab
      ensures activeTab == tab
      ensures tab == OVERVIEW ==> url == DASHBOARD
      ensures tab != OVERVIEW ==> url == DASHBOARD + TAB_PARAM + tab
      ensures tab != "" ==> InitialTab(TabParamOf(DASHBOARD, url)) == tab
    {
      activeTab := tab;
      url := if tab == OVERVIEW then DASHBOARD else DASHBOARD + TAB_PARAM + tab;
      if tab != "" {
        TabUrlRoundTrip(DASHBOARD, tab);
      }
    }

    /** Choose the status filter. */
    method SetDinnerFilter(filter: string)
      modifies this`dinnerFilter
      ensures dinnerFilter == filter
    {
      dinnerFilter := filter;
    }

    /** The user effect: copy the context user's name, email and image into the settings form. */
    method OnUserChange(user: Option<AuthContext.ContextUser>)
      modifies this`profile
      ensures profile == ProfilePage.FieldsFromUser(old(profile), user)
    {
      if user.Some? {
        profile := ProfilePage.ProfileFields(OrElse(user.value.name, ""), OrElse(user.value.email, ""),
                                             OrElse(user.value.image, ProfilePage.DEFAULT_AVATAR));
      }
    }

    /**
     * `handleSyncRole`, with the provider's and the route's answers as
     * parameters: returns what it did, in order, and leaves the flag clear
     * unless it returned before touching it.
     */
    method HandleSyncRole(token: Option<string>, role: Option<string>, metadataOk: bool, reply: SyncReply,
                          refreshOk: bool) returns (effects: seq<Effect>)
      modifies this`syncingRole
      ensures effects == SyncRoleTrace(token, role, metadataOk, reply, refreshOk)
      ensures !Truthy(token) || !Truthy(role) ==> syncingRole == old(syncingRole)
      ensures Truthy(token) && Truthy(role) ==> !syncingRole
    {
      if !Truthy(token) || !Truthy(role) {
        effects := [Toast(ToastError, CANNOT_SYNC)];
        return;
      }
      syncingRole := true;
      effects := [SetSyncing(true), UpdateMetadata(role.value)];
      if !metadataOk {
        effects := effects + [Toast(ToastError, SYNC_FAILED)];
      } else {
        effects := effects + [PostUpdateRole(UPDATE_ROLE_URL, "Bearer " + token.value, role.value)];
        if reply.SyncThrew? {
          effects := effects + [Toast(ToastError, SYNC_FAILED)];
        } else {
          if reply.ok {
            effects := effects + [Toast(ToastSuccess, SYNCED)];
          } else {
            effects := effects + [Toast(ToastSuccess, SYNC_PENDING)];
          }
          effects := effects + [RefreshSession];
          if !refreshOk {
            effects := effects + [Toast(ToastError, SYNC_FAILED)];
          }
        }
      }
      syncingRole := false;
      effects := effects + [SetSyncing(false)];
    }
  }
}
