/** The guest profile page: its tab kept in the URL, its bookings, and the figures it shows. */
module ProfilePage {
  import opened Wrappers
  import opened Text
  import opened Lists
  import opened Api
  import opened Bookings
  import opened Tabs
  import AuthContext

  const PROFILE := "/profile"
  const SIGN_IN := "/auth/signin"
  const DEFAULT_AVATAR := "https://images.unsplash.com/photo-1472099645785-5658abf4ff4e?w=200&h=200&fit=crop&crop=face"

  /** The badge colour of a booking status on the profile page. */
  function ProfileStatusColor(status: string): (c: string)
    ensures status == "completed" <==> c == "bg-green-100 text-green-800"
    ensures status == "confirmed" <==> c == "bg-blue-100 text-blue-800"
    ensures status == "pending" <==> c == "bg-yellow-100 text-yellow-800"
    ensures status == "cancelled" <==> c == "bg-red-100 text-red-800"
    ensures status !in {"completed", "confirmed", "pending", "cancelled"} <==> c == "bg-gray-100 text-gray-800"
  {
    if status == "completed" then "bg-green-100 text-green-800"
    else if status == "confirmed" then "bg-blue-100 text-blue-800"
    else if status == "pending" then "bg-yellow-100 text-yellow-800"
    else if status == "cancelled" then "bg-red-100 text-red-800"
    else "bg-gray-100 text-gray-800"
  }

  predicate IsConfirmed(b: Booking) {
    b.status == "completed" || b.status == "confirmed"
  }

  /** The "Confirmed Dinners" figure: bookings that are completed or confirmed. */
  function ConfirmedCount(bs: seq<Booking>): (n: nat)
    ensures n <= |bs|
  {
    |Filter(bs, IsConfirmed)|
  }

  /** The figure over a concatenation is the sum of the figures, so it counts each booking once. */
  lemma ConfirmedCountAppend(xs: seq<Booking>, ys: seq<Booking>)
    ensures ConfirmedCount(xs + ys) == ConfirmedCount(xs) + ConfirmedCount(ys)
  {
    FilterAppend(xs, ys, IsConfirmed);
  }

  /** Enrichment never changes the figure: it keeps every booking's status. */
  lemma {:induction false} ConfirmedCountAfterEnrich(bs: seq<Booking>, fetchDinner: string -> Option<Item>)
    ensures ConfirmedCount(Enrich(bs, fetchDinner)) == ConfirmedCount(bs)
  {
    var e := Enrich(bs, fetchDinner);
    if bs != [] {
      assert e == [e[0]] + e[1..];
      assert bs == [bs[0]] + bs[1..];
      assert e[1..] == Enrich(bs[1..], fetchDinner);
      ConfirmedCountAppend([e[0]], e[1..]);
      ConfirmedCountAppend([bs[0]], bs[1..]);
      ConfirmedCountAfterEnrich(bs[1..], fetchDinner);
    }
  }

  /** The five stars of a rating: star `i` is filled when `i < rating`. */
  function RenderStars(rating: real): (filled: seq<bool>)
    ensures |filled| == 5
    ensures forall i | 0 <= i < 5 :: filled[i] <==> (i as real) < rating
    ensures forall i, j | 0 <= i < j < 5 :: filled[j] ==> filled[i]
  {
    seq(5, i requires 0 <= i < 5 => (i as real) < rating)
  }

  /** What the page renders for the context's state. */
  datatype ProfileView = LoadingProfile | RedirectToSignIn | Content

  /** A loading screen first; then, without a session, a push to sign-in and nothing rendered. */
  function ProfileGate(loading: bool, isAuthenticated: bool): (v: ProfileView)
    ensures v == LoadingProfile <==> loading
    ensures v == Content <==> !loading && isAuthenticated
  {
    if loading then LoadingProfile else if !isAuthenticated then RedirectToSignIn else Content
  }

  /** The editable profile fields the context's user fills in. */
  datatype ProfileFields = ProfileFields(name: string, email: string, profileImage: string)

  /** The fields after the user effect: the user's name, email and image, with empty and default fallbacks. */
  function FieldsFromUser(prev: ProfileFields, user: Option<AuthContext.ContextUser>): (f: ProfileFields)
    ensures user.None? ==> f == prev
    ensures user.Some? ==> f.name == OrElse(user.value.name, "") && f.email == OrElse(user.value.email, "")
    ensures user.Some? ==> f.profileImage == OrElse(user.value.image, DEFAULT_AVATAR) && f.profileImage != ""
  {
    match user
    case None => prev
    case Some(u) => ProfileFields(OrElse(u.name, ""), OrElse(u.email, ""), OrElse(u.image, DEFAULT_AVATAR))
  }

  /** The profile page's state. */
  class Profile {
    var activeTab: string
    var bookings: seq<Booking>
    var loadingBookings: bool

    constructor(tabParam: Option<string>)
      ensures activeTab == InitialTab(tabParam)
      ensures bookings == [] && !loadingBookings
    {
      activeTab := InitialTab(tabParam);
      bookings := [];
      loadingBookings := false;
    }

    /** Switch tab and return the URL that replaces the current one. */
    method HandleTabChange(tab: string) returns (url: string)
      modifies this`activeTab
      ensures activeTab == tab
      ensures tab == OVERVIEW ==> url == PROFILE
      ensures tab != OVERVIEW ==> url == PROFILE + TAB_PARAM + tab
      ensures tab != "" ==> InitialTab(TabParamOf(PROFILE, url)) == tab
    {
      activeTab := tab;
      url := if tab == OVERVIEW then PROFILE else PROFILE + TAB_PARAM + tab;
      if tab != "" {
        TabUrlRoundTrip(PROFILE, tab);
      }
    }

    /** Load the bookings for the session's token; without a token nothing happens. */
    method FetchBookings(token: Option<string>, reply: Reply<BookingsJson>, fetchDinner: string -> Option<Item>)
      returns (toast: Option<string>)
      modifies this
      ensures !Truthy(token) ==> bookings == old(bookings) && loadingBookings == old(loadingBookings) && toast.None?
      ensures Truthy(token) ==> !loadingBookings
      ensures Truthy(token) && LoadBookings(reply, fetchDinner).Some? ==>
        bookings == LoadBookings(reply, fetchDinner).value && toast.None?
      ensures Truthy(token) && LoadBookings(reply, fetchDinner).None? ==>
        bookings == old(bookings) && toast == Some(LOAD_FAILED)
      ensures activeTab == old(activeTab)
    {
      toast := None;
      if !Truthy(token) {
        return;
      }
      loadingBookings := true;
      var raw := Normalize(GetMyBookings(reply));
      if raw.None? {
        toast := Some(LOAD_FAILED);
      } else {
        bookings := Enrich(raw.value, fetchDinner);
      }
      loadingBookings := false;
    }
  }
}
