# DineWithUs access core, in Dafny

DineWithUs is a web application where guests book home-cooked dinners and
hosts publish them. This project models its access core and the pages that
depend on it:

- the role policy (who may book, create listings or open the host dashboard,
  and the denial messages and redirects);
- the three server routes over the local user mirror (`update-role`,
  `current-user`, `check-role-selection`): bearer authentication, the upsert
  keyed by email, and the best-effort calls to the listings backend;
- the client authentication context, which loads the user's record, falls
  back to the identity provider's metadata, and forces users without a role
  to role selection;
- the three route guards (booking, host, protected route);
- the listings client (query building, item mapping, error handling);
- the pages: search results (filters and sorts), guest bookings and profile
  (normalising and enriching bookings), host dashboard (tabs, status filter,
  totals, the permission sync), listing card, listing detail (carousel and
  booking panel), the create-listing form, one-time-code sign-in, and the
  header's account menu.

Each source file becomes one module. Pure decisions are functions with
contracts. React state that a handler updates becomes a class whose methods
change its fields, each proved against a specification function of the old
state and the environment's answers. The identity provider, the database's
availability, the backend's replies, the network and the current path are
parameters. Shared helpers live in `Wrappers` (Option, Result), `Text`
(JavaScript truthiness of strings, split/join, lower-casing, substring
search, decimal rendering) and `Lists` (filter, toggle, remove-at, sums).

In these places the code behaves differently from what its names suggest, and the model follows the code:

- `current-user` creates a missing row with role `"guest"` and
  `needsRoleSelection = true`, not with a null role.
- `current-user` never answers 404; only `check-role-selection` does, for a
  user without a row.

## Model

| member | source | states |
|---|---|---|
| AccessControl.CanBookDinners | src/lib/access-control.ts:8-11 | true exactly when the session's user has role guest |
| AccessControl.CanCreateDinners | src/lib/access-control.ts:13-16 | true exactly when the session's user has role host |
| AccessControl.GetAccessDeniedMessage | src/lib/access-control.ts:18-23 | the host message exactly for hosts, the must-be-guest message for everyone else |
| AccessControl.CanAccessHostDashboard | src/lib/access-control.ts:25-28 | true exactly when the session's user has role host |
| AccessControl.GetAccessDeniedMessageForHostDashboard | src/lib/access-control.ts:30-37 | the guest message exactly for guests, the must-be-host message otherwise |
| AccessControl.GetRoleBasedRedirect | src/lib/access-control.ts:39-44 | the host dashboard exactly for hosts, sign-in for all others |
| AccessControl.DenyByDefault | src/lib/access-control.ts:8-28 | nobody may both book and open the dashboard; no session, no user or an unknown role grants nothing |
| AccessControl.CreateIffDashboard | src/lib/access-control.ts:13-28 | creating listings and opening the dashboard are granted to the same sessions |
| AccessControl.RedirectMatchesCapability | src/lib/access-control.ts:25-44 | the redirect leads to the dashboard exactly when the dashboard is allowed; a guest is sent to sign-in and gets the guest dashboard message |
| AuthUtils.GetRedirectUrl | src/lib/auth-utils.ts:8-20 | no user lands home; the dashboard exactly for hosts; home for every other session |
| AuthUtils.ShouldRedirectToDashboard | src/lib/auth-utils.ts:22-26 | true exactly for hosts |
| AuthUtils.DashboardDecisionsAgree | src/lib/auth-utils.ts:8-26 | the two landing decisions agree with each other and with the dashboard policy |
| UserStore.BearerToken | app/api/auth/update-role/route.ts:19 | the first "Bearer " in the header is removed, wherever it occurs (a leading one in particular); a header without it is kept whole |
| UserStore.DefaultName | app/api/auth/update-role/route.ts:47 | the metadata name when truthy; otherwise the part of the email before its first "@" |
| UserStore.BearerTokenRoundTrip | app/api/auth/update-role/route.ts:19 | stripping "Bearer " from a header built from a token yields the token |
| UserStore.Authenticate | app/api/auth/update-role/route.ts:11-27 | no header gives 401 missing header; provider error, no user or no email gives 401 Unauthorized; a provider exception gives 500; success exactly when a user with an email is found |
| UpdateRoleRoute.UpdateRole | app/api/auth/update-role/route.ts:9-125 | 200 exactly for an authenticated request with role guest or host and a reachable database; an authenticated request with any other role is 400; a failure changes no row and calls no backend; a missing header or an unknown caller gives the 401 of authentication and a provider exception its 500; a malformed body or an unreachable database gives 500; success stores the row `Upsert` gives and makes the calls `BackendCalls` gives; rows stay keyed by email |
| UpdateRoleRoute.Upsert | app/api/auth/update-role/route.ts:36-51 | only the caller's row changes; an existing row keeps its id, email and name; a new row takes the caller's id, email and default name; either way the role is set and the selection flag cleared |
| UpdateRoleRoute.BackendCalls | app/api/auth/update-role/route.ts:53-112 | no call without a base URL; otherwise the role POST to `/auth/update-role` with the bearer token, then for the host role, unless that POST threw, the PATCH of `/hosts/@me` with the default bio |
| UpdateRoleRoute.UpdateRoleIdempotent | app/api/auth/update-role/route.ts:36-51 | repeating a successful request answers the same and leaves the same table |
| UpdateRoleRoute.BackendIsAdvisory | app/api/auth/update-role/route.ts:53-112 | with the same base URL, the backend's replies change neither the response nor the table |
| UpdateRoleRoute.HostProfileOnlyForHosts | app/api/auth/update-role/route.ts:79-104 | backend calls are made exactly after a success with a configured base URL; the first is the role POST; the host-profile PATCH follows exactly for the host role when that POST did not throw |
| UpdateRoleRoute.Post | app/api/auth/update-role/route.ts:9-125 | updates the table in place to the rows the route function gives and returns its response |
| CurrentUserRoute.NewRecord | app/api/auth/current-user/route.ts:43-67 | a new row takes the metadata role, or guest; the selection flag is set exactly when the metadata has no role; the name is the default name |
| CurrentUserRoute.CurrentUser | app/api/auth/current-user/route.ts:9-90 | 200 exactly for an authenticated caller with a reachable database; authentication failures give its 401 or 500 and an unreachable database 500; a failure changes nothing; success returns the caller's row, created if missing, and a session summary with the same fields |
| CurrentUserRoute.CurrentUserStable | app/api/auth/current-user/route.ts:30-67 | a second call after a successful one creates nothing and returns the same record |
| CurrentUserRoute.ChosenRoleIsReported | app/api/auth/current-user/route.ts:73-82 | after a successful role update, current-user reports that role with the selection flag cleared |
| CurrentUserRoute.Get | app/api/auth/current-user/route.ts:9-90 | updates the table in place to the rows the route function gives and returns its response |
| CheckRoleSelectionRoute.CheckRoleSelection | app/api/auth/check-role-selection/route.ts:9-55 | 200 exactly for an authenticated caller whose row exists; authentication failures give its 401 or 500 and an unreachable database 500; 404 when the row is missing; the answer repeats the row's flag and role |
| CheckRoleSelectionRoute.CheckAfterCurrentUser | app/api/auth/check-role-selection/route.ts:30-47 | after current-user succeeded, the check finds the row and reports its flag |
| CheckRoleSelectionRoute.NoSelectionAfterChoice | app/api/auth/check-role-selection/route.ts:44-47 | after a role update, the check reports no selection needed and the chosen role |
| AuthContext.MapSupabaseUser | src/contexts/auth-context.tsx:137-149 | no user maps to none; otherwise id, email and metadata role are copied, the name is the metadata name or the email prefix, and the image is the first truthy of avatar, image, picture |
| AuthContext.LoadProfile | src/contexts/auth-context.tsx:67-116 | a fetched record gives the record's id, email, name and role with the metadata image; a failed or thrown fetch falls back to the metadata user |
| AuthContext.RoleSelectionNavigation | src/contexts/auth-context.tsx:98-104 | navigates to role selection exactly when a fetched record has no role or needs a selection and the page is not already role selection |
| AuthContext.NewUserIsSentToRoleSelection | src/contexts/auth-context.tsx:98-104 | a first sign-in without a metadata role creates a row and sends the user to role selection |
| AuthContext.FallbackAgreesWithNewRecord | src/contexts/auth-context.tsx:137-149 | the fallback user's name is the name current-user would store for a new row |
| AuthContext.AuthProvider.constructor | src/contexts/auth-context.tsx:35-37 | starts with no session, no user, loading, and not authenticated |
| AuthContext.AuthProvider.FetchUserProfile | src/contexts/auth-context.tsx:67-116 | sets the user to the loaded profile, stops loading, returns the role-selection navigation |
| AuthContext.AuthProvider.OnInitialSession | src/contexts/auth-context.tsx:42-49 | stores the session; with one, loads the profile; without, only stops loading |
| AuthContext.AuthProvider.OnAuthStateChange | src/contexts/auth-context.tsx:54-62 | stores the session; with one, loads the profile; without, clears the user and stops loading |
| AuthContext.AuthProvider.SignOut | src/contexts/auth-context.tsx:118-124 | clears user and session and navigates home |
| GuardView.ViewOf | src/components/auth/booking-guard.tsx:21 | the guard's view holds loading, whether a session exists, and the user's role |
| GuardView.MockSession | src/components/auth/booking-guard.tsx:56 | a policy session exists exactly when the context has a session, carrying the user's role |
| BookingGuard.BookingEffect | src/components/auth/booking-guard.tsx:24-43 | nothing while loading; sign-in without a session; no navigation exactly for guests; hosts go to the dashboard |
| BookingGuard.BookingScreen | src/components/auth/booking-guard.tsx:45-111 | loading exactly while loading; the children exactly for a signed-in guest; sign-in prompt without a session; a denial with the policy message otherwise |
| BookingGuard.EffectMatchesScreen | src/components/auth/booking-guard.tsx:24-111 | the navigation agrees with the screen: the denial's button target, none for children, sign-in for the prompt |
| HostGuard.HostScreen | src/components/auth/host-guard.tsx:22-64 | loading exactly while loading; the children exactly for hosts; a denial leads home, with the guest message exactly for guests |
| HostGuard.HostScreenMatchesPolicy | src/components/auth/host-guard.tsx:22-26 | once loaded, the children are shown exactly when the policy lets the session create listings |
| ProtectedRoute.ProtectedEffect | src/components/auth/protected-route.tsx:26-36 | navigates exactly when loaded without a session, to the given target or sign-in |
| ProtectedRoute.ProtectedScreen | src/components/auth/protected-route.tsx:39-117 | loading while loading; children exactly for a session whose role meets the required one; insufficient permissions otherwise, leading home |
| ProtectedRoute.RequiredRoleMatchesPolicy | src/components/auth/protected-route.tsx:91-117 | requiring guest admits exactly who may book; requiring host admits exactly who may open the dashboard |
| SearchResults.ClearedFilters | src/components/search/search-results.tsx:150-155 | the cleared controls show no active filter chips |
| SearchResults.InactiveFiltersKeepEverythingInRange | src/components/search/search-results.tsx:74-105 | with no active filters a listing is kept exactly when priced in 0 to 200 and matching the location and guest count |
| SearchResults.KeptSatisfiesEachControl | src/components/search/search-results.tsx:74-105 | a kept listing satisfies the price window, the cuisines, both switches, the location and the capacity |
| SearchResults.SatisfyingEachControlIsKept | src/components/search/search-results.tsx:74-105 | a listing satisfying every active control is kept |
| SearchResults.PrecedesMeans | src/components/search/search-results.tsx:108-129 | price low-to-high, price high-to-low, rating, date, and rating then reviews, each as `compare(a, b) <= 0` |
| SearchResults.PrecedesTotal | src/components/search/search-results.tsx:108-129 | every comparator orders any two listings one way or the other |
| SearchResults.PrecedesTransitive | src/components/search/search-results.tsx:108-129 | every comparator is transitive |
| SearchResults.RecommendedOrder | src/components/search/search-results.tsx:123-128 | in the recommended order, higher ratings come first, then more reviews |
| SearchResults.SortListings | src/components/search/search-results.tsx:108-129 | the array ends up sorted by the chosen comparator and holds the same listings |
| SearchResults.FilteredDinners | src/components/search/search-results.tsx:73-131 | the result is sorted and holds each kept listing as often as the input does, and nothing else |
| SearchResults.SearchFilters.constructor | src/components/search/search-results.tsx:44-48 | starts in the recommended order with cleared controls |
| SearchResults.SearchFilters.ToggleCuisine | src/components/search/search-results.tsx:142-148 | removes a selected cuisine or appends an unselected one |
| SearchResults.SearchFilters.ClearFilters | src/components/search/search-results.tsx:150-155 | resets the controls and keeps the sort order |
| Lists.Toggle | app/host/dinners/create/page.tsx:127-134 | the toggled value is present exactly when it was absent; all others keep their membership |
| Lists.ToggleTwice | src/components/search/search-results.tsx:142-148 | toggling twice restores an absent value's list and moves a present value to the end |
| Lists.RemoveAt | app/host/dinners/create/page.tsx:202-207 | drops exactly the element at a valid index and shifts the rest; an invalid index changes nothing |
| Lists.Filter | app/host/dashboard/page.tsx:243-246 | keeps exactly the elements satisfying the predicate, in order |
| Lists.FilterCount | app/host/dashboard/page.tsx:243-246 | each kept element occurs as often as in the input, each dropped one not at all |
| Text.EmailPrefix | app/api/auth/current-user/route.ts:56 | the part of the email before the first '@', or the whole email without one |
| Text.Split | app/host/dinners/create/page.tsx:276 | the pieces contain no separator and join back to the string |
| Text.SplitJoin | app/host/dinners/create/page.tsx:276 | splitting pieces joined by the separator gives the pieces back |
| Text.Contains | src/components/search/search-results.tsx:97 | true exactly when the needle occurs at some position |
| Text.ReplaceFirst | app/api/auth/update-role/route.ts:19 | replaces the leftmost occurrence of the pattern, wherever it is, and nothing else; a string without the pattern is unchanged |
| Text.NatToString | src/lib/api.ts:35-38 | a decimal numeral without leading zeros whose value is the number |
| Text.IntToStringInjective | src/lib/api.ts:35-38 | different numbers give different strings |
| Api.AppendIf | src/lib/api.ts:32-39 | appends a truthy parameter under its key and leaves every other key alone |
| Api.BuildDinnerQuery | src/lib/api.ts:30-39 | the query holds exactly the truthy parameters, in the source's key order, numbers in decimal |
| Api.MapItem | src/lib/api.ts:61-75 | the price is the amount of a price object or the number itself; images default to empty; the host defaults to the unknown host |
| Api.MapItemIdempotent | src/lib/api.ts:61-75 | mapping a mapped item again changes nothing |
| Api.MapAll | src/lib/api.ts:61-75 | maps every item, and fails exactly when some item has a null price |
| Api.GetDinners | src/lib/api.ts:27-86 | a network error, non-ok status or unparsable body, a missing items array and a null price each give empty items and no next page; a parsed reply whose items all map gives them and its page |
| Api.GetMyBookings | src/lib/api.ts:114-139 | a parsed successful reply is returned as is; 404 or any failure gives an empty array |
| Api.GetDinnerById | src/lib/api.ts:141-173 | a listing exactly for a parsed successful reply with a mappable item, mapped, with an empty guest list |
| Api.WriteOutcome | src/lib/api.ts:88-112 | success exactly for a parsed successful reply; otherwise the server's message, else a status message; a network error passes its message on |
| Api.CreateDinner | src/lib/api.ts:88-112 | success exactly for a parsed successful reply; a failure without a body names the status after "Failed to create dinner: " |
| Api.BookDinner | src/lib/api.ts:175-200 | success exactly for a parsed successful reply; a failure without a body names the status after "Failed to book dinner: " |
| Api.StatusIsRecoverable | src/lib/api.ts:100-105 | two unparsable failures with the same error message had the same status |
| Bookings.Normalize | app/guest/bookings/page.tsx:26-39 | an array is taken as is, then an items array, then upcoming and past spread with a falsy side counted as empty; no array anywhere gives the empty list; it fails exactly when one side is an array and the other a truthy non-array; every result is part of the body |
| Bookings.FailedFetchGivesEmptyList | app/guest/bookings/page.tsx:24-39 | a failed fetch normalises to the empty list |
| Bookings.PriceFor | app/guest/bookings/page.tsx:45-49 | a truthy total is kept; otherwise the listing's price (0 when missing) times the seat count (1 when missing) |
| Bookings.EnrichOneAsWritten | app/guest/bookings/page.tsx:43-63 | as written: keeps the booking's fields, attaches the fetched listing when needed, and prices from the listing the booking arrived with |
| Bookings.AsWrittenDiffersOnlyOnFetchedListings | app/guest/bookings/page.tsx:43-63 | as written, a fetched booking without a total shows 0; every other booking is enriched as the corrected rule does |
| Bookings.EnrichAsWritten | app/guest/bookings/page.tsx:42-64 | the as-written enrichment of each booking, same length and order |
| Bookings.EnrichOne | app/guest/bookings/page.tsx:43-63 | keeps the booking's fields; a booking without a dinner gets the fetched one; a truthy total is kept; otherwise the total is the price times the seats |
| Bookings.Enrich | app/guest/bookings/page.tsx:42-64 | enriches each booking, same length and order |
| Bookings.EnrichOneIdempotent | app/guest/bookings/page.tsx:43-63 | enriching twice equals enriching once |
| Bookings.EnrichIdempotent | app/guest/bookings/page.tsx:42-64 | enriching a list twice equals enriching it once |
| Bookings.FetchedPriceIgnoredAsWritten | app/guest/bookings/page.tsx:45-53 | as written, a booking of 2 seats whose listing (price 85) is fetched gets a total of 0, while the price rule on the attached listing gives 170 |
| Bookings.LoadBookings | app/guest/bookings/page.tsx:24-66 | none exactly when normalising throws; otherwise each normalised booking enriched with the corrected total, in order |
| Bookings.LoadBookingsAsWritten | app/guest/bookings/page.tsx:24-66 | the same load with the as-written enrichment |
| Bookings.LoadAsWrittenDiffersOnlyOnFetchedListings | app/guest/bookings/page.tsx:24-66 | the two loads fail together and show the same bookings, except a fetched booking without a total, which shows 0 as written |
| Bookings.GuestStatusColor | app/guest/bookings/page.tsx:76-87 | each known status has its colour, every other status grey |
| Bookings.GuestBookingsPage.constructor | app/guest/bookings/page.tsx:17-18 | starts with no bookings, loading |
| Bookings.GuestBookingsPage.FetchBookings | app/guest/bookings/page.tsx:20-74 | without a token nothing changes; otherwise stores the normalised bookings enriched with the corrected totals, or shows the failure toast, and stops loading |
| ProfilePage.ProfileStatusColor | app/profile/page.tsx:196-209 | each known status has its colour, every other status grey |
| ProfilePage.ConfirmedCount | app/profile/page.tsx:467-473 | the number of confirmed bookings is at most the number of bookings |
| ProfilePage.ConfirmedCountAppend | app/profile/page.tsx:467-473 | the count of a concatenation is the sum of the counts |
| ProfilePage.ConfirmedCountAfterEnrich | app/profile/page.tsx:114-139 | enriching bookings does not change how many are confirmed |
| ProfilePage.RenderStars | app/profile/page.tsx:211-220 | five stars, star i filled exactly when i is below the rating, filled ones first |
| ProfilePage.ProfileGate | app/profile/page.tsx:170-184 | the spinner exactly while loading; the content exactly when loaded and signed in; otherwise a redirect to sign-in |
| ProfilePage.FieldsFromUser | app/profile/page.tsx:150-161 | without a user the fields stay; with one, name and email or empty, image or the default avatar |
| ProfilePage.Profile.constructor | app/profile/page.tsx:70-74 | the active tab is the tab parameter or overview; no bookings |
| ProfilePage.Profile.HandleTabChange | app/profile/page.tsx:164-168 | sets the tab; the URL is the bare page for overview, else carries the tab, which the page reads back |
| ProfilePage.Profile.FetchBookings | app/profile/page.tsx:91-147 | the same load as the guest bookings page, with the corrected totals; the tab is unchanged |
| Tabs.InitialTab | app/profile/page.tsx:70 | the tab parameter when truthy, else overview; never empty |
| Tabs.TabUrlRoundTrip | app/host/dashboard/page.tsx:217-224 | the tab read back from a tab URL is the tab |
| Tabs.TabUrlInjective | app/host/dashboard/page.tsx:217-224 | different tabs give different URLs |
| HostDashboard.SyncSteps | app/host/dashboard/page.tsx:163-197 | the metadata update first, then the role POST with the bearer token once it succeeded; never touches the flag; ends with the error toast exactly on a failure |
| HostDashboard.SyncRoleTrace | app/host/dashboard/page.tsx:156-201 | without a token or role one error toast; otherwise the flag is set first, the metadata update follows, and the flag is cleared last |
| HostDashboard.FlagSetDuringCalls | app/host/dashboard/page.tsx:156-201 | the syncing flag is set before every provider or backend call and cleared at the end |
| HostDashboard.SyncOutcomes | app/host/dashboard/page.tsx:156-201 | no call without a token and a role; no POST after a metadata failure; a response gives the success or pending toast and a refresh; the error toast exactly on a failure |
| HostDashboard.FilterByStatus | app/host/dashboard/page.tsx:243-246 | "all" keeps every dinner; another filter keeps exactly the dinners with that status, each as often as before |
| HostDashboard.FilterByStatusAppend | app/host/dashboard/page.tsx:243-246 | filtering distributes over concatenation |
| HostDashboard.TotalsSplitByStatus | app/host/dashboard/page.tsx:437-453 | total revenue and guests are the totals of one status plus those of all others |
| HostDashboard.TotalsNonNegative | app/host/dashboard/page.tsx:437-453 | the totals of non-negative figures are non-negative |
| HostDashboard.DashboardStatusColor | app/host/dashboard/page.tsx:227-240 | each known status has its colour; draft and unknown statuses are grey |
| HostDashboard.Dashboard.constructor | app/host/dashboard/page.tsx:140-154 | the active tab from the parameter, filter "all", not syncing, empty profile |
| HostDashboard.Dashboard.HandleTabChange | app/host/dashboard/page.tsx:217-224 | sets the tab; the URL is the bare dashboard for overview, else carries the tab, which the page reads back |
| HostDashboard.Dashboard.SetDinnerFilter | app/host/dashboard/page.tsx:143 | sets the status filter |
| HostDashboard.Dashboard.OnUserChange | app/host/dashboard/page.tsx:203-214 | the profile fields follow the user as on the profile page |
| HostDashboard.Dashboard.HandleSyncRole | app/host/dashboard/page.tsx:156-201 | performs the effect trace of the sync; the flag is untouched on the early return and cleared otherwise |
| ImageIndex.Next | src/components/dinner/dinner-card.tsx:28-32 | stays in range and wraps from the last image to the first |
| ImageIndex.Prev | src/components/dinner/dinner-card.tsx:34-40 | stays in range and wraps from the first image to the last |
| ImageIndex.PrevUndoesNext | src/components/dinner/dinner-card.tsx:28-40 | back after forward, and forward after back, return to the start |
| ImageIndex.FullTurn | src/components/dinner/dinner-card.tsx:28-32 | as many forward steps as there are images return to the start |
| DinnerCard.ImageSource | src/components/dinner/dinner-card.tsx:61-66 | the current image of a gallery, else the listing image, else the default picture |
| DinnerCard.HostLabel | src/components/dinner/dinner-card.tsx:160-165 | the host's name or "Host", never empty |
| DinnerCard.HostInitial | src/components/dinner/dinner-card.tsx:162 | the first letter of the host's name, else "H" |
| DinnerCard.LocationLabel | src/components/dinner/dinner-card.tsx:196-200 | neighbourhood, else city, else "Location"; a plain string, else "Location"; a null location throws |
| DinnerCard.CardTarget | src/components/dinner/dinner-card.tsx:42-44 | the listing page, from which the id reads back |
| DinnerCard.QuickBookTarget | src/components/dinner/dinner-card.tsx:46-50 | the booking page, from which the id reads back |
| DinnerCard.TargetsAreDistinct | src/components/dinner/dinner-card.tsx:42-50 | the two targets never coincide and each determines the listing |
| DinnerCard.Card.constructor | src/components/dinner/dinner-card.tsx:19-20 | not a favourite, at the first image |
| DinnerCard.Card.Source | src/components/dinner/dinner-card.tsx:61-66 | the current gallery image when there is a gallery |
| DinnerCard.Card.ToggleFavorite | src/components/dinner/dinner-card.tsx:22-26 | flips the favourite flag |
| DinnerCard.Card.NextImage | src/components/dinner/dinner-card.tsx:28-32 | moves to the next image, wrapping |
| DinnerCard.Card.PrevImage | src/components/dinner/dinner-card.tsx:34-40 | moves to the previous image, wrapping |
| DinnerDetail.EmptyGalleryArrowGivesNaN | src/components/dinner/dinner-detail.tsx:103-111 | as written, either arrow on an empty gallery makes the index NaN, and NaN stays |
| DinnerDetail.AsWrittenAgreesOnNonEmptyGallery | src/components/dinner/dinner-detail.tsx:103-111 | on a non-empty gallery the code as written moves like the corrected carousel |
| DinnerDetail.Carousel.constructor | src/components/dinner/dinner-detail.tsx:52-53 | closed at position 0 |
| DinnerDetail.Carousel.Open | src/components/dinner/dinner-detail.tsx:94-97 | opens at the clicked picture |
| DinnerDetail.Carousel.Close | src/components/dinner/dinner-detail.tsx:99-101 | closes and keeps the position |
| DinnerDetail.Carousel.Next | src/components/dinner/dinner-detail.tsx:103-105 | the next image, wrapping; an empty gallery stays at 0 |
| DinnerDetail.Carousel.Prev | src/components/dinner/dinner-detail.tsx:107-111 | the previous image, wrapping; an empty gallery stays at 0 |
| DinnerDetail.Carousel.HandleKey | src/components/dinner/dinner-detail.tsx:114-124 | nothing while closed; left and right arrows move, Escape closes, other keys do nothing |
| DinnerDetail.GuestOptions | src/components/dinner/dinner-detail.tsx:385-390 | the counts 1 to the capacity, each once, increasing |
| DinnerDetail.Subtotal | src/components/dinner/dinner-detail.tsx:399-401 | one guest pays the price; a non-negative price and at least one guest give at least the price |
| DinnerDetail.SubtotalPerGuest | src/components/dinner/dinner-detail.tsx:399-401 | one more guest adds one more price |
| DinnerDetail.ServiceFee | src/components/dinner/dinner-detail.tsx:403-408 | 14% of the subtotal rounded half up |
| DinnerDetail.BookingTotal | src/components/dinner/dinner-detail.tsx:410-415 | 114% of the subtotal rounded half up |
| DinnerDetail.TotalIsSubtotalPlusFee | src/components/dinner/dinner-detail.tsx:397-415 | in the exact-decimal model, the total line equals the subtotal plus the service fee; the program's double arithmetic can show one less (see Left out) |
| DinnerDetail.BookingPanel.constructor | src/components/dinner/dinner-detail.tsx:48-49 | no date, two guests, button disabled; the subtotal is twice the price |
| DinnerDetail.BookingPanel.SelectDate | src/components/dinner/dinner-detail.tsx:48 | sets the date and enables the button |
| DinnerDetail.BookingPanel.SelectGuests | src/components/dinner/dinner-detail.tsx:370-401 | sets an offered guest count; the subtotal shown becomes the price times that count, between one price and the price of the whole table |
| DinnerDetail.BookingPanel.HandleBooking | src/components/dinner/dinner-detail.tsx:90-92 | books the selected guests exactly when a date is chosen |
| CreateDinnerPage.DefaultForm | app/host/dinners/create/page.tsx:51-86 | three hours, eight guests, 85 per person, empty lists and text |
| CreateDinnerPage.RequiredFields | app/host/dinners/create/page.tsx:231-241 | the nine required fields, in order |
| CreateDinnerPage.FirstMissing | app/host/dinners/create/page.tsx:243-248 | a named field is among the fields with an empty value; none named when every value is filled |
| CreateDinnerPage.FirstMissingIsFirst | app/host/dinners/create/page.tsx:243-248 | none is missing exactly when all are filled; a missing one is empty and all before it are filled |
| CreateDinnerPage.CheckRequired | app/host/dinners/create/page.tsx:243-248 | the loop finds the first empty required field |
| CreateDinnerPage.MenuLines | app/host/dinners/create/page.tsx:276 | the non-blank lines of the menu, without newlines |
| CreateDinnerPage.MenuLinesRoundTrip | app/host/dinners/create/page.tsx:276 | a menu without blank lines joins back from its lines |
| CreateDinnerPage.Included | app/host/dinners/create/page.tsx:277-280 | "Drinks" and "Dessert" exactly when chosen, in that order |
| CreateDinnerPage.BuildPayload | app/host/dinners/create/page.tsx:262-290 | every payload field taken from the form: price in USD, dietary joined, menu lines, included extras, fixed rules, empty neighbourhood |
| CreateDinnerPage.Submit | app/host/dinners/create/page.tsx:220-303 | not logged in stops first; then a missing field, no photo ("Please upload at least one photo", also on the photos), a non-positive price ("Price must be greater than 0") and an invalid date ("Invalid time value") each stop before sending; a form passing every check is sent as its payload; success exactly when sent and accepted, otherwise the backend's message or the generic failure text |
| CreateDinnerPage.MissingFieldIsReported | app/host/dinners/create/page.tsx:243-248 | the first empty field is reported as "<label> is required" and nothing is sent |
| CreateDinnerPage.CreateDinnerForm.constructor | app/host/dinners/create/page.tsx:51-86 | the default form, no errors, not loading |
| CreateDinnerPage.CreateDinnerForm.HandleDietaryToggle | app/host/dinners/create/page.tsx:127-134 | toggles the accommodation and nothing else |
| CreateDinnerPage.CreateDinnerForm.RemoveImage | app/host/dinners/create/page.tsx:202-207 | removes the image at the index |
| CreateDinnerPage.CreateDinnerForm.AddUploadedImages | app/host/dinners/create/page.tsx:155-166 | appends the uploads and clears the images error when there are any |
| CreateDinnerPage.CreateDinnerForm.AddSamplePhoto | app/host/dinners/create/page.tsx:181-200 | appends the chosen sample and clears the images error |
| CreateDinnerPage.CreateDinnerForm.HandleSubmit | app/host/dinners/create/page.tsx:220-303 | the toast, navigation and request of the submission function; the errors hold only the images error; stops loading |
| SignIn.ErrorText | app/auth/signin/page.tsx:44 | the error's message when non-empty, else the fallback |
| SignIn.PostLoginRedirect | app/auth/signin/page.tsx:72-82 | role selection exactly without a role; the dashboard exactly for hosts; home for other roles |
| SignIn.PostLoginAgreesWithLandingRule | app/auth/signin/page.tsx:72-82 | for a user with a role, the landing page is the shared landing rule's |
| SignIn.SendOtp | app/auth/signin/page.tsx:18-48 | an invalid address is rejected before sending; the code step exactly after a successful send; otherwise the error text |
| SignIn.VerifyOtp | app/auth/signin/page.tsx:50-89 | a code not six long is rejected before asking; navigates by role exactly for a verified code with a session; the step never changes |
| SignIn.SignInPage.constructor | app/auth/signin/page.tsx:11-15 | empty fields on the email step |
| SignIn.SignInPage.SetEmail | app/auth/signin/page.tsx:11 | sets the email |
| SignIn.SignInPage.SetOtp | app/auth/signin/page.tsx:12 | sets the code |
| SignIn.SignInPage.ChangeEmail | app/auth/signin/page.tsx:183 | back to the email step |
| SignIn.SignInPage.HandleSendOtp | app/auth/signin/page.tsx:18-48 | the state of the send function; the provider is asked exactly for a valid address |
| SignIn.SignInPage.HandleVerifyOtp | app/auth/signin/page.tsx:50-89 | the state and navigation of the verify function; the provider is asked exactly for a six-character code |
| Header.UserLabel | src/components/layout/header.tsx:95 | the user's name when truthy, else the email |
| Header.AvatarLetter | src/components/layout/header.tsx:82-86 | the upper-cased first letter of a truthy name, else the icon |
| Header.SettingsTarget | src/components/layout/header.tsx:159-170 | the dashboard's settings tab for hosts, the profile's otherwise |
| Header.Menu | src/components/layout/header.tsx:92-197 | Help Center always; Logout exactly when signed in; the visitor menu exactly otherwise; a host sees the host entries and none of the guest ones, and the other way round |
| Header.EntriesOpenTheirTabs | src/components/layout/header.tsx:97-151 | each menu entry opens the tab it names |
| Header.SettingsOpensSettingsTab | src/components/layout/header.tsx:159-170 | the settings entry opens the settings tab |
| Header.HostEntriesFollowPolicy | src/components/layout/header.tsx:97 | the host entries are offered exactly to users the policy lets into the dashboard |

## Left out

- Identity provider, database and backend calls: modelled as parameters giving their answers, not as protocols.
- Network order and concurrency: `Promise.all` over uploads and enrichment, and races between effects, are not modelled; results are in input order.
- Toasts, console logging, `router.refresh` and the spinners: only the toast kinds and messages the handlers choose are modelled.
- Date parsing and formatting: `new Date(...).toISOString()` is a caller-supplied `Option<string>` (none for an invalid date); the "date" sort compares a pre-computed timestamp.
- Unicode: strings are sequences of characters; lower- and upper-casing cover ASCII letters only; JavaScript lengths are counted in characters, not UTF-16 units.
- URL encoding of query values and tab parameters is not modelled.
- DinnerDetail.BookingTotal and DinnerDetail.TotalIsSubtotalPlusFee: 0.14 and 1.14 are taken as exact decimals. In binary floating point `subtotal * 1.14` falls just below a half for some subtotals, so the page shows a total one less than subtotal plus fee: a subtotal of 25 shows a fee of 4 and a total of 28, and a subtotal of 425 (85 for 5 guests) shows a fee of 60 and a total of 484. The model does not capture this; the identity it proves holds of the exact-decimal model only. DinnerDetail.ServiceFee is likewise the exact-decimal rounding. The average rating is left out and ratings are compared as reals.
- `Math.random` in the sample photo: the chosen index is a parameter.
- The upsert's `id` uniqueness and the ORM's errors beyond "database unavailable" are not modelled.
- JSON values of the wrong type for a role are treated as a missing role.
- Bookings.Normalize: a truthy `upcoming` or `past` that is not an array is modelled as a non-iterable value, so spreading it throws and the page shows the error toast; a string there would be spread character by character in JavaScript, and that case is not modelled.
- Api.BuildDinnerQuery: `minPrice`, `maxPrice`, `seats` and `limit` are integers, so a fractional price (written by `toString` as `12.5`) is not modelled.
- Bookings.GuestBookingsPage.FetchBookings: stores the corrected totals of `Bookings.LoadBookings`; the code as written shows those of `Bookings.LoadBookingsAsWritten`, which differ only in a total of 0 for a fetched booking without a total of its own (see Findings).
- ProfilePage.Profile.FetchBookings: stores the corrected totals, as the guest bookings page above; the code as written shows the totals of `Bookings.LoadBookingsAsWritten`.
- SearchResults.SortListings: states sortedness and permutation, not the stability of `Array.prototype.sort`.
- Lists.ToggleTwice: a present value returns at the end of the list, so only membership is restored, which is what the code does.
- CreateDinnerPage.CreateDinnerForm: `handleInputChange` and the fields no rule reads (ingredients, zip code, coordinates) are not modelled.
- Profile editing (save, cancel) does nothing in the code and is not modelled.
- The role-selection page, `supabase.ts`, the home-page globes and the layout are not part of this model.

## Findings

| source | as written | input that shows it | evidently intended | confidence | as-written member | corrected member |
|---|---|---|---|---|---|---|
| src/components/dinner/dinner-detail.tsx:103-111 | the arrows compute `% dinner.images.length`, and the carousel opens from the main picture even with no images | a listing with no images: click the main picture, then press an arrow; the index becomes NaN and stays NaN | an empty gallery keeps the index at 0 | not executed | DinnerDetail.EmptyGalleryArrowGivesNaN | DinnerDetail.Carousel.Next |
| app/guest/bookings/page.tsx:45-53 | the total is computed from `booking.dinner?.price` before the missing dinner is fetched | a booking with 2 seats, no total price and no dinner, whose fetched listing costs 85, gets a total of 0 instead of 170 | the total uses the fetched dinner's price | not executed | Bookings.FetchedPriceIgnoredAsWritten | Bookings.EnrichOne |
