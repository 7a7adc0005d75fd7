/**
 * The search results page: the filter state the user edits, the predicate
 * that selects listings, and the sort that orders them.
 */
module SearchResults {
  import opened Wrappers
  import opened Text
  import opened Lists

  const DEFAULT_MIN_PRICE := 0
  const DEFAULT_MAX_PRICE := 200

  datatype Location = Location(city: string, state: string, neighborhood: string)

  /**
   * The fields of a listing the page reads. `startsAt` stands for
   * `new Date(date).getTime()`, the dinner's start as a timestamp.
   */
  datatype Listing = Listing(
    id: string,
    price: int,
    cuisine: string,
    instantBook: bool,
    superhost: bool,
    location: Location,
    capacity: int,
    rating: real,
    reviewCount: int,
    startsAt: int)

  /** The filter controls: the price range, the selected cuisines, and the two switches. */
  datatype Filters = Filters(
    minPrice: int,
    maxPrice: int,
    cuisines: seq<string>,
    instantBookOnly: bool,
    superhostOnly: bool)

  /** The URL search parameters the filter reads; a guest count of 0 counts as absent. */
  datatype Query = Query(location: Option<string>, guests: Option<int>)

  /** `${city} ${state} ${neighborhood}`, lower-cased, contains the lower-cased search location. */
  predicate MatchesLocation(d: Listing, location: string) {
    Contains(Lower(d.location.city + " " + d.location.state + " " + d.location.neighborhood), Lower(location))
  }

  /** Whether a listing survives the filters, one early rejection per control. */
  predicate Keep(d: Listing, f: Filters, q: Query) {
    if d.price < f.minPrice || d.price > f.maxPrice then false
    else if |f.cuisines| > 0 && d.cuisine !in f.cuisines then false
    else if f.instantBookOnly && !d.instantBook then false
    else if f.superhostOnly && !d.superhost then false
    else if Truthy(q.location) && !MatchesLocation(d, q.location.value) then false
    else if q.guests.Some? && q.guests.value != 0 && d.capacity < q.guests.value then false
    else true
  }

  /** The filter chips show exactly when some control differs from its cleared setting. */
  predicate HasActiveFilters(f: Filters) {
    |f.cuisines| > 0 || f.instantBookOnly || f.superhostOnly ||
    f.minPrice > DEFAULT_MIN_PRICE || f.maxPrice < DEFAULT_MAX_PRICE
  }

  /** The cleared controls. */
  function ClearedFilters(): (f: Filters)
    ensures !HasActiveFilters(f)
  {
    Filters(DEFAULT_MIN_PRICE, DEFAULT_MAX_PRICE, [], false, false)
  }

  /**
   * Without active filters nothing but the price window [0, 200] and the
   * query narrows the results: every listing priced in that window that
   * matches the query's location and guest count is kept.
   */
  lemma InactiveFiltersKeepEverythingInRange(d: Listing, f: Filters, q: Query)
    requires !HasActiveFilters(f)
    requires DEFAULT_MIN_PRICE <= d.price <= DEFAULT_MAX_PRICE
    requires Truthy(q.location) ==> MatchesLocation(d, q.location.value)
    requires q.guests.Some? && q.guests.value != 0 ==> d.capacity >= q.guests.value
    ensures Keep(d, f, q)
  {
  }

  /** Every kept listing satisfies each active control. */
  lemma KeptSatisfiesEachControl(d: Listing, f: Filters, q: Query)
    requires Keep(d, f, q)
    ensures f.minPrice <= d.price <= f.maxPrice
    ensures |f.cuisines| > 0 ==> d.cuisine in f.cuisines
    ensures f.instantBookOnly ==> d.instantBook
    ensures f.superhostOnly ==> d.superhost
    ensures Truthy(q.location) ==> MatchesLocation(d, q.location.value)
    ensures q.guests.Some? && q.guests.value != 0 ==> d.capacity >= q.guests.value
  {
  }

  /** A listing that satisfies every active control is kept: the converse of the lemma above. */
  lemma SatisfyingEachControlIsKept(d: Listing, f: Filters, q: Query)
    requires f.minPrice <= d.price <= f.maxPrice
    requires |f.cuisines| > 0 ==> d.cuisine in f.cuisines
    requires f.instantBookOnly ==> d.instantBook
    requires f.superhostOnly ==> d.superhost
    requires Truthy(q.location) ==> MatchesLocation(d, q.location.value)
    requires q.guests.Some? && q.guests.value != 0 ==> d.capacity >= q.guests.value
    ensures Keep(d, f, q)
  {
  }

  /** The sort orders offered; any other value falls back to the recommended order. */
  datatype SortMode = PriceLow | PriceHigh | ByRating | ByDate | Recommended

  function ModeOf(sortBy: string): SortMode {
    if sortBy == "price-low" then PriceLow
    else if sortBy == "price-high" then PriceHigh
    else if sortBy == "rating" then ByRating
    else if sortBy == "date" then ByDate
    else Recommended
  }

  /** `compare(a, b) <= 0` for the comparator of each sort order: `a` may stand before `b`. */
  predicate Precedes(a: Listing, b: Listing, mode: SortMode) {
    match mode
    case PriceLow => a.price - b.price <= 0
    case PriceHigh => b.price - a.price <= 0
    case ByRating => b.rating - a.rating <= 0.0
    case ByDate => a.startsAt - b.startsAt <= 0
    case Recommended =>
      if b.rating != a.rating then b.rating - a.rating <= 0.0 else b.reviewCount - a.reviewCount <= 0
  }

  /** What each comparator's `compare(a, b) <= 0` means as an order on the listings. */
  lemma PrecedesMeans(a: Listing, b: Listing, mode: SortMode)
    ensures mode == PriceLow ==> (Precedes(a, b, mode) <==> a.price <= b.price)
    ensures mode == PriceHigh ==> (Precedes(a, b, mode) <==> a.price >= b.price)
    ensures mode == ByRating ==> (Precedes(a, b, mode) <==> a.rating >= b.rating)
    ensures mode == ByDate ==> (Precedes(a, b, mode) <==> a.startsAt <= b.startsAt)
    ensures mode == Recommended ==>
      (Precedes(a, b, mode) <==>
        a.rating > b.rating || (a.rating == b.rating && a.reviewCount >= b.reviewCount))
  {
  }

  /** Each comparator is total: of two listings, one may stand before the other. */
  lemma PrecedesTotal(a: Listing, b: Listing, mode: SortMode)
    ensures Precedes(a, b, mode) || Precedes(b, a, mode)
  {
  }

  /** Each comparator is transitive. */
  lemma PrecedesTransitive(a: Listing, b: Listing, c: Listing, mode: SortMode)
    requires Precedes(a, b, mode) && Precedes(b, c, mode)
    ensures Precedes(a, c, mode)
  {
  }

  predicate SortedBy(s: seq<Listing>, mode: SortMode) {
    forall i, j | 0 <= i < j < |s| :: Precedes(s[i], s[j], mode)
  }

  /** The recommended order: higher ratings first, ties broken by more reviews. */
  lemma RecommendedOrder(s: seq<Listing>, i: int, j: int)
    requires SortedBy(s, Recommended)
    requires 0 <= i < j < |s|
    ensures s[i].rating >= s[j].rating
    ensures s[i].rating == s[j].rating ==> s[i].reviewCount >= s[j].reviewCount
  {
  }

  method Swap(a: array<Listing>, i: int, j: int)
    requires 0 <= i < a.Length && 0 <= j < a.Length
    modifies a
    ensures a[i] == old(a[j]) && a[j] == old(a[i])
    ensures forall k | 0 <= k < a.Length && k != i && k != j :: a[k] == old(a[k])
    ensures multiset(a[..]) == multiset(old(a[..]))
  {
    a[i], a[j] := a[j], a[i];
  }

  /** `array.sort(compare)`, as an insertion sort: the array ends up ordered and holds the same listings. */
  method SortListings(a: array<Listing>, mode: SortMode)
    modifies a
    ensures SortedBy(a[..], mode)
    ensures multiset(a[..]) == multiset(old(a[..]))
  {
    var i := 0;
    while i < a.Length
      invariant 0 <= i <= a.Length
      invariant forall p, q | 0 <= p < q < i :: Precedes(a[p], a[q], mode)
      invariant multiset(a[..]) == multiset(old(a[..]))
    {
      var j := i;
      while j > 0 && !Precedes(a[j - 1], a[j], mode)
        invariant 0 <= j <= i
        invariant forall p, q | 0 <= p < q <= i && q != j :: Precedes(a[p], a[q], mode)
        invariant multiset(a[..]) == multiset(old(a[..]))
      {
        PrecedesTotal(a[j - 1], a[j], mode);
        Swap(a, j - 1, j);
        j := j - 1;
      }
      forall p, q | 0 <= p < q <= i
        ensures Precedes(a[p], a[q], mode)
      {
        if q == j && p < j - 1 {
          PrecedesTransitive(a[p], a[j - 1], a[j], mode);
        }
      }
      i := i + 1;
    }
  }

  /**
   * The listings the page shows: those the filters keep, each as often as
   * in the input, in the chosen order.
   */
  method FilteredDinners(dinners: seq<Listing>, f: Filters, q: Query, sortBy: string) returns (r: seq<Listing>)
    ensures multiset(r) == multiset(Filter(dinners, d => Keep(d, f, q)))
    ensures SortedBy(r, ModeOf(sortBy))
    ensures forall d :: multiset(r)[d] == if Keep(d, f, q) then multiset(dinners)[d] else 0
  {
    var kept := Filter(dinners, d => Keep(d, f, q));
    var a := new Listing[|kept|](i requires 0 <= i < |kept| => kept[i]);
    assert a[..] == kept;
    SortListings(a, ModeOf(sortBy));
    r := a[..];
    forall d
      ensures multiset(r)[d] == if Keep(d, f, q) then multiset(dinners)[d] else 0
    {
      FilterCount(dinners, d => Keep(d, f, q), d);
    }
  }

  /** The page's filter state, edited in place by the controls. */
  class SearchFilters {
    var minPrice: int
    var maxPrice: int
    var selectedCuisines: seq<string>
    var instantBookOnly: bool
    var superhostOnly: bool
    var sortBy: string

    function Snapshot(): Filters
      reads this
    {
      Filters(minPrice, maxPrice, selectedCuisines, instantBookOnly, superhostOnly)
    }

    constructor()
      ensures Snapshot() == ClearedFilters()
      ensures sortBy == "recommended" && ModeOf(sortBy) == Recommended
    {
      minPrice := DEFAULT_MIN_PRICE;
      maxPrice := DEFAULT_MAX_PRICE;
      selectedCuisines := [];
      instantBookOnly := false;
      superhostOnly := false;
      sortBy := "recommended";
    }

    /** Select a cuisine that is not selected, or deselect one that is. */
    method ToggleCuisine(cuisine: string)
      modifies this`selectedCuisines
      ensures selectedCuisines == Toggle(old(selectedCuisines), cuisine)
      ensures cuisine in selectedCuisines <==> cuisine !in old(selectedCuisines)
    {
      if cuisine in selectedCuisines {
        selectedCuisines := RemoveAll(selectedCuisines, cuisine);
      } else {
        selectedCuisines := selectedCuisines + [cuisine];
      }
    }

    /** Reset the price range, cuisines and switches; the sort order stays. */
    method ClearFilters()
      modifies this
      ensures Snapshot() == ClearedFilters() && !HasActiveFilters(Snapshot())
      ensures sortBy == old(sortBy)
    {
      minPrice := DEFAULT_MIN_PRICE;
      maxPrice := DEFAULT_MAX_PRICE;
      selectedCuisines := [];
      instantBookOnly := false;
      superhostOnly := false;
    }
  }
}
