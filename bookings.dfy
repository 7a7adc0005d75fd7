/**
 * The guest's bookings as the bookings page and the profile page load them:
 * normalising the endpoint's several response shapes to one list, filling
 * in each booking's total and listing, and the guest bookings page itself.
 */
module Bookings {
  import opened Wrappers
  import opened Text
  import opened Api

  const LOAD_FAILED := "Failed to load your bookings"

  /** `[...(field || [])]`: the elements of an array field, none for a falsy one; spreading any other value throws. */
  function Spread(f: JsonField<Booking>): (r: Option<seq<Booking>>)
    ensures r.None? <==> f.OtherTruthy?
    ensures f.Arr? ==> r == Some(f.elems)
    ensures f.FalsyField? ==> r == Some([])
  {
    match f
    case Arr(elems) => Some(elems)
    case FalsyField => Some([])
    case OtherTruthy => None
  }

  /** The bookings a response body carries somewhere in it. */
  predicate InBody(b: Booking, data: BookingsJson) {
    match data
    case JArray(elems) => b in elems
    case JObject(items, upcoming, past) =>
      (items.Arr? && b in items.elems) || (upcoming.Arr? && b in upcoming.elems) || (past.Arr? && b in past.elems)
    case JOther => false
  }

  /**
   * One list from any response shape: a bare array; an object's `items`;
   * its `upcoming` followed by its `past`; nothing otherwise. `None` when
   * spreading a non-array `upcoming` or `past` throws.
   */
  function Normalize(data: BookingsJson): (r: Option<seq<Booking>>)
    ensures r.None? <==>
      data.JObject? && !data.items.Arr? && (data.upcoming.Arr? || data.past.Arr?) &&
      (data.upcoming.OtherTruthy? || data.past.OtherTruthy?)
    ensures data.JArray? ==> r == Some(data.elems)
    ensures data.JObject? && data.items.Arr? ==> r == Some(data.items.elems)
    ensures data.JObject? && !data.items.Arr? && data.upcoming.Arr? && data.past.Arr? ==>
      r == Some(data.upcoming.elems + data.past.elems)
    ensures data.JObject? && !data.items.Arr? && data.upcoming.Arr? && data.past.FalsyField? ==>
      r == Some(data.upcoming.elems)
    ensures data.JObject? && !data.items.Arr? && data.upcoming.FalsyField? && data.past.Arr? ==>
      r == Some(data.past.elems)
    ensures data.JObject? && !data.items.Arr? && !data.upcoming.Arr? && !data.past.Arr? ==> r == Some([])
    ensures data.JOther? ==> r == Some([])
    ensures r.Some? ==> forall b | b in r.value :: InBody(b, data)
  {
    match data
    case JArray(elems) => Some(elems)
    case JOther => Some([])
    case JObject(items, upcoming, past) =>
      if items.Arr? then Some(items.elems)
      else if upcoming.Arr? || past.Arr? then
        match (Spread(upcoming), Spread(past))
        case (Some(u), Some(p)) =>
          assert u + [] == u && [] + p == p;
          Some(u + p)
        case _ => None
      else Some([])
  }

  /** Whatever the bookings call does when it fails, the page ends up with an empty list and no error. */
  lemma FailedFetchGivesEmptyList(reply: Reply<BookingsJson>)
    requires !(Ok(reply) && reply.body.Parsed?)
    ensures Normalize(GetMyBookings(reply)) == Some([])
  {
  }

  /** `(dinner?.price || 0) * (seats || 1)`, or the booking's own total when truthy. */
  function PriceFor(totalPrice: Option<int>, dinner: Option<Item>, seats: Option<int>): (price: int)
    ensures NumTruthy(totalPrice) ==> price == totalPrice.value
    ensures !NumTruthy(totalPrice) && (dinner.None? || !NumTruthy(dinner.value.price)) ==> price == 0
    ensures !NumTruthy(totalPrice) && !NumTruthy(seats) && dinner.Some? && NumTruthy(dinner.value.price) ==>
      price == dinner.value.price.value
    ensures !NumTruthy(totalPrice) && NumTruthy(seats) && dinner.Some? && NumTruthy(dinner.value.price) ==>
      price == dinner.value.price.value * seats.value
  {
    if NumTruthy(totalPrice) then totalPrice.value
    else
      var unit := if dinner.Some? && NumTruthy(dinner.value.price) then dinner.value.price.value else 0;
      unit * (if NumTruthy(seats) then seats.value else 1)
  }

  /** A booking whose listing is missing but whose listing id is known gets its listing fetched. */
  predicate NeedsDinner(b: Booking) {
    b.dinner.None? && Truthy(b.dinnerId)
  }

  /** The listing the booking carries after enrichment. */
  function AttachedDinner(b: Booking, fetchDinner: string -> Option<Item>): Option<Item> {
    if NeedsDinner(b) then fetchDinner(b.dinnerId.value) else b.dinner
  }

  /**
   * Enrichment as written: the total is computed before the listing is
   * fetched, so a fetched listing's price never reaches the total.
   */
  function EnrichOneAsWritten(b: Booking, fetchDinner: string -> Option<Item>): (e: Booking)
    ensures e.id == b.id && e.status == b.status && e.seats == b.seats && e.dinnerId == b.dinnerId
    ensures e.dinner == AttachedDinner(b, fetchDinner)
    ensures e.totalPrice == Some(PriceFor(b.totalPrice, b.dinner, b.seats))
  {
    var price := PriceFor(b.totalPrice, b.dinner, b.seats);
    if NeedsDinner(b) then b.(dinner := fetchDinner(b.dinnerId.value), totalPrice := Some(price))
    else b.(totalPrice := Some(price))
  }

  /**
   * A booking without a total whose listing is fetched: two seats at 85 are
   * shown as a total of 0, although the listing is attached.
   */
  lemma FetchedPriceIgnoredAsWritten()
    ensures var item := Item("d1", Some(85), [], UNKNOWN_HOST, Some([]));
      var b := Booking("b1", "confirmed", None, Some(2), None, Some("d1"));
      var e := EnrichOneAsWritten(b, id => Some(item));
      e.dinner == Some(item) && e.totalPrice == Some(0) &&
      PriceFor(None, e.dinner, e.seats) == 170
  {
  }

  /**
   * As written, every booking whose listing had to be fetched and which has
   * no total of its own shows a total of 0; every other booking is enriched
   * as the corrected rule does.
   */
  lemma AsWrittenDiffersOnlyOnFetchedListings(b: Booking, fetchDinner: string -> Option<Item>)
    ensures NeedsDinner(b) && !NumTruthy(b.totalPrice) ==> EnrichOneAsWritten(b, fetchDinner).totalPrice == Some(0)
    ensures !NeedsDinner(b) || NumTruthy(b.totalPrice) ==> EnrichOneAsWritten(b, fetchDinner) == EnrichOne(b, fetchDinner)
  {
  }

  /** Enrichment with the total computed from the listing the booking ends up with. */
  function EnrichOne(b: Booking, fetchDinner: string -> Option<Item>): (e: Booking)
    ensures e.id == b.id && e.status == b.status && e.seats == b.seats && e.dinnerId == b.dinnerId
    ensures e.dinner == AttachedDinner(b, fetchDinner)
    ensures NumTruthy(b.totalPrice) ==> e.totalPrice == b.totalPrice
    ensures e.totalPrice == Some(PriceFor(b.totalPrice, e.dinner, e.seats))
  {
    var dinner := AttachedDinner(b, fetchDinner);
    b.(dinner := dinner, totalPrice := Some(PriceFor(b.totalPrice, dinner, b.seats)))
  }

  /** `Promise.all(bookings.map(enrich))`: every booking enriched, in the original order. */
  function Enrich(bs: seq<Booking>, fetchDinner: string -> Option<Item>): (r: seq<Booking>)
    ensures |r| == |bs|
    ensures forall i | 0 <= i < |bs| :: r[i] == EnrichOne(bs[i], fetchDinner)
  {
    if bs == [] then [] else [EnrichOne(bs[0], fetchDinner)] + Enrich(bs[1..], fetchDinner)
  }

  /** `Promise.all(bookings.map(enrich))` with the enrichment as written. */
  function EnrichAsWritten(bs: seq<Booking>, fetchDinner: string -> Option<Item>): (r: seq<Booking>)
    ensures |r| == |bs|
    ensures forall i | 0 <= i < |bs| :: r[i] == EnrichOneAsWritten(bs[i], fetchDinner)
  {
    if bs == [] then [] else [EnrichOneAsWritten(bs[0], fetchDinner)] + EnrichAsWritten(bs[1..], fetchDinner)
  }

  /** Enriching an enriched booking changes nothing: its total already reflects the listing it carries. */
  lemma EnrichOneIdempotent(b: Booking, fetchDinner: string -> Option<Item>)
    ensures EnrichOne(EnrichOne(b, fetchDinner), fetchDinner) == EnrichOne(b, fetchDinner)
  {
  }

  /** Enriching an enriched list changes nothing. */
  lemma EnrichIdempotent(bs: seq<Booking>, fetchDinner: string -> Option<Item>)
    ensures Enrich(Enrich(bs, fetchDinner), fetchDinner) == Enrich(bs, fetchDinner)
  {
    var once := Enrich(bs, fetchDinner);
    forall i | 0 <= i < |bs|
      ensures Enrich(once, fetchDinner)[i] == once[i]
    {
      EnrichOneIdempotent(bs[i], fetchDinner);
    }
  }

  /** The badge colour of a booking status on the guest bookings page. */
  function GuestStatusColor(status: string): (c: string)
    ensures status == "confirmed" <==> c == "bg-green-100 text-green-800"
    ensures status == "pending" <==> c == "bg-yellow-100 text-yellow-800"
    ensures status == "cancelled" <==> c == "bg-red-100 text-red-800"
    ensures status !in {"confirmed", "pending", "cancelled"} <==> c == "bg-gray-100 text-gray-800"
  {
    if status == "confirmed" then "bg-green-100 text-green-800"
    else if status == "pending" then "bg-yellow-100 text-yellow-800"
    else if status == "cancelled" then "bg-red-100 text-red-800"
    else "bg-gray-100 text-gray-800"
  }

  /**
   * The bookings a page shows after a load, with the corrected totals, or
   * `None` (and an error toast) when normalising throws.
   */
  function LoadBookings(reply: Reply<BookingsJson>, fetchDinner: string -> Option<Item>): (r: Option<seq<Booking>>)
    ensures r.None? <==> Normalize(GetMyBookings(reply)).None?
    ensures r.Some? ==> |r.value| == |Normalize(GetMyBookings(reply)).value|
    ensures r.Some? ==> forall i | 0 <= i < |r.value| ::
      r.value[i] == EnrichOne(Normalize(GetMyBookings(reply)).value[i], fetchDinner)
  {
    match Normalize(GetMyBookings(reply))
    case None => None
    case Some(raw) => Some(Enrich(raw, fetchDinner))
  }

  /** The same load with the enrichment as written. */
  function LoadBookingsAsWritten(reply: Reply<BookingsJson>, fetchDinner: string -> Option<Item>): (r: Option<seq<Booking>>)
    ensures r.None? <==> Normalize(GetMyBookings(reply)).None?
    ensures r.Some? ==> |r.value| == |Normalize(GetMyBookings(reply)).value|
    ensures r.Some? ==> forall i | 0 <= i < |r.value| ::
      r.value[i] == EnrichOneAsWritten(Normalize(GetMyBookings(reply)).value[i], fetchDinner)
  {
    match Normalize(GetMyBookings(reply))
    case None => None
    case Some(raw) => Some(EnrichAsWritten(raw, fetchDinner))
  }

  /**
   * The load as written and the corrected load show the same bookings,
   * except that a booking whose listing was fetched and which has no total
   * of its own shows 0 as written.
   */
  lemma LoadAsWrittenDiffersOnlyOnFetchedListings(reply: Reply<BookingsJson>, fetchDinner: string -> Option<Item>)
    ensures LoadBookingsAsWritten(reply, fetchDinner).Some? <==> LoadBookings(reply, fetchDinner).Some?
    ensures LoadBookings(reply, fetchDinner).Some? ==>
      var raw := Normalize(GetMyBookings(reply)).value;
      var shown := LoadBookingsAsWritten(reply, fetchDinner).value;
      var fixed := LoadBookings(reply, fetchDinner).value;
      |shown| == |fixed| == |raw| &&
      forall i | 0 <= i < |raw| ::
        (NeedsDinner(raw[i]) && !NumTruthy(raw[i].totalPrice) ==>
          shown[i] == fixed[i].(totalPrice := Some(0))) &&
        (!NeedsDinner(raw[i]) || NumTruthy(raw[i].totalPrice) ==> shown[i] == fixed[i])
  {
    if LoadBookings(reply, fetchDinner).Some? {
      var raw := Normalize(GetMyBookings(reply)).value;
      forall i | 0 <= i < |raw|
        ensures NeedsDinner(raw[i]) && !NumTruthy(raw[i].totalPrice) ==>
          EnrichOneAsWritten(raw[i], fetchDinner) == EnrichOne(raw[i], fetchDinner).(totalPrice := Some(0))
        ensures !NeedsDinner(raw[i]) || NumTruthy(raw[i].totalPrice) ==>
          EnrichOneAsWritten(raw[i], fetchDinner) == EnrichOne(raw[i], fetchDinner)
      {
        AsWrittenDiffersOnlyOnFetchedListings(raw[i], fetchDinner);
      }
    }
  }

  /** The guest bookings page: the loaded bookings and whether the first load is still pending. */
  class GuestBookingsPage {
    var bookings: seq<Booking>
    var loading: bool

    constructor()
      ensures bookings == [] && loading
    {
      bookings := [];
      loading := true;
    }

    /**
     * Load the bookings for the session's token. Without a token nothing
     * happens, so the page keeps showing its loading state.
     */
    method FetchBookings(token: Option<string>, reply: Reply<BookingsJson>, fetchDinner: string -> Option<Item>)
      returns (toast: Option<string>)
      modifies this
      ensures !Truthy(token) ==> bookings == old(bookings) && loading == old(loading) && toast.None?
      ensures Truthy(token) ==> !loading
      ensures Truthy(token) && LoadBookings(reply, fetchDinner).Some? ==>
        bookings == LoadBookings(reply, fetchDinner).value && toast.None?
      ensures Truthy(token) && LoadBookings(reply, fetchDinner).None? ==>
        bookings == old(bookings) && toast == Some(LOAD_FAILED)
    {
      toast := None;
      if !Truthy(token) {
        return;
      }
      var data := GetMyBookings(reply);
      var raw := Normalize(data);
      if raw.None? {
        toast := Some(LOAD_FAILED);
      } else {
        bookings := Enrich(raw.value, fetchDinner);
      }
      loading := false;
    }
  }
}
