/**
 * The client for the external dinner backend: query building, the
 * normalisation of listings, and how each call maps failures to a safe
 * value or an error message.
 */
module Api {
  import opened Wrappers
  import opened Text

  /** A response body: parsed JSON, or a body that is not JSON (the parse error's message). */
  datatype JsonBody<T> = Parsed(value: T) | Unparsable(message: string)

  /** How a `fetch` ended: a response with its status and body, or a rejected promise. */
  datatype Reply<T> = Reply(status: int, body: JsonBody<T>) | NetworkError(message: string)

  /** `response.ok`. */
  predicate Ok<T>(r: Reply<T>) {
    r.Reply? && 200 <= r.status <= 299
  }

  datatype Host = Host(id: string, name: Option<string>, avatar: Option<string>)

  const UNKNOWN_HOST := Host("unknown", Some("Unknown Host"), None)

  /** A listing's price as the backend sends it: a `{amount, currency}` object, a bare number, `null`, or absent. */
  datatype RawPrice = PriceObject(amount: int) | PriceNumber(n: int) | PriceNull | PriceAbsent

  /** A listing as the backend sends it. */
  datatype RawItem = RawItem(id: string, price: RawPrice, images: Option<seq<string>>, host: Option<Host>)

  /** A listing as the front end uses it: a numeric price, an images array and a host are always there. */
  datatype Item = Item(id: string, price: Option<int>, images: seq<string>, host: Host, guests: Option<seq<string>>)

  datatype Page = Page(after: Option<string>)

  datatype DinnersBody = DinnersBody(items: Option<seq<RawItem>>, page: Option<Page>)

  /** What `getDinners` resolves to. */
  datatype DinnersResult = DinnersResult(items: seq<Item>, page: Option<Page>)

  const EMPTY_RESULT := DinnersResult([], Some(Page(None)))

  /** The parameters of a listing search; numbers that are 0 count as absent. */
  datatype DinnersParams = DinnersParams(
    q: Option<string>,
    city: Option<string>,
    date: Option<string>,
    minPrice: Option<int>,
    maxPrice: Option<int>,
    seats: Option<int>,
    limit: Option<int>,
    after: Option<string>)

  /** JavaScript truthiness of an optional number. */
  predicate NumTruthy(n: Option<int>) {
    n.Some? && n.value != 0
  }

  /** The query keys, in the order in which they are appended. */
  datatype QueryKey = QKey | CityKey | DateKey | MinPriceKey | MaxPriceKey | SeatsKey | LimitKey | AfterKey

  /** The key as it appears in the query string. */
  function KeyName(k: QueryKey): string {
    match k
    case QKey => "q"
    case CityKey => "city"
    case DateKey => "date"
    case MinPriceKey => "minPrice"
    case MaxPriceKey => "maxPrice"
    case SeatsKey => "seats"
    case LimitKey => "limit"
    case AfterKey => "after"
  }

  /** The position of a key in the append order. */
  function KeyRank(k: QueryKey): nat {
    match k
    case QKey => 0
    case CityKey => 1
    case DateKey => 2
    case MinPriceKey => 3
    case MaxPriceKey => 4
    case SeatsKey => 5
    case LimitKey => 6
    case AfterKey => 7
  }

  /** The value of the first entry with the given key. */
  function Lookup(query: seq<(QueryKey, string)>, key: QueryKey): Option<string> {
    if query == [] then None
    else if query[0].0 == key then Some(query[0].1)
    else Lookup(query[1..], key)
  }

  /** Keys appear at most once, in append order, and all rank below `bound`. */
  predicate InKeyOrder(query: seq<(QueryKey, string)>, bound: nat) {
    (forall i | 0 <= i < |query| :: KeyRank(query[i].0) < bound) &&
    (forall i, j | 0 <= i < j < |query| :: KeyRank(query[i].0) < KeyRank(query[j].0))
  }

  /** Appending a key ranked after every present key keeps the order. */
  lemma AppendKeepsOrder(query: seq<(QueryKey, string)>, bound: nat, key: QueryKey, value: string)
    requires InKeyOrder(query, bound) && bound <= KeyRank(key)
    ensures InKeyOrder(query + [(key, value)], KeyRank(key) + 1)
  {
    var q := query + [(key, value)];
    assert forall i | 0 <= i < |query| :: q[i] == query[i];
    assert q[|query|] == (key, value);
  }

  /** Appending an entry answers lookups the front did not already answer. */
  lemma {:induction false} AppendLookup(query: seq<(QueryKey, string)>, key: QueryKey, value: string, k: QueryKey)
    ensures Lookup(query + [(key, value)], k) ==
      if Lookup(query, k).Some? then Lookup(query, k) else if k == key then Some(value) else None
  {
    if query != [] {
      assert (query + [(key, value)])[1..] == query[1..] + [(key, value)];
      AppendLookup(query[1..], key, value, k);
    }
  }

  /** Appending an entry when the condition holds; nothing otherwise. */
  method AppendIf(query: seq<(QueryKey, string)>, bound: nat, key: QueryKey, value: Option<string>)
    returns (q: seq<(QueryKey, string)>)
    requires InKeyOrder(query, bound) && bound <= KeyRank(key)
    ensures InKeyOrder(q, KeyRank(key) + 1)
    ensures Lookup(q, key) == value
    ensures forall k | k != key :: Lookup(q, k) == Lookup(query, k)
  {
    AbsentBeyond(query, bound, key);
    q := query;
    if value.Some? {
      AppendKeepsOrder(query, bound, key, value.value);
      q := query + [(key, value.value)];
      forall k
        ensures Lookup(q, k) == if k == key then value else Lookup(query, k)
      {
        AppendLookup(query, key, value.value, k);
      }
    } else {
      assert InKeyOrder(query, KeyRank(key) + 1);
    }
  }

  /** Nothing ranked at or after `bound` is present. */
  lemma {:induction false} AbsentBeyond(query: seq<(QueryKey, string)>, bound: nat, key: QueryKey)
    requires InKeyOrder(query, bound) && bound <= KeyRank(key)
    ensures Lookup(query, key) == None
  {
    if query != [] {
      AbsentBeyond(query[1..], bound, key);
    }
  }

  /** Optional string parameter as it is appended: only when truthy. */
  function StrEntry(v: Option<string>): Option<string> {
    if Truthy(v) then v else None
  }

  /** Optional number parameter as it is appended: only when truthy, rendered with `toString`. */
  function NumEntry(v: Option<int>): Option<string> {
    if NumTruthy(v) then Some(IntToString(v.value)) else None
  }

  /**
   * The query string's entries: each parameter, in a fixed order, only when
   * truthy, so a price or seat count of 0 is omitted.
   */
  method BuildDinnerQuery(p: DinnersParams) returns (query: seq<(QueryKey, string)>)
    ensures InKeyOrder(query, 8)
    ensures Lookup(query, QKey) == StrEntry(p.q)
    ensures Lookup(query, CityKey) == StrEntry(p.city)
    ensures Lookup(query, DateKey) == StrEntry(p.date)
    ensures Lookup(query, MinPriceKey) == NumEntry(p.minPrice)
    ensures Lookup(query, MaxPriceKey) == NumEntry(p.maxPrice)
    ensures Lookup(query, SeatsKey) == NumEntry(p.seats)
    ensures Lookup(query, LimitKey) == NumEntry(p.limit)
    ensures Lookup(query, AfterKey) == StrEntry(p.after)
  {
    var q0: seq<(QueryKey, string)> := [];
    var q1 := AppendIf(q0, 0, QKey, StrEntry(p.q));
    var q2 := AppendIf(q1, 1, CityKey, StrEntry(p.city));
    var q3 := AppendIf(q2, 2, DateKey, StrEntry(p.date));
    var q4 := AppendIf(q3, 3, MinPriceKey, NumEntry(p.minPrice));
    var q5 := AppendIf(q4, 4, MaxPriceKey, NumEntry(p.maxPrice));
    var q6 := AppendIf(q5, 5, SeatsKey, NumEntry(p.seats));
    var q7 := AppendIf(q6, 6, LimitKey, NumEntry(p.limit));
    query := AppendIf(q7, 7, AfterKey, StrEntry(p.after));
  }

  /** `typeof price === "object" ? price.amount : price`; `None` for a null price, whose `.amount` throws. */
  function PriceOf(p: RawPrice): Option<Option<int>> {
    match p
    case PriceObject(amount) => Some(Some(amount))
    case PriceNumber(n) => Some(Some(n))
    case PriceNull => None
    case PriceAbsent => Some(None)
  }

  /**
   * The listing normalisation: the price object becomes its amount, missing
   * images become an empty array, a missing host becomes the placeholder
   * host. A null price makes the mapping throw (`None`).
   */
  function MapItem(raw: RawItem): (r: Option<Item>)
    ensures r.None? <==> raw.price.PriceNull?
    ensures r.Some? ==> r.value.id == raw.id && r.value.guests.None?
    ensures r.Some? && raw.price.PriceObject? ==> r.value.price == Some(raw.price.amount)
    ensures r.Some? && raw.price.PriceNumber? ==> r.value.price == Some(raw.price.n)
    ensures r.Some? ==> r.value.images == (if raw.images.Some? then raw.images.value else [])
    ensures r.Some? ==> r.value.host == (if raw.host.Some? then raw.host.value else UNKNOWN_HOST)
  {
    match PriceOf(raw.price)
    case None => None
    case Some(price) =>
      Some(Item(raw.id, price, if raw.images.Some? then raw.images.value else [],
                if raw.host.Some? then raw.host.value else UNKNOWN_HOST, None))
  }

  /** A normalised listing, written back in the backend's shape. */
  function AsRaw(item: Item): RawItem {
    RawItem(item.id, if item.price.Some? then PriceNumber(item.price.value) else PriceAbsent,
            Some(item.images), Some(item.host))
  }

  /** The normalisation is a fixpoint on its own output: normalising a normalised listing changes nothing. */
  lemma MapItemIdempotent(raw: RawItem)
    requires MapItem(raw).Some?
    ensures MapItem(AsRaw(MapItem(raw).value)) == MapItem(raw)
  {
  }

  /** `items.map(mapItem)`: `None` when any item's mapping throws. */
  function MapAll(raws: seq<RawItem>): (r: Option<seq<Item>>)
    ensures r.None? <==> exists i | 0 <= i < |raws| :: raws[i].price.PriceNull?
    ensures r.Some? ==> |r.value| == |raws| && forall i | 0 <= i < |raws| :: Some(r.value[i]) == MapItem(raws[i])
  {
    if raws == [] then Some([])
    else
      match MapItem(raws[0])
      case None => None
      case Some(first) =>
        match MapAll(raws[1..])
        case None =>
          assert exists i | 0 <= i < |raws[1..]| :: raws[1..][i].price.PriceNull?;
          None
        case Some(rest) =>
          assert forall i | 1 <= i < |raws| :: raws[i] == raws[1..][i - 1];
          Some([first] + rest)
  }

  /**
   * `getDinners`: the normalised listings and the page cursor, or an empty
   * page on any failure (network error, non-ok status, unparsable body,
   * missing items array, a null price).
   */
  function GetDinners(reply: Reply<DinnersBody>): (r: DinnersResult)
    ensures !Ok(reply) || reply.body.Unparsable? ==> r == EMPTY_RESULT
    ensures Ok(reply) && reply.body.Parsed? && reply.body.value.items.Some? &&
            MapAll(reply.body.value.items.value).Some? ==>
      r == DinnersResult(MapAll(reply.body.value.items.value).value, reply.body.value.page)
    ensures Ok(reply) && reply.body.Parsed? && reply.body.value.items.None? ==> r == EMPTY_RESULT
    ensures Ok(reply) && reply.body.Parsed? && reply.body.value.items.Some? &&
            (exists i | 0 <= i < |reply.body.value.items.value| :: reply.body.value.items.value[i].price.PriceNull?) ==>
      r == EMPTY_RESULT
    ensures r != EMPTY_RESULT ==> Ok(reply) && reply.body.Parsed?
  {
    if !Ok(reply) then EMPTY_RESULT
    else
      match reply.body
      case Unparsable(_) => EMPTY_RESULT
      case Parsed(data) =>
        if data.items.None? then EMPTY_RESULT
        else
          match MapAll(data.items.value)
          case None => EMPTY_RESULT
          case Some(items) => DinnersResult(items, data.page)
  }

  /** One field of a JSON object, as the bookings normalisation tests it. */
  datatype JsonField<T> = Arr(elems: seq<T>) | FalsyField | OtherTruthy

  /** A booking as the bookings endpoint returns it, possibly enriched with its listing. */
  datatype Booking = Booking(
    id: string,
    status: string,
    totalPrice: Option<int>,
    seats: Option<int>,
    dinner: Option<Item>,
    dinnerId: Option<string>)

  /** The body of the bookings endpoint: an array, an object with array-or-not fields, or any other JSON value. */
  datatype BookingsJson =
    | JArray(elems: seq<Booking>)
    | JObject(items: JsonField<Booking>, upcoming: JsonField<Booking>, past: JsonField<Booking>)
    | JOther

  /** `getMyBookings`: the body on success; an empty array for 404 and for every failure. */
  function GetMyBookings(reply: Reply<BookingsJson>): (r: BookingsJson)
    ensures Ok(reply) && reply.body.Parsed? ==> r == reply.body.value
    ensures !(Ok(reply) && reply.body.Parsed?) ==> r == JArray([])
  {
    if Ok(reply) && reply.body.Parsed? then reply.body.value else JArray([])
  }

  /**
   * `getDinnerById`: the normalised listing with an empty guest list; `None`
   * for 404 and for every failure, including a JSON `null` body.
   */
  function GetDinnerById(reply: Reply<Option<RawItem>>): (r: Option<Item>)
    ensures r.Some? <==>
      Ok(reply) && reply.body.Parsed? && reply.body.value.Some? && !reply.body.value.value.price.PriceNull?
    ensures r.Some? ==> r.value == MapItem(reply.body.value.value).value.(guests := Some([]))
    ensures r.Some? ==> r.value.guests == Some([])
  {
    if !Ok(reply) then None
    else
      match reply.body
      case Unparsable(_) => None
      case Parsed(item) =>
        if item.None? then None
        else
          match MapItem(item.value)
          case None => None
          case Some(mapped) => Some(mapped.(guests := Some([])))
  }

  /**
   * A write call's outcome (`createDinner`, `bookDinner`): success when the
   * response is ok and JSON; otherwise the error it throws, whose message is
   * the backend's `message` when truthy, else `<prefix><status>`.
   */
  function WriteOutcome(reply: Reply<Option<string>>, prefix: string): (r: Result<(), string>)
    ensures r.Success? <==> Ok(reply) && reply.body.Parsed?
    ensures reply.Reply? && !Ok(reply) && reply.body.Parsed? && Truthy(reply.body.value) ==>
      r == Failure(reply.body.value.value)
    ensures reply.Reply? && !Ok(reply) && !(reply.body.Parsed? && Truthy(reply.body.value)) ==>
      r == Failure(prefix + IntToString(reply.status))
    ensures reply.NetworkError? ==> r == Failure(reply.message)
  {
    match reply
    case NetworkError(message) => Failure(message)
    case Reply(status, body) =>
      if !Ok(reply) then
        var message := if body.Parsed? then body.value else None;
        Failure(if Truthy(message) then message.value else prefix + IntToString(status))
      else
        match body
        case Unparsable(message) => Failure(message)
        case Parsed(_) => Success(())
  }

  /** `createDinner`: the outcome of the POST to `/api/dinners`. */
  function CreateDinner(reply: Reply<Option<string>>): (r: Result<(), string>)
    ensures r.Success? <==> Ok(reply) && reply.body.Parsed?
    ensures reply.Reply? && !Ok(reply) && reply.body.Unparsable? ==>
      r == Failure("Failed to create dinner: " + IntToString(reply.status))
  {
    WriteOutcome(reply, "Failed to create dinner: ")
  }

  /** `bookDinner`: the outcome of the POST to `/api/dinners/{id}/bookings`. */
  function BookDinner(reply: Reply<Option<string>>): (r: Result<(), string>)
    ensures r.Success? <==> Ok(reply) && reply.body.Parsed?
    ensures reply.Reply? && !Ok(reply) && reply.body.Unparsable? ==>
      r == Failure("Failed to book dinner: " + IntToString(reply.status))
  {
    WriteOutcome(reply, "Failed to book dinner: ")
  }

  /**
   * When the backend gives no message, the error message names the status,
   * so two failures with different statuses never read the same.
   */
  lemma StatusIsRecoverable(r1: Reply<Option<string>>, r2: Reply<Option<string>>)
    requires r1.Reply? && !Ok(r1) && r1.body.Unparsable?
    requires r2.Reply? && !Ok(r2) && r2.body.Unparsable?
    requires CreateDinner(r1) == CreateDinner(r2)
    ensures r1.status == r2.status
  {
    var prefix := "Failed to create dinner: ";
    assert prefix + IntToString(r1.status) == prefix + IntToString(r2.status);
    assert IntToString(r1.status) == (prefix + IntToString(r1.status))[|prefix|..];
    assert IntToString(r2.status) == (prefix + IntToString(r2.status))[|prefix|..];
    IntToStringInjective(r1.status, r2.status);
  }
}
