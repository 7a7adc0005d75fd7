/**
 * The listing detail page: the full-screen image carousel and its keyboard
 * control, and the booking panel's guest count, subtotal and button.
 */
module DinnerDetail {
  import opened Wrappers
  import opened Lists
  import ImageIndex

  const ARROW_LEFT := "ArrowLeft"
  const ARROW_RIGHT := "ArrowRight"
  const ESCAPE := "Escape"
  const DEFAULT_GUESTS := 2

  /** A JavaScript number as far as the carousel index needs one: an integer, or NaN. */
  datatype JsNumber = Num(n: int) | NaN

  /** JavaScript's `%`: NaN for a zero divisor or a NaN operand; otherwise the sign follows the dividend. */
  function JsRem(a: JsNumber, b: int): JsNumber {
    if a.NaN? || b == 0 then NaN
    else
      var m := (if a.n < 0 then -a.n else a.n) % (if b < 0 then -b else b);
      Num(if a.n < 0 then -m else m)
  }

  /** `(prev + 1) % images.length`, as written. */
  function NextAsWritten(prev: JsNumber, count: nat): JsNumber {
    match prev
    case NaN => NaN
    case Num(i) => JsRem(Num(i + 1), count)
  }

  /** `(prev - 1 + images.length) % images.length`, as written. */
  function PrevAsWritten(prev: JsNumber, count: nat): JsNumber {
    match prev
    case NaN => NaN
    case Num(i) => JsRem(Num(i - 1 + count), count)
  }

  /**
   * A listing without images still shows its main picture (a fallback URL),
   * and clicking it opens the carousel at 0. The carousel's arrows are always
   * shown, and either of them turns the index into NaN, which no later
   * arrow press repairs.
   */
  lemma EmptyGalleryArrowGivesNaN()
    ensures NextAsWritten(Num(0), 0) == NaN
    ensures PrevAsWritten(Num(0), 0) == NaN
    ensures forall count: nat :: NextAsWritten(NaN, count) == NaN && PrevAsWritten(NaN, count) == NaN
  {
  }

  /** On a non-empty gallery the arithmetic as written agrees with the wrap-around of the corrected carousel. */
  lemma AsWrittenAgreesOnNonEmptyGallery(i: int, count: nat)
    requires 0 <= i < count
    ensures NextAsWritten(Num(i), count) == Num(ImageIndex.Next(i, count))
    ensures PrevAsWritten(Num(i), count) == Num(ImageIndex.Prev(i, count))
  {
  }

  /**
   * The carousel over a listing's gallery: open or closed, and the image it
   * shows. The arrows leave an empty gallery at position 0.
   */
  class Carousel {
    const imageCount: nat
    var index: int
    var isOpen: bool

    /** The position is an index into the gallery, or 0 for an empty one. */
    ghost predicate Valid()
      reads this
    {
      if imageCount > 0 then 0 <= index < imageCount else index == 0
    }

    constructor(imageCount: nat)
      ensures this.imageCount == imageCount && index == 0 && !isOpen && Valid()
    {
      this.imageCount := imageCount;
      index := 0;
      isOpen := false;
    }

    /**
     * `openCarousel(i)`: the main picture opens at 0 and each of the up to
     * four thumbnails at its own position in the gallery.
     */
    method Open(i: int)
      requires Valid() && 0 <= i && (i == 0 || i < imageCount)
      modifies this
      ensures Valid() && index == i && isOpen
    {
      index := i;
      isOpen := true;
    }

    /** `closeCarousel()`: only the open flag changes. */
    method Close()
      modifies this`isOpen
      ensures !isOpen
    {
      isOpen := false;
    }

    method Next()
      requires Valid()
      modifies this`index
      ensures Valid()
      ensures imageCount > 0 ==> index == ImageIndex.Next(old(index), imageCount)
      ensures imageCount == 0 ==> index == old(index)
    {
      if imageCount > 0 {
        index := (index + 1) % imageCount;
      }
    }

    method Prev()
      requires Valid()
      modifies this`index
      ensures Valid()
      ensures imageCount > 0 ==> index == ImageIndex.Prev(old(index), imageCount)
      ensures imageCount == 0 ==> index == old(index)
    {
      if imageCount > 0 {
        index := (index - 1 + imageCount) % imageCount;
      }
    }

    /**
     * `handleKeyDown`: nothing while closed; the left and right arrows move
     * back and forward, Escape closes, and every other key is ignored.
     */
    method HandleKey(key: string)
      requires Valid()
      modifies this`index, this`isOpen
      ensures Valid()
      ensures !old(isOpen) ==> index == old(index) && isOpen == old(isOpen)
      ensures old(isOpen) && key == ESCAPE ==> !isOpen && index == old(index)
      ensures old(isOpen) && key == ARROW_RIGHT && imageCount > 0 ==>
        isOpen && index == ImageIndex.Next(old(index), imageCount)
      ensures old(isOpen) && key == ARROW_LEFT && imageCount > 0 ==>
        isOpen && index == ImageIndex.Prev(old(index), imageCount)
      ensures key !in {ARROW_LEFT, ARROW_RIGHT, ESCAPE} ==> index == old(index) && isOpen == old(isOpen)
    {
      if !isOpen {
        return;
      }
      if key == ARROW_LEFT {
        Prev();
      } else if key == ARROW_RIGHT {
        Next();
      } else if key == ESCAPE {
        Close();
      }
    }
  }

  /** `[...Array(capacity)].map((_, i) => i + 1)`: the guest counts offered. */
  function GuestOptions(capacity: nat): (options: seq<int>)
    ensures |options| == capacity
    ensures forall g :: g in options <==> 1 <= g <= capacity
    ensures forall i, j | 0 <= i < j < |options| :: options[i] < options[j]
  {
    var options := seq(capacity, i => i + 1);
    forall g | 1 <= g <= capacity
      ensures g in options
    {
      assert options[g - 1] == g;
    }
    options
  }

  /** `dinner.price * selectedGuests`: the line "$price x guests". */
  function Subtotal(price: int, guests: int): (subtotal: int)
    ensures guests == 1 ==> subtotal == price
    ensures 0 <= price && 1 <= guests ==> price <= subtotal
    ensures price == 0 || guests == 0 ==> subtotal == 0
  {
    price * guests
  }

  /** One more guest adds one more price to the subtotal. */
  lemma SubtotalPerGuest(price: int, guests: int)
    ensures Subtotal(price, guests + 1) == Subtotal(price, guests) + price
  {
  }

  /**
   * `Math.round(subtotal * 0.14)`, with 0.14 taken as the exact decimal:
   * `Math.round(x)` is the floor of `x + 0.5`.
   */
  function ServiceFee(subtotal: int): (fee: int)
    ensures 100 * fee <= 14 * subtotal + 50 < 100 * fee + 100
  {
    (14 * subtotal + 50) / 100
  }

  /** `Math.round(subtotal * 1.14)`, with 1.14 taken as the exact decimal. */
  function BookingTotal(subtotal: int): (total: int)
    ensures 100 * total <= 114 * subtotal + 50 < 100 * total + 100
  {
    (114 * subtotal + 50) / 100
  }

  /** The total line is the subtotal line plus the service-fee line: rounding loses nothing between them. */
  lemma TotalIsSubtotalPlusFee(subtotal: int)
    ensures BookingTotal(subtotal) == subtotal + ServiceFee(subtotal)
  {
    var fee := ServiceFee(subtotal);
    assert 100 * (subtotal + fee) <= 114 * subtotal + 50 < 100 * (subtotal + fee) + 100;
    TotalUnique(114 * subtotal + 50, BookingTotal(subtotal), subtotal + fee);
  }

  /** Two floors of the same quotient are equal. */
  lemma TotalUnique(n: int, a: int, b: int)
    requires 100 * a <= n < 100 * a + 100
    requires 100 * b <= n < 100 * b + 100
    ensures a == b
  {
  }

  /** The booking panel: the chosen date, if any, and the chosen guest count. */
  class BookingPanel {
    const price: int
    const capacity: nat
    var selectedDate: Option<int>
    var selectedGuests: int

    constructor(price: int, capacity: nat)
      ensures this.price == price && this.capacity == capacity
      ensures selectedDate.None? && selectedGuests == DEFAULT_GUESTS
      ensures BookingDisabled() && ShownSubtotal() == 2 * price
    {
      this.price := price;
      this.capacity := capacity;
      selectedDate := None;
      selectedGuests := DEFAULT_GUESTS;
    }

    /** `disabled={!selectedDate}`. */
    predicate BookingDisabled()
      reads this
    {
      selectedDate.None?
    }

    /** The subtotal the panel shows for the current guest count. */
    function ShownSubtotal(): int
      reads this
    {
      Subtotal(price, selectedGuests)
    }

    method SelectDate(date: int)
      modifies this`selectedDate
      ensures selectedDate == Some(date) && !BookingDisabled()
    {
      selectedDate := Some(date);
    }

    /** Choose one of the offered guest counts. */
    method SelectGuests(guests: int)
      requires guests in GuestOptions(capacity)
      modifies this`selectedGuests
      ensures selectedGuests == guests && 1 <= selectedGuests <= capacity
      ensures ShownSubtotal() == Subtotal(price, guests)
      ensures 0 <= price ==> price <= ShownSubtotal() <= Subtotal(price, capacity)
    {
      selectedGuests := guests;
    }

    /** The button: the seat count passed to the booking callback, or nothing while it is disabled. */
    method HandleBooking() returns (seats: Option<int>)
      ensures seats.Some? <==> !BookingDisabled()
      ensures seats.Some? ==> seats.value == selectedGuests
    {
      seats := if selectedDate.Some? then Some(selectedGuests) else None;
    }
  }
}
