/**
 * The listing card of the search results: its gallery position and favourite
 * flag, the image it shows, its labels, and where its clicks lead.
 */
module DinnerCard {
  import opened Wrappers
  import opened Text
  import ImageIndex

  const DEFAULT_IMAGE := "https://images.unsplash.com/photo-1555939594-58d7cb561ad1?w=800&h=600&fit=crop&crop=center"
  const DINNER_PAGE := "/dinners/"
  const QUICK_BOOK := "/booking?dinner="

  /** `images.length > 0 ? images[index] : image ? image : default`. */
  function ImageSource(images: seq<string>, image: Option<string>, index: int): (src: string)
    requires |images| > 0 ==> 0 <= index < |images|
    ensures |images| > 0 ==> src == images[index]
    ensures |images| == 0 && Truthy(image) ==> src == image.value
    ensures |images| == 0 && !Truthy(image) ==> src == DEFAULT_IMAGE
  {
    if |images| > 0 then images[index] else OrElse(image, DEFAULT_IMAGE)
  }

  /** The arrows and the position dots are shown only for a gallery of more than one image. */
  predicate ShowNavigation(images: seq<string>) {
    |images| > 1
  }

  /** `host?.name || "Host"`. */
  function HostLabel(name: Option<string>): (shown: string)
    ensures shown != ""
    ensures Truthy(name) ==> shown == name.value
    ensures !Truthy(name) ==> shown == "Host"
  {
    OrElse(name, "Host")
  }

  /** `host?.name?.[0] || "H"`: the avatar fallback letter. */
  function HostInitial(name: Option<string>): (initial: string)
    ensures |initial| == 1
    ensures Truthy(name) ==> initial == [name.value[0]] && initial <= HostLabel(name)
    ensures !Truthy(name) ==> initial == "H"
  {
    if Truthy(name) then [name.value[0]] else "H"
  }

  /**
   * A listing's location: structured, `null` (whose `typeof` is also
   * "object"), or any other value (a string, or missing).
   */
  datatype CardLocation =
    | LocObject(neighborhood: Option<string>, city: Option<string>)
    | LocNull
    | LocText(text: Option<string>)

  /**
   * The neighbourhood, else the city, else "Location"; a plain string, else
   * "Location"; `None` when the location is `null`, whose property access
   * throws while the card renders.
   */
  function LocationLabel(loc: CardLocation): (shown: Option<string>)
    ensures shown.None? <==> loc.LocNull?
    ensures shown.Some? ==> shown.value != ""
    ensures loc.LocObject? && Truthy(loc.neighborhood) ==> shown == Some(loc.neighborhood.value)
    ensures loc.LocObject? && !Truthy(loc.neighborhood) && Truthy(loc.city) ==> shown == Some(loc.city.value)
    ensures loc.LocObject? && !Truthy(loc.neighborhood) && !Truthy(loc.city) ==> shown == Some("Location")
    ensures loc.LocText? ==> shown == Some(OrElse(loc.text, "Location"))
  {
    match loc
    case LocObject(neighborhood, city) => Some(if Truthy(neighborhood) then neighborhood.value else OrElse(city, "Location"))
    case LocNull => None
    case LocText(text) => Some(OrElse(text, "Location"))
  }

  /** Where a click on the card leads: the listing's page, from which the id can be read back. */
  function CardTarget(id: string): (url: string)
    ensures DINNER_PAGE <= url && url[|DINNER_PAGE|..] == id
  {
    DINNER_PAGE + id
  }

  /** Where the quick-book button leads: the booking page for the listing, from which the id can be read back. */
  function QuickBookTarget(id: string): (url: string)
    ensures QUICK_BOOK <= url && url[|QUICK_BOOK|..] == id
  {
    QUICK_BOOK + id
  }

  /** The two targets never coincide, and each determines the listing. */
  lemma TargetsAreDistinct(id1: string, id2: string)
    ensures CardTarget(id1) != QuickBookTarget(id2)
    ensures CardTarget(id1) == CardTarget(id2) ==> id1 == id2
    ensures QuickBookTarget(id1) == QuickBookTarget(id2) ==> id1 == id2
  {
    assert CardTarget(id1)[1] == 'd' && QuickBookTarget(id2)[1] == 'b';
  }

  /** A card's state: its listing's gallery, whether it is a favourite, and the gallery position. */
  class Card {
    const id: string
    const images: seq<string>
    const image: Option<string>
    var isFavorited: bool
    var imageIndex: int

    /** The position is a valid index into a non-empty gallery. */
    ghost predicate Valid()
      reads this
    {
      if |images| > 0 then 0 <= imageIndex < |images| else imageIndex == 0
    }

    constructor(id: string, images: seq<string>, image: Option<string>)
      ensures this.id == id && this.images == images && this.image == image
      ensures !isFavorited && imageIndex == 0 && Valid()
    {
      this.id := id;
      this.images := images;
      this.image := image;
      isFavorited := false;
      imageIndex := 0;
    }

    /** The image the card shows. */
    function Source(): (src: string)
      reads this
      requires Valid()
      ensures |images| > 0 ==> src == images[imageIndex]
    {
      ImageSource(images, image, imageIndex)
    }

    method ToggleFavorite()
      modifies this`isFavorited
      ensures isFavorited == !old(isFavorited)
    {
      isFavorited := !isFavorited;
    }

    /** The right arrow, which is shown only for a gallery of several images. */
    method NextImage()
      requires Valid() && ShowNavigation(images)
      modifies this`imageIndex
      ensures Valid()
      ensures imageIndex == ImageIndex.Next(old(imageIndex), |images|)
    {
      imageIndex := (imageIndex + 1) % |images|;
    }

    /** The left arrow, which is shown only for a gallery of several images. */
    method PrevImage()
      requires Valid() && ShowNavigation(images)
      modifies this`imageIndex
      ensures Valid()
      ensures imageIndex == ImageIndex.Prev(old(imageIndex), |images|)
    {
      imageIndex := (imageIndex - 1 + |images|) % |images|;
    }
  }
}
