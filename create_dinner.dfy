/**
 * The host's "create dinner" form: its defaults, the edits to its lists, the
 * submission's checks in their fixed order, and the listing it sends.
 */
module CreateDinnerPage {
  import opened Wrappers
  import opened Text
  import opened Lists
  import Api

  const NOT_LOGGED_IN := "You must be logged in to create a dinner"
  const NO_PHOTO := "Please upload at least one photo"
  const BAD_PRICE := "Price must be greater than 0"
  const INVALID_DATE := "Invalid time value"
  const CREATE_FAILED := "Failed to create dinner. Please try again."
  const CREATED := "Dinner created successfully!"
  const DASHBOARD := "/host/dashboard"
  const IMAGES_KEY := "images"
  const DIETARY_SEPARATOR := ", "
  const HOUSE_RULES: seq<string> := ["No smoking", "Please arrive on time"]
  const SAMPLE_IMAGES: seq<string> := [
    "https://images.unsplash.com/photo-1555939594-58d7cb561ad1?w=800&q=80",
    "https://images.unsplash.com/photo-1579584425555-c3ce17fd4351?w=800&q=80",
    "https://images.unsplash.com/photo-1414235077428-338989a2e8c0?w=800&q=80",
    "https://images.unsplash.com/photo-1590846406792-0adc7f938f1d?w=800&q=80"
  ]

  /** The form fields the submission reads. */
  datatype DinnerForm = DinnerForm(
    title: string,
    description: string,
    cuisineType: string,
    dietary: seq<string>,
    menu: string,
    address: string,
    city: string,
    state: string,
    date: string,
    time: string,
    duration: int,
    maxCapacity: int,
    pricePerPerson: int,
    images: seq<string>,
    includesDrinks: bool,
    includesDessert: bool)

  /** The form as the page opens: empty texts, three hours, eight seats at 85 per person, no photos. */
  function DefaultForm(): (f: DinnerForm)
    ensures f.duration == 3 && f.maxCapacity == 8 && f.pricePerPerson == 85
    ensures f.dietary == [] && f.images == [] && !f.includesDrinks && !f.includesDessert
    ensures f.title == "" && f.menu == "" && f.date == "" && f.time == ""
  {
    DinnerForm("", "", "", [], "", "", "", "", "", "", 3, 8, 85, [], false, false)
  }

  /** The required fields with their labels, in the order they are checked. */
  function RequiredFields(f: DinnerForm): (fields: seq<(string, string)>)
    ensures |fields| == 9
  {
    [("Title", f.title), ("Description", f.description), ("Cuisine Type", f.cuisineType), ("Menu", f.menu),
     ("Address", f.address), ("City", f.city), ("State", f.state), ("Date", f.date), ("Time", f.time)]
  }

  /** The label of the first field whose value is empty. */
  function FirstMissing(fields: seq<(string, string)>): (missing: Option<string>)
    ensures missing.Some? ==> (missing.value, "") in fields
    ensures missing.None? ==> forall k | 0 <= k < |fields| :: fields[k].1 != ""
  {
    if fields == [] then None
    else if fields[0].1 == "" then Some(fields[0].0)
    else FirstMissing(fields[1..])
  }

  /**
   * `FirstMissing` names a field exactly when one is empty, and the field it
   * names is empty and comes after only filled-in ones.
   */
  lemma {:induction false} FirstMissingIsFirst(fields: seq<(string, string)>)
    ensures FirstMissing(fields).None? <==> forall k | 0 <= k < |fields| :: fields[k].1 != ""
    ensures FirstMissing(fields).Some? ==>
      exists k | 0 <= k < |fields| :: fields[k].0 == FirstMissing(fields).value && fields[k].1 == "" &&
        forall j | 0 <= j < k :: fields[j].1 != ""
  {
    if fields != [] && fields[0].1 != "" {
      FirstMissingIsFirst(fields[1..]);
      if FirstMissing(fields[1..]).Some? {
        var k :| 0 <= k < |fields[1..]| && fields[1..][k].0 == FirstMissing(fields).value && fields[1..][k].1 == "" &&
          forall j | 0 <= j < k :: fields[1..][j].1 != "";
        assert fields[k + 1].0 == FirstMissing(fields).value && fields[k + 1].1 == "";
        assert forall j | 0 <= j < k + 1 :: fields[j].1 != "" by {
          forall j | 0 <= j < k + 1
            ensures fields[j].1 != ""
          {
            if j > 0 {
              assert fields[j] == fields[1..][j - 1];
            }
          }
        }
      } else {
        forall k | 0 <= k < |fields|
          ensures fields[k].1 != ""
        {
          if k > 0 {
            assert fields[k] == fields[1..][k - 1];
          }
        }
      }
    } else if fields != [] {
      assert fields[0].0 == FirstMissing(fields).value;
    }
  }

  /** `for (const field of requiredFields) if (!value) throw`: the loop over the fields, stopping at the first empty one. */
  method CheckRequired(fields: seq<(string, string)>) returns (missing: Option<string>)
    ensures missing == FirstMissing(fields)
  {
    var i := 0;
    while i < |fields|
      invariant 0 <= i <= |fields|
      invariant FirstMissing(fields) == FirstMissing(fields[i..])
    {
      if fields[i].1 == "" {
        return Some(fields[i].0);
      }
      assert fields[i..][1..] == fields[i + 1..];
      i := i + 1;
    }
    return None;
  }

  /** The listing sent to the backend. */
  datatype Payload = Payload(
    title: string,
    description: string,
    amount: int,
    currency: string,
    date: string,
    duration: int,
    capacity: int,
    images: seq<string>,
    cuisine: string,
    dietary: string,
    instantBook: bool,
    menu: seq<string>,
    included: seq<string>,
    houseRules: seq<string>,
    address: string,
    city: string,
    state: string,
    neighborhood: string,
    isActive: bool)

  predicate NonBlank(line: string) {
    !IsBlank(line)
  }

  /** `menu.split("\n").filter(line => line.trim() !== "")`. */
  function MenuLines(menu: string): (lines: seq<string>)
    ensures forall i | 0 <= i < |lines| :: !IsBlank(lines[i]) && '\n' !in lines[i]
    ensures forall line :: line in lines <==> line in Split(menu, '\n') && !IsBlank(line)
  {
    Filter(Split(menu, '\n'), NonBlank)
  }

  /** A menu without blank lines is sent line by line, and joining the lines gives it back. */
  lemma MenuLinesRoundTrip(menu: string)
    requires forall i | 0 <= i < |Split(menu, '\n')| :: !IsBlank(Split(menu, '\n')[i])
    ensures Join(MenuLines(menu), "\n") == menu
  {
    FilterAll(Split(menu, '\n'), NonBlank);
  }

  /** `[drinks ? "Drinks" : null, dessert ? "Dessert" : null].filter(Boolean)`. */
  function Included(drinks: bool, dessert: bool): (r: seq<string>)
    ensures "Drinks" in r <==> drinks
    ensures "Dessert" in r <==> dessert
    ensures |r| == (if drinks then 1 else 0) + (if dessert then 1 else 0)
    ensures drinks && dessert ==> r == ["Drinks", "Dessert"]
  {
    (if drinks then ["Drinks"] else []) + (if dessert then ["Dessert"] else [])
  }

  /** The listing built from a form that passed the checks, with the date already converted to ISO form. */
  function BuildPayload(f: DinnerForm, isoDate: string): (p: Payload)
    ensures p.amount == f.pricePerPerson && p.currency == "USD" && p.date == isoDate
    ensures p.title == f.title && p.description == f.description && p.cuisine == f.cuisineType
    ensures p.duration == f.duration && p.capacity == f.maxCapacity && p.images == f.images
    ensures p.dietary == Join(f.dietary, DIETARY_SEPARATOR)
    ensures p.menu == MenuLines(f.menu) && p.included == Included(f.includesDrinks, f.includesDessert)
    ensures p.instantBook && p.isActive && p.houseRules == HOUSE_RULES
    ensures p.address == f.address && p.city == f.city && p.state == f.state && p.neighborhood == ""
  {
    Payload(f.title, f.description, f.pricePerPerson, "USD", isoDate, f.duration, f.maxCapacity, f.images,
            f.cuisineType, Join(f.dietary, DIETARY_SEPARATOR), true, MenuLines(f.menu),
            Included(f.includesDrinks, f.includesDessert), HOUSE_RULES, f.address, f.city, f.state, "", true)
  }

  /** How a submission ends: the error shown, if any; the photo error set on the form; the listing sent, if any. */
  datatype Submission = Submission(error: Option<string>, imagesError: Option<string>, sent: Option<Payload>)

  /**
   * `handleSubmit`: the token first, then the required fields in order, the
   * photos, the price and the date; only then is the listing sent, and the
   * backend's message (or the generic text) is shown when it fails.
   * `isoDate` is the form's date and time in ISO form, or `None` when they do
   * not form a valid date.
   */
  function Submit(token: Option<string>, f: DinnerForm, isoDate: Option<string>, reply: Api.Reply<Option<string>>)
    : (s: Submission)
    ensures !Truthy(token) ==> s == Submission(Some(NOT_LOGGED_IN), None, None)
    ensures s.sent.Some? ==>
      Truthy(token) && FirstMissing(RequiredFields(f)).None? && |f.images| > 0 && f.pricePerPerson > 0 &&
      isoDate.Some? && s.sent.value == BuildPayload(f, isoDate.value)
    ensures s.error.None? <==> s.sent.Some? && Api.CreateDinner(reply).Success?
    ensures s.imagesError.Some? <==> Truthy(token) && FirstMissing(RequiredFields(f)).None? && |f.images| == 0
    ensures s.error.Some? ==> s.error.value != ""
    ensures Truthy(token) && FirstMissing(RequiredFields(f)).None? && |f.images| == 0 ==>
      s == Submission(Some(NO_PHOTO), Some(NO_PHOTO), None)
    ensures Truthy(token) && FirstMissing(RequiredFields(f)).None? && |f.images| > 0 && f.pricePerPerson <= 0 ==>
      s == Submission(Some(BAD_PRICE), None, None)
    ensures Truthy(token) && FirstMissing(RequiredFields(f)).None? && |f.images| > 0 && f.pricePerPerson > 0 &&
            isoDate.None? ==>
      s == Submission(Some(INVALID_DATE), None, None)
    ensures Truthy(token) && FirstMissing(RequiredFields(f)).None? && |f.images| > 0 && f.pricePerPerson > 0 &&
            isoDate.Some? ==>
      s.sent == Some(BuildPayload(f, isoDate.value)) && s.imagesError.None?
    ensures s.sent.Some? && Api.CreateDinner(reply).Failure? ==>
      s.error == Some(if Api.CreateDinner(reply).error == "" then CREATE_FAILED else Api.CreateDinner(reply).error)
  {
    if !Truthy(token) then Submission(Some(NOT_LOGGED_IN), None, None)
    else match FirstMissing(RequiredFields(f))
      case Some(name) => Submission(Some(name + " is required"), None, None)
      case None =>
        if |f.images| == 0 then Submission(Some(NO_PHOTO), Some(NO_PHOTO), None)
        else if f.pricePerPerson <= 0 then Submission(Some(BAD_PRICE), None, None)
        else if isoDate.None? then Submission(Some(INVALID_DATE), None, None)
        else
          var p := BuildPayload(f, isoDate.value);
          match Api.CreateDinner(reply)
          case Success(_) => Submission(None, None, Some(p))
          case Failure(m) => Submission(Some(if m == "" then CREATE_FAILED else m), None, Some(p))
  }

  /** A field left empty is reported by its label, and nothing is sent. */
  lemma MissingFieldIsReported(token: Option<string>, f: DinnerForm, isoDate: Option<string>,
                               reply: Api.Reply<Option<string>>, k: int)
    requires Truthy(token)
    requires 0 <= k < 9 && RequiredFields(f)[k].1 == ""
    requires forall j | 0 <= j < k :: RequiredFields(f)[j].1 != ""
    ensures Submit(token, f, isoDate, reply) == Submission(Some(RequiredFields(f)[k].0 + " is required"), None, None)
  {
    var fields := RequiredFields(f);
    FirstMissingIsFirst(fields);
    var k' :| 0 <= k' < |fields| && fields[k'].0 == FirstMissing(fields).value && fields[k'].1 == "" &&
      forall j | 0 <= j < k' :: fields[j].1 != "";
    assert k' == k;
  }

  /** The page's state: the form, the per-field errors, and whether a submission is running. */
  class CreateDinnerForm {
    var form: DinnerForm
    var errors: map<string, string>
    var loading: bool

    constructor()
      ensures form == DefaultForm() && errors == map[] && !loading
    {
      form := DefaultForm();
      errors := map[];
      loading := false;
    }

    /** Select a dietary accommodation that is not selected, or deselect one that is. */
    method HandleDietaryToggle(dietary: string)
      modifies this`form
      ensures form == old(form).(dietary := Toggle(old(form).dietary, dietary))
      ensures dietary in form.dietary <==> dietary !in old(form).dietary
    {
      if dietary in form.dietary {
        form := form.(dietary := RemoveAll(form.dietary, dietary));
      } else {
        form := form.(dietary := form.dietary + [dietary]);
      }
    }

    /** Remove the photo at `index`, keeping the others in order. */
    method RemoveImage(index: int)
      modifies this`form
      ensures form == old(form).(images := RemoveAt(old(form).images, index))
    {
      form := form.(images := RemoveAt(form.images, index));
    }

    /** Append the photos whose upload succeeded; when there are any, the photo error goes. */
    method AddUploadedImages(urls: seq<string>)
      modifies this`form, this`errors
      ensures form == old(form).(images := old(form).images + urls)
      ensures |urls| > 0 ==> errors == old(errors) - {IMAGES_KEY}
      ensures |urls| == 0 ==> errors == old(errors)
    {
      if |urls| > 0 {
        form := form.(images := form.images + urls);
        errors := errors - {IMAGES_KEY};
      }
    }

    /** Append one of the sample photos, chosen by the caller, and clear the photo error. */
    method AddSamplePhoto(choice: nat)
      requires choice < |SAMPLE_IMAGES|
      modifies this`form, this`errors
      ensures form == old(form).(images := old(form).images + [SAMPLE_IMAGES[choice]])
      ensures errors == old(errors) - {IMAGES_KEY} && IMAGES_KEY !in errors
    {
      form := form.(images := form.images + [SAMPLE_IMAGES[choice]]);
      errors := errors - {IMAGES_KEY};
    }

    /**
     * Submit the form: returns the toast shown, where the page navigates, and
     * the listing sent; the per-field errors hold only the photo error, and
     * the busy flag is cleared on every path.
     */
    method HandleSubmit(token: Option<string>, isoDate: Option<string>, reply: Api.Reply<Option<string>>)
      returns (toast: string, nav: Option<string>, sent: Option<Payload>)
      modifies this`errors, this`loading
      ensures var s := Submit(token, form, isoDate, reply);
        sent == s.sent &&
        (s.error.Some? ==> toast == s.error.value && nav.None?) &&
        (s.error.None? ==> toast == CREATED && nav == Some(DASHBOARD)) &&
        errors == (if s.imagesError.Some? then map[IMAGES_KEY := s.imagesError.value] else map[])
      ensures !loading
    {
      loading := true;
      errors := map[];
      nav := None;
      sent := None;
      var error: Option<string> := None;
      if !Truthy(token) {
        error := Some(NOT_LOGGED_IN);
      } else {
        var missing := CheckRequired(RequiredFields(form));
        if missing.Some? {
          error := Some(missing.value + " is required");
        } else if |form.images| == 0 {
          errors := errors[IMAGES_KEY := NO_PHOTO];
          error := Some(NO_PHOTO);
        } else if form.pricePerPerson <= 0 {
          error := Some(BAD_PRICE);
        } else if isoDate.None? {
          error := Some(INVALID_DATE);
        } else {
          var payload := BuildPayload(form, isoDate.value);
          sent := Some(payload);
          var created := Api.CreateDinner(reply);
          if created.Failure? {
            error := Some(if created.error == "" then CREATE_FAILED else created.error);
          }
        }
      }
      if error.Some? {
        toast := error.value;
      } else {
        toast := CREATED;
        nav := Some(DASHBOARD);
      }
      loading := false;
    }
  }
}
