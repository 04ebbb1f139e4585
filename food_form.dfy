/** The meal form of components/food/FoodForm.tsx: its values, the empty form,
    the merge with initial values, the six field checks that fill the error
    dictionary, and submission. */
module FoodForm {
  import opened JsString
  import opened JsRuntime

  /** The rating input holds a number or "" (components/food/FoodForm.tsx:5). */
  datatype RatingInput = Blank | Rated(n: JsNum)

  /** FoodFormValues (components/food/FoodForm.tsx:3-10); the fields are the form's
      food_name, food_rating, food_image, restaurant_name, restaurant_logo and
      restaurant_status. The status select can be set to any string. */
  datatype FormValues = FormValues(
    foodName: string,
    foodRating: RatingInput,
    foodImage: string,
    restaurantName: string,
    restaurantLogo: string,
    restaurantStatus: string)

  /** Partial<FoodFormValues>: None is a field that is not there. */
  datatype PartialForm = PartialForm(
    foodName: Option<string>,
    foodRating: Option<RatingInput>,
    foodImage: Option<string>,
    restaurantName: Option<string>,
    restaurantLogo: Option<string>,
    restaurantStatus: Option<string>)

  /** emptyFoodForm (components/food/FoodForm.tsx:12-19). */
  const EmptyForm := FormValues("", Blank, "", "", "", "")

  /** { ...emptyFoodForm, ...initial } (components/food/FoodForm.tsx:32). */
  function Merge(initial: Option<PartialForm>): FormValues {
    match initial
    case None => EmptyForm
    case Some(p) => FormValues(
      p.foodName.GetOr(EmptyForm.foodName),
      p.foodRating.GetOr(EmptyForm.foodRating),
      p.foodImage.GetOr(EmptyForm.foodImage),
      p.restaurantName.GetOr(EmptyForm.restaurantName),
      p.restaurantLogo.GetOr(EmptyForm.restaurantLogo),
      p.restaurantStatus.GetOr(EmptyForm.restaurantStatus))
  }

  /** Every field of v, as a partial form. */
  function ToPartial(v: FormValues): PartialForm {
    PartialForm(Some(v.foodName), Some(v.foodRating), Some(v.foodImage),
                Some(v.restaurantName), Some(v.restaurantLogo), Some(v.restaurantStatus))
  }

  /** The initial state is the empty form when there are no initial values, and
      exactly the given values when all six are given; field by field, a given
      value overrides and a missing one is the empty form's. */
  lemma MergeCases(v: FormValues, p: PartialForm)
    ensures Merge(None) == EmptyForm
    ensures Merge(Some(ToPartial(v))) == v
    ensures Merge(Some(p)).foodName == if p.foodName.Some? then p.foodName.value else ""
    ensures Merge(Some(p)).foodRating == if p.foodRating.Some? then p.foodRating.value else Blank
    ensures Merge(Some(p)).foodImage == if p.foodImage.Some? then p.foodImage.value else ""
    ensures Merge(Some(p)).restaurantName == if p.restaurantName.Some? then p.restaurantName.value else ""
    ensures Merge(Some(p)).restaurantLogo == if p.restaurantLogo.Some? then p.restaurantLogo.value else ""
    ensures Merge(Some(p)).restaurantStatus == if p.restaurantStatus.Some? then p.restaurantStatus.value else ""
  {
  }

  /** Number(values.food_rating): "" is 0. */
  function RatingNumber(r: RatingInput): JsNum {
    if r.Blank? then Finite(0.0) else r.n
  }

  /** n < bound for a number that is not NaN. */
  predicate Below(n: JsNum, bound: real) {
    n.NegInfinity? || (n.Finite? && n.r < bound)
  }

  /** n > bound for a number that is not NaN. */
  predicate Above(n: JsNum, bound: real) {
    n.PosInfinity? || (n.Finite? && n.r > bound)
  }

  /** The test /^https?:/ on a URL's protocol. */
  predicate IsHttpProtocol(p: string) {
    "http:" <= p || "https:" <= p
  }

  /** The six error keys; Id is the string key of the error dictionary, which is
      also the id the input's aria-describedby points to. */
  datatype ErrorKey =
    | FoodNameError | FoodRatingError | FoodImageError
    | RestaurantNameError | RestaurantLogoError | RestaurantStatusError
  {
    function Id(): string {
      match this
      case FoodNameError => "food-name-error"
      case FoodRatingError => "food-rating-error"
      case FoodImageError => "food-image-error"
      case RestaurantNameError => "restaurant-name-error"
      case RestaurantLogoError => "restaurant-logo-error"
      case RestaurantStatusError => "restaurant-status-error"
    }

    /** The message validate stores under the key (components/food/FoodForm.tsx:42-61). */
    function Message(): string {
      match this
      case FoodNameError => "Food Name is required"
      case FoodRatingError => "Food Rating must be a number"
      case FoodImageError => "Food Image URL is required"
      case RestaurantNameError => "Restaurant Name is required"
      case RestaurantLogoError => "Restaurant Logo URL is required"
      case RestaurantStatusError => "Restaurant Status must be \U{2018}Open Now\U{2019} or \U{2018}Closed\U{2019}"
    }
  }

  const AllKeys: set<ErrorKey> := {FoodNameError, FoodRatingError, FoodImageError, RestaurantNameError, RestaurantLogoError, RestaurantStatusError}

  /** Distinct keys have distinct string ids, so a dictionary keyed by ErrorKey is
      one keyed by the strings. */
  lemma IdsDistinct(j: ErrorKey, k: ErrorKey)
    ensures j.Id() == k.Id() ==> j == k
  {
    if j != k {
      assert j.Id()[0] != k.Id()[0] || j.Id()[5] != k.Id()[5] || j.Id()[11] != k.Id()[11];
    }
  }

  /** A rating the form accepts: a number from 1 to 5 inclusive. */
  predicate RatingInRange(n: JsNum) {
    n.Finite? && 1.0 <= n.r <= 5.0
  }

  /** new URL(s) succeeds and its protocol is http: or https:. */
  predicate HttpUrl(s: string, host: Host) {
    host.parseUrl(s).Some? && IsHttpProtocol(host.parseUrl(s).value)
  }

  predicate ValidStatus(s: string) {
    s == "Open Now" || s == "Closed"
  }

  /** One check of validate: the key, with its message, is added when the check fails. */
  function Check(e: map<ErrorKey, string>, passes: bool, key: ErrorKey): map<ErrorKey, string> {
    if passes then e else e[key := key.Message()]
  }

  /** The dictionary validate fills (components/food/FoodForm.tsx:40-61), the six
      checks in the order they run; FieldChecks states what its entries are. */
  function FormErrors(v: FormValues, host: Host): map<ErrorKey, string> {
    var e1 := Check(map[], Trim(v.foodName) != "", FoodNameError);
    var e2 := Check(e1, RatingInRange(RatingNumber(v.foodRating)), FoodRatingError);
    var e3 := Check(e2, HttpUrl(v.foodImage, host), FoodImageError);
    var e4 := Check(e3, Trim(v.restaurantName) != "", RestaurantNameError);
    var e5 := Check(e4, HttpUrl(v.restaurantLogo, host), RestaurantLogoError);
    Check(e5, ValidStatus(v.restaurantStatus), RestaurantStatusError)
  }

  /** The record handed to onSubmit (components/food/FoodForm.tsx:69-76): the text
      fields trimmed, the rating coerced to a number, the status as it is. */
  function Submission(v: FormValues): FormValues {
    FormValues(Trim(v.foodName), Rated(RatingNumber(v.foodRating)), Trim(v.foodImage),
               Trim(v.restaurantName), Trim(v.restaurantLogo), v.restaurantStatus)
  }

  /** The form's state: its current values and the errors shown under the inputs. */
  class Form {
    var values: FormValues
    var errors: map<ErrorKey, string>

    /** useState({ ...emptyFoodForm, ...initial }) and useState({}). */
    constructor (initial: Option<PartialForm>)
      ensures values == Merge(initial) && errors == map[]
    {
      values := Merge(initial);
      errors := map[];
    }

    /** validate (components/food/FoodForm.tsx:39-64): all six checks run, each
        adding its key when it fails; the dictionary replaces the shown errors, and
        the result is true exactly when it is empty. */
    method Validate(host: Host) returns (ok: bool)
      modifies this`errors
      ensures errors == FormErrors(values, host)
      ensures ok <==> errors == map[]
    {
      var v := values;
      var e: map<ErrorKey, string> := map[];
      var nameBlank := Trim(v.foodName) == "";
      if nameBlank {
        e := e[FoodNameError := FoodNameError.Message()];
      }
      assert e == Check(map[], Trim(v.foodName) != "", FoodNameError);
      ghost var e1 := e;
      var ratingNumber := RatingNumber(v.foodRating);
      if ratingNumber.NaN? {
        e := e[FoodRatingError := FoodRatingError.Message()];
      } else if Below(ratingNumber, 1.0) || Above(ratingNumber, 5.0) {
        e := e[FoodRatingError := FoodRatingError.Message()];
      }
      assert e == Check(e1, RatingInRange(RatingNumber(v.foodRating)), FoodRatingError);
      ghost var e2 := e;
      var image := host.parseUrl(v.foodImage);
      var imageBad := image.None? || !IsHttpProtocol(image.value);
      if imageBad {
        e := e[FoodImageError := FoodImageError.Message()];
      }
      assert e == Check(e2, HttpUrl(v.foodImage, host), FoodImageError);
      ghost var e3 := e;
      var restaurantBlank := Trim(v.restaurantName) == "";
      if restaurantBlank {
        e := e[RestaurantNameError := RestaurantNameError.Message()];
      }
      assert e == Check(e3, Trim(v.restaurantName) != "", RestaurantNameError);
      ghost var e4 := e;
      var logo := host.parseUrl(v.restaurantLogo);
      var logoBad := logo.None? || !IsHttpProtocol(logo.value);
      if logoBad {
        e := e[RestaurantLogoError := RestaurantLogoError.Message()];
      }
      assert e == Check(e4, HttpUrl(v.restaurantLogo, host), RestaurantLogoError);
      ghost var e5 := e;
      var statusBad := v.restaurantStatus != "Open Now" && v.restaurantStatus != "Closed";
      if statusBad {
        e := e[RestaurantStatusError := RestaurantStatusError.Message()];
      }
      assert e == Check(e5, ValidStatus(v.restaurantStatus), RestaurantStatusError);
      assert e == FormErrors(v, host);
      errors := e;
      ok := e == map[];
    }

    /** handleSubmit (components/food/FoodForm.tsx:66-78): when validate passes,
        the submission record is handed to onSubmit (returned here) and the values
        are reset to the empty form; otherwise nothing is submitted and the values
        stay as they were. */
    method HandleSubmit(host: Host) returns (submitted: Option<FormValues>)
      modifies this
      ensures errors == FormErrors(old(values), host)
      ensures errors == map[] ==> submitted == Some(Submission(old(values))) && values == EmptyForm
      ensures errors != map[] ==> submitted == None && values == old(values)
    {
      var ok := Validate(host);
      if !ok {
        return None;
      }
      submitted := Some(Submission(values));
      values := EmptyForm;
    }
  }

  /** The name, restaurant name and rating entries: the names are reported
      exactly when they are made only of white space, the rating exactly when it
      is not a number from 1 to 5 (the empty input included); no key outside the
      six ever occurs. */
  lemma NameAndRatingChecks(v: FormValues, host: Host)
    ensures FormErrors(v, host).Keys <= AllKeys
    ensures FoodNameError in FormErrors(v, host) <==> forall i :: 0 <= i < |v.foodName| ==> IsWhiteSpace(v.foodName[i])
    ensures RestaurantNameError in FormErrors(v, host) <==> forall i :: 0 <= i < |v.restaurantName| ==> IsWhiteSpace(v.restaurantName[i])
    ensures FoodRatingError !in FormErrors(v, host) <==> v.foodRating.Rated? && v.foodRating.n.Finite? && 1.0 <= v.foodRating.n.r <= 5.0
  {
    TrimEmptyIff(v.foodName);
    TrimEmptyIff(v.restaurantName);
  }

  /** The image, logo and status entries: a URL is reported exactly when it does
      not parse or is not http or https, the status exactly when it is neither of
      the two allowed. */
  lemma UrlAndStatusChecks(v: FormValues, host: Host)
    ensures FoodImageError !in FormErrors(v, host) <==> host.parseUrl(v.foodImage).Some? && IsHttpProtocol(host.parseUrl(v.foodImage).value)
    ensures RestaurantLogoError !in FormErrors(v, host) <==> host.parseUrl(v.restaurantLogo).Some? && IsHttpProtocol(host.parseUrl(v.restaurantLogo).value)
    ensures RestaurantStatusError !in FormErrors(v, host) <==> v.restaurantStatus == "Open Now" || v.restaurantStatus == "Closed"
  {
  }

  /** Every entry of the dictionary holds its own key's message. */
  lemma ErrorMessages(v: FormValues, host: Host)
    ensures forall k :: k in FormErrors(v, host) ==> FormErrors(v, host)[k] == k.Message()
  {
  }

  /** Each error key is present exactly when its own check fails, with its own
      message, and there are no other keys. */
  lemma FieldChecks(v: FormValues, host: Host)
    ensures FormErrors(v, host).Keys <= AllKeys
    ensures FoodNameError in FormErrors(v, host) <==> forall i :: 0 <= i < |v.foodName| ==> IsWhiteSpace(v.foodName[i])
    ensures RestaurantNameError in FormErrors(v, host) <==> forall i :: 0 <= i < |v.restaurantName| ==> IsWhiteSpace(v.restaurantName[i])
    ensures FoodRatingError !in FormErrors(v, host) <==> v.foodRating.Rated? && v.foodRating.n.Finite? && 1.0 <= v.foodRating.n.r <= 5.0
    ensures FoodImageError !in FormErrors(v, host) <==> host.parseUrl(v.foodImage).Some? && IsHttpProtocol(host.parseUrl(v.foodImage).value)
    ensures RestaurantLogoError !in FormErrors(v, host) <==> host.parseUrl(v.restaurantLogo).Some? && IsHttpProtocol(host.parseUrl(v.restaurantLogo).value)
    ensures RestaurantStatusError !in FormErrors(v, host) <==> v.restaurantStatus == "Open Now" || v.restaurantStatus == "Closed"
    ensures forall k :: k in FormErrors(v, host) ==> FormErrors(v, host)[k] == k.Message()
  {
    NameAndRatingChecks(v, host);
    UrlAndStatusChecks(v, host);
    ErrorMessages(v, host);
  }

  /** The dictionary is empty exactly when all six checks pass. */
  lemma NoErrorsIff(v: FormValues, host: Host)
    ensures FormErrors(v, host) == map[] <==>
      Trim(v.foodName) != "" && RatingInRange(RatingNumber(v.foodRating)) && HttpUrl(v.foodImage, host)
      && Trim(v.restaurantName) != "" && HttpUrl(v.restaurantLogo, host) && ValidStatus(v.restaurantStatus)
  {
    FieldChecks(v, host);
    TrimEmptyIff(v.foodName);
    TrimEmptyIff(v.restaurantName);
  }

  /** The checks are independent: each key depends on its own field only, so no
      failure masks another. */
  lemma ChecksIndependent(v: FormValues, w: FormValues, host: Host)
    ensures v.foodName == w.foodName ==> (FoodNameError in FormErrors(v, host) <==> FoodNameError in FormErrors(w, host))
    ensures v.foodRating == w.foodRating ==> (FoodRatingError in FormErrors(v, host) <==> FoodRatingError in FormErrors(w, host))
    ensures v.foodImage == w.foodImage ==> (FoodImageError in FormErrors(v, host) <==> FoodImageError in FormErrors(w, host))
    ensures v.restaurantName == w.restaurantName ==> (RestaurantNameError in FormErrors(v, host) <==> RestaurantNameError in FormErrors(w, host))
    ensures v.restaurantLogo == w.restaurantLogo ==> (RestaurantLogoError in FormErrors(v, host) <==> RestaurantLogoError in FormErrors(w, host))
    ensures v.restaurantStatus == w.restaurantStatus ==> (RestaurantStatusError in FormErrors(v, host) <==> RestaurantStatusError in FormErrors(w, host))
  {
    FieldChecks(v, host);
    FieldChecks(w, host);
  }

  /** The empty form fails all six checks, given that the URL parser rejects the
      empty string (an empty input without a base URL is a failure in the URL
      Standard's basic URL parser). */
  lemma EmptyFormFailsAll(host: Host)
    requires host.parseUrl("").None?
    ensures FormErrors(EmptyForm, host).Keys == AllKeys
  {
    assert Trim("") == "";
  }

  /** A valid form submits trimmed, non-empty names, a number from 1 to 5 and one
      of the two statuses; and submitting what was submitted changes nothing. */
  lemma ValidSubmission(v: FormValues, host: Host)
    requires FormErrors(v, host) == map[]
    ensures var s := Submission(v);
      && s.foodName != "" && !IsWhiteSpace(s.foodName[0]) && !IsWhiteSpace(s.foodName[|s.foodName| - 1])
      && s.restaurantName != "" && !IsWhiteSpace(s.restaurantName[0]) && !IsWhiteSpace(s.restaurantName[|s.restaurantName| - 1])
      && s.foodRating == v.foodRating && s.foodRating.Rated? && RatingInRange(s.foodRating.n)
      && ValidStatus(s.restaurantStatus)
      && Submission(s) == s
  {
    NoErrorsIff(v, host);
    TrimIdempotent(v.foodName);
    TrimIdempotent(v.foodImage);
    TrimIdempotent(v.restaurantName);
    TrimIdempotent(v.restaurantLogo);
  }
}
