/** The page of pages/Index.tsx: the list query with its own copy of the read-side
    normalisation, the create, update and delete requests it sends straight to the
    mock API, and the form values it prefills for editing. */
module IndexPage {
  import opened JsString
  import opened JsRuntime
  import FoodCard
  import opened FoodForm
  import Route

  /** API (pages/Index.tsx:10). */
  const Api := "https://6852821e0594059b23cdd834.mockapi.io/Food"

  /** The list URL (pages/Index.tsx:25): the name filter is appended, encoded, only
      for a non-empty search. */
  function ListUrl(debounced: string): (url: string)
    ensures debounced == "" ==> url == Api
    ensures debounced != "" ==> url == Api + "?name=" + EncodeUriComponent(debounced)
    ensures url == Route.ListUrl(Some(debounced))
  {
    Api + (if debounced != "" then "?name=" + EncodeUriComponent(debounced) else "")
  }

  /** `${API}/${id}` (pages/Index.tsx:78, 90): the id is not encoded. */
  function ItemUrl(id: string): (url: string)
    ensures |url| == |Api| + 1 + |id| && url[..|Api|] == Api && url[|Api|] == '/' && url[|Api| + 1..] == id
  {
    Api + "/" + id
  }

  /** The element mapping of the query function (pages/Index.tsx:28-39), an object
      literal of its own; uuid is what crypto.randomUUID() would return. A null or
      undefined element throws, giving None. */
  function NormalizeInline(x: Json, uuid: string, host: Host): Option<Json> {
    if Nullish(x) then None
    else
      var id := Member(x, "id");
      Some(Obj(map[
        "id" := Str(if Nullish(id) then uuid else ToStr(id, host)),
        "name" := Coalesce(Member(x, "name"), Coalesce(Member(x, "food_name"), Str("Untitled"))),
        "image" := Coalesce(Member(x, "image"), Coalesce(Member(x, "food_image"), Coalesce(Member(x, "avatar"), Str("/placeholder.svg")))),
        "price" := Coalesce(Member(x, "price"), Coalesce(Member(x, "amount"), Coalesce(Member(x, "priceLabel"), Undefined))),
        "rating" := if Member(x, "rating").Num? then Member(x, "rating")
                    else OrElse(Num(ToNumber(Coalesce(Member(x, "food_rating"), Num(Finite(0.0))), host)), Undefined),
        "restaurant" := Coalesce(Member(x, "restaurant"), Obj(map[
          "name" := Member(x, "restaurant_name"),
          "logo" := Member(x, "restaurant_logo"),
          "status" := Member(x, "restaurant_status")]))
      ]))
  }

  /** The page's copy of the normalisation is the server's normalizeItem, field for
      field, on every input. */
  lemma InlineAgrees(x: Json, uuid: string, host: Host)
    ensures NormalizeInline(x, uuid, host) == Route.NormalizeItem(x, uuid, host)
  {
  }

  /** What the list query settles to: its request, and the normalised items, or
      None when it rejects (the page then shows "Failed to load items"). */
  datatype Query = Query(call: Call, items: Option<seq<Json>>)

  /** queryFn (pages/Index.tsx:24-41): a failed fetch, a non-ok status, a body that
      is not JSON, a body that is not an array (items.map is not a function) and a
      null or undefined element all reject. uuids(i) is the identifier drawn for
      element i. */
  function QueryFn(debounced: string, upstream: Call -> Outcome, uuids: nat -> string, host: Host): (r: Query)
    ensures r.call == Call("GET", ListUrl(debounced), None)
    ensures r.items.Some? <==> upstream(r.call).Answered? && IsOk(upstream(r.call).status)
                               && upstream(r.call).body.Some? && upstream(r.call).body.value.Arr?
                               && forall i :: 0 <= i < |upstream(r.call).body.value.elems| ==> !Nullish(upstream(r.call).body.value.elems[i])
    ensures r.items.Some? ==>
      && |r.items.value| == |upstream(r.call).body.value.elems|
      && forall i :: 0 <= i < |r.items.value| ==> Some(r.items.value[i]) == NormalizeInline(upstream(r.call).body.value.elems[i], uuids(i), host)
  {
    var call := Call("GET", ListUrl(debounced), None);
    var items := match upstream(call)
      case Threw => None
      case Answered(status, body) =>
        if !IsOk(status) || body.None? || !body.value.Arr? then None
        else
          var es := body.value.elems;
          if exists i :: 0 <= i < |es| && Nullish(es[i]) then None
          else Some(seq(|es|, i requires 0 <= i < |es| => NormalizeInline(es[i], uuids(i), host).value));
    Query(call, items)
  }

  /** Given the same upstream answer, the page lists exactly the items the server's
      GET would list, except that the page rejects a non-array body where the
      server answers an empty list. */
  lemma QueryAgreesWithRoute(debounced: string, upstream: Call -> Outcome, uuids: nat -> string, host: Host)
    ensures var q := QueryFn(debounced, upstream, uuids, host);
      var g := Route.HandleGet(Some(debounced), upstream, uuids, host);
      && g.call == Some(q.call)
      && (q.items.Some? ==> g.response == Route.Response(200, Obj(map["items" := Arr(q.items.value)])))
      && ((upstream(q.call).Answered? && IsOk(upstream(q.call).status) && upstream(q.call).body.Some? && !upstream(q.call).body.value.Arr?)
          ==> q.items.None? && g.response == Route.Response(200, Obj(map["items" := Arr([])])))
  {
    var q := QueryFn(debounced, upstream, uuids, host);
    if q.items.Some? {
      var es := upstream(q.call).body.value.elems;
      forall i | 0 <= i < |es| ensures NormalizeInline(es[i], uuids(i), host) == Route.NormalizeItem(es[i], uuids(i), host) {
        InlineAgrees(es[i], uuids(i), host);
      }
      var n := Route.NormalizeAll(es, uuids, host);
      assert n.Some?;
      assert n.value == q.items.value;
    }
  }

  /** The rating as the form holds it, in JSON. */
  function RatingJson(r: RatingInput): Json {
    if r.Blank? then Str("") else Num(r.n)
  }

  /** The create body (pages/Index.tsx:46-55): the form fields copied under the
      item's own names, the restaurant nested. */
  function CreateBody(v: FormValues): (r: Json)
    ensures r.Obj? && r.fields.Keys == {"name", "image", "rating", "restaurant"}
    ensures r.fields["name"] == Str(v.foodName) && r.fields["image"] == Str(v.foodImage) && r.fields["rating"] == RatingJson(v.foodRating)
    ensures r.fields["restaurant"] == Obj(map["name" := Str(v.restaurantName), "logo" := Str(v.restaurantLogo), "status" := Str(v.restaurantStatus)])
  {
    Obj(map[
      "name" := Str(v.foodName),
      "image" := Str(v.foodImage),
      "rating" := RatingJson(v.foodRating),
      "restaurant" := Obj(map[
        "name" := Str(v.restaurantName),
        "logo" := Str(v.restaurantLogo),
        "status" := Str(v.restaurantStatus)])
    ])
  }

  /** The update body (pages/Index.tsx:68-77), a literal of its own. */
  function UpdateBody(v: FormValues): Json {
    Obj(map[
      "name" := Str(v.foodName),
      "image" := Str(v.foodImage),
      "rating" := RatingJson(v.foodRating),
      "restaurant" := Obj(map[
        "name" := Str(v.restaurantName),
        "logo" := Str(v.restaurantLogo),
        "status" := Str(v.restaurantStatus)])
    ])
  }

  /** Create and update send the same body for the same values, and different
      values give different bodies. */
  lemma BodiesAgree(v: FormValues, w: FormValues)
    ensures UpdateBody(v) == CreateBody(v)
    ensures CreateBody(v) == CreateBody(w) ==> v == w
  {
    if CreateBody(v) == CreateBody(w) {
      var rv, rw := CreateBody(v).fields["restaurant"], CreateBody(w).fields["restaurant"];
      assert rv.fields["name"] == rw.fields["name"] && rv.fields["logo"] == rw.fields["logo"] && rv.fields["status"] == rw.fields["status"];
    }
  }

  /** What a mutation function settles to: rejected with its own Error message,
      rejected with some other error (None: a failed fetch or a body that is not
      JSON, whose messages the model does not track), or resolved to the body. */
  datatype Settled = Rejected(message: Option<string>) | Resolved(data: Json)

  /** The fetch calls the page's three mutations make. */
  function CreateCall(v: FormValues): Call {
    Call("POST", Api, Some(CreateBody(v)))
  }

  function UpdateCall(id: string, v: FormValues): Call {
    Call("PUT", ItemUrl(id), Some(UpdateBody(v)))
  }

  function DeleteCall(id: string): Call {
    Call("DELETE", ItemUrl(id), None)
  }

  /** The shared shape of the mutation functions (pages/Index.tsx:56-58, 78-80, 90-92). */
  function Settle(outcome: Outcome, failure: string): (r: Settled)
    ensures r.Resolved? <==> outcome.Answered? && IsOk(outcome.status) && outcome.body.Some?
    ensures r.Resolved? ==> r.data == outcome.body.value
    ensures outcome.Answered? && !IsOk(outcome.status) ==> r == Rejected(Some(failure))
    ensures outcome.Threw? ==> r == Rejected(None)
    ensures outcome.Answered? && IsOk(outcome.status) && outcome.body.None? ==> r == Rejected(None)
  {
    match outcome
    case Threw => Rejected(None)
    case Answered(status, body) =>
      if !IsOk(status) then Rejected(Some(failure))
      else if body.None? then Rejected(None)
      else Resolved(body.value)
  }

  /** createMutation (pages/Index.tsx:44-64). */
  function Create(v: FormValues, upstream: Call -> Outcome): (r: Settled)
    ensures upstream(CreateCall(v)).Answered? && !IsOk(upstream(CreateCall(v)).status) ==> r == Rejected(Some("Create failed"))
    ensures r.Resolved? ==> upstream(CreateCall(v)).Answered? && IsOk(upstream(CreateCall(v)).status)
  {
    Settle(upstream(CreateCall(v)), "Create failed")
  }

  /** updateMutation (pages/Index.tsx:66-86). */
  function Update(id: string, v: FormValues, upstream: Call -> Outcome): (r: Settled)
    ensures upstream(UpdateCall(id, v)).Answered? && !IsOk(upstream(UpdateCall(id, v)).status) ==> r == Rejected(Some("Update failed"))
    ensures r.Resolved? ==> upstream(UpdateCall(id, v)).Answered? && IsOk(upstream(UpdateCall(id, v)).status)
  {
    Settle(upstream(UpdateCall(id, v)), "Update failed")
  }

  /** deleteMutation (pages/Index.tsx:88-98). */
  function Delete(id: string, upstream: Call -> Outcome): (r: Settled)
    ensures upstream(DeleteCall(id)).Answered? && !IsOk(upstream(DeleteCall(id)).status) ==> r == Rejected(Some("Delete failed"))
    ensures r.Resolved? ==> upstream(DeleteCall(id)).Answered? && IsOk(upstream(DeleteCall(id)).status)
  {
    Settle(upstream(DeleteCall(id)), "Delete failed")
  }

  /** The update request the edit form's submit fires (pages/Index.tsx:202): none
      without a selected item. */
  function EditSubmit(selected: Option<FoodCard.FoodItem>, v: FormValues): (r: Option<Call>)
    ensures r.None? <==> selected.None?
    ensures r.Some? ==> r.value.verb == "PUT" && r.value.url == ItemUrl(selected.value.id) && r.value.payload == Some(CreateBody(v))
  {
    BodiesAgree(v, v);
    if selected.None? then None else Some(UpdateCall(selected.value.id, v))
  }

  /** The delete request the confirm button fires (pages/Index.tsx:217). */
  function DeleteConfirm(selected: Option<FoodCard.FoodItem>): (r: Option<Call>)
    ensures r.None? <==> selected.None?
    ensures r.Some? ==> r.value == Call("DELETE", ItemUrl(selected.value.id), None)
  {
    if selected.None? then None else Some(DeleteCall(selected.value.id))
  }

  /** initialForEdit (pages/Index.tsx:113-125). */
  function InitialForEdit(selected: Option<FoodCard.FoodItem>): Option<PartialForm> {
    match selected
    case None => None
    case Some(item) =>
      var restaurant := item.restaurant;
      var status := if restaurant.Some? then restaurant.value.status else None;
      Some(PartialForm(
        Some(item.name),
        Some(Rated(item.rating.GetOr(Finite(3.0)))),
        Some(item.image),
        Some(if restaurant.Some? then restaurant.value.name.GetOr("") else ""),
        Some(if restaurant.Some? then restaurant.value.logo.GetOr("") else ""),
        Some(if status == Some("Open Now") || status == Some("Closed") then status.value else "Open Now")))
  }

  /** The prefill is absent exactly when no item is selected and otherwise sets all
      six fields, so the form starts from the item alone: the rating is the item's
      (0 included) or 3 when it has none, a missing restaurant name or logo is "",
      and the status is kept when it is one of the two allowed and is "Open Now"
      otherwise; so the prefilled status always passes its check. */
  lemma PrefillFields(selected: Option<FoodCard.FoodItem>, host: Host)
    ensures InitialForEdit(selected).None? <==> selected.None?
    ensures selected.Some? ==>
      var item := selected.value;
      var v := Merge(InitialForEdit(selected));
      var status := FoodCard.Status(item);
      && InitialForEdit(selected) == Some(ToPartial(v))
      && v.foodName == item.name && v.foodImage == item.image
      && (item.rating.None? ==> v.foodRating == Rated(Finite(3.0)))
      && (item.rating.Some? ==> v.foodRating == Rated(item.rating.value))
      && (item.restaurant.None? || item.restaurant.value.name.None? ==> v.restaurantName == "")
      && (item.restaurant.Some? && item.restaurant.value.name.Some? ==> v.restaurantName == item.restaurant.value.name.value)
      && (item.restaurant.None? || item.restaurant.value.logo.None? ==> v.restaurantLogo == "")
      && (item.restaurant.Some? && item.restaurant.value.logo.Some? ==> v.restaurantLogo == item.restaurant.value.logo.value)
      && ValidStatus(v.restaurantStatus)
      && (ValidStatus(status) ==> v.restaurantStatus == status)
      && (!ValidStatus(status) ==> v.restaurantStatus == "Open Now")
      && RestaurantStatusError !in FormErrors(v, host)
  {
    if selected.Some? {
      FieldChecks(Merge(InitialForEdit(selected)), host);
    }
  }

  /** What the mock API answers to a create: the body it was sent, parsed from
      JSON, with the identifier it assigns. */
  function Echo(body: Json, id: string): Json {
    var w := Wire(body);
    if w.Obj? then Obj(w.fields["id" := Str(id)]) else w
  }

  /** A listed item of the shape the create body comes back as, read at the FoodItem type. */
  lemma ListedAsItem(id: string, name: string, image: string, n: JsNum, rn: string, rl: string, rs: string)
    ensures var restaurant := Obj(map["name" := Str(rn), "logo" := Str(rl), "status" := Str(rs)]);
      FoodCard.AsFoodItem(Obj(map["id" := Str(id), "name" := Str(name), "image" := Str(image),
                                  "price" := Undefined, "rating" := Num(n), "restaurant" := restaurant]))
      == Some(FoodCard.FoodItem(id, name, image, Some(n), None, Some(FoodCard.RestaurantInfo(Some(rn), Some(rl), Some(rs)))))
  {
    var restaurant := Obj(map["name" := Str(rn), "logo" := Str(rl), "status" := Str(rs)]);
    var j := Obj(map["id" := Str(id), "name" := Str(name), "image" := Str(image), "price" := Undefined, "rating" := Num(n), "restaurant" := restaurant]);
    assert Member(j, "id") == Str(id) && Member(j, "name") == Str(name) && Member(j, "image") == Str(image);
    assert Member(j, "price") == Undefined && Member(j, "rating") == Num(n) && Member(j, "restaurant") == restaurant;
    assert Member(restaurant, "name") == Str(rn) && Member(restaurant, "logo") == Str(rl) && Member(restaurant, "status") == Str(rs);
  }

  /** The create body of values with a finite rating crosses JSON unchanged, so
      the API's echo is that body with the new id added. */
  lemma EchoOfCreate(s: FormValues, id: string)
    requires s.foodRating.Rated? && s.foodRating.n.Finite?
    ensures Echo(CreateBody(s), id) ==
      Obj(map["name" := Str(s.foodName), "image" := Str(s.foodImage), "rating" := Num(s.foodRating.n),
              "restaurant" := Obj(map["name" := Str(s.restaurantName), "logo" := Str(s.restaurantLogo), "status" := Str(s.restaurantStatus)]),
              "id" := Str(id)])
  {
    var restaurant := Obj(map["name" := Str(s.restaurantName), "logo" := Str(s.restaurantLogo), "status" := Str(s.restaurantStatus)]);
    var body := CreateBody(s);
    assert body == Obj(map["name" := Str(s.foodName), "image" := Str(s.foodImage), "rating" := Num(s.foodRating.n), "restaurant" := restaurant]);
    assert Serializable(body) by {
      assert Serializable(restaurant);
    }
    WireSerializable(body);
  }

  /** The page lists an echoed create body, as JSON gives it back, as the same
      fields with no price. */
  lemma ListedEcho(id: string, name: string, image: string, n: JsNum, restaurant: Json, uuid: string, host: Host)
    requires n.Finite? && restaurant.Obj?
    ensures NormalizeInline(Obj(map["name" := Str(name), "image" := Str(image), "rating" := Num(n),
                                    "restaurant" := restaurant, "id" := Str(id)]), uuid, host) ==
      Some(Obj(map["id" := Str(id), "name" := Str(name), "image" := Str(image), "price" := Undefined,
                   "rating" := Num(n), "restaurant" := restaurant]))
  {
    var echoed := Obj(map["name" := Str(name), "image" := Str(image), "rating" := Num(n), "restaurant" := restaurant, "id" := Str(id)]);
    var x := echoed;
    assert Str(if Nullish(Member(x, "id")) then uuid else ToStr(Member(x, "id"), host)) == Str(id);
    assert Coalesce(Member(x, "name"), Coalesce(Member(x, "food_name"), Str("Untitled"))) == Str(name);
    assert Coalesce(Member(x, "image"), Coalesce(Member(x, "food_image"), Coalesce(Member(x, "avatar"), Str("/placeholder.svg")))) == Str(image);
    assert Coalesce(Member(x, "price"), Coalesce(Member(x, "amount"), Coalesce(Member(x, "priceLabel"), Undefined))) == Undefined by {
      assert "price"[0] != "image"[0] && "amount"[0] != "rating"[0] && "priceLabel"[0] != "restaurant"[0];
    }
    assert Member(x, "rating") == Num(n);
    assert Coalesce(Member(x, "restaurant"), Obj(map[
      "name" := Member(x, "restaurant_name"),
      "logo" := Member(x, "restaurant_logo"),
      "status" := Member(x, "restaurant_status")])) == restaurant;
  }

  /** The page lists what the API echoes for a create body with a finite rating as
      the same fields, with no price. */
  lemma EchoListed(s: FormValues, id: string, uuid: string, host: Host)
    requires s.foodRating.Rated? && s.foodRating.n.Finite?
    ensures NormalizeInline(Echo(CreateBody(s), id), uuid, host) ==
      Some(Obj(map["id" := Str(id), "name" := Str(s.foodName), "image" := Str(s.foodImage), "price" := Undefined,
                   "rating" := Num(s.foodRating.n),
                   "restaurant" := Obj(map["name" := Str(s.restaurantName), "logo" := Str(s.restaurantLogo), "status" := Str(s.restaurantStatus)])]))
  {
    var restaurant := Obj(map["name" := Str(s.restaurantName), "logo" := Str(s.restaurantLogo), "status" := Str(s.restaurantStatus)]);
    EchoOfCreate(s, id);
    ListedEcho(id, s.foodName, s.foodImage, s.foodRating.n, restaurant, uuid, host);
  }

  /** The values the form submits, once created, listed and opened for editing,
      come back as the same six values: the create body survives JSON, the page's
      normalisation, the FoodItem reading and the prefill, and the edit form starts
      from exactly what was submitted. */
  lemma RoundTrip(v: FormValues, id: string, uuid: string, host: Host)
    requires FormErrors(v, host) == map[]
    ensures var s := Submission(v);
      var listed := NormalizeInline(Echo(CreateBody(s), id), uuid, host);
      && listed.Some?
      && FoodCard.AsFoodItem(listed.value).Some?
      && FoodCard.AsFoodItem(listed.value).value.id == id
      && InitialForEdit(FoodCard.AsFoodItem(listed.value)) == Some(ToPartial(s))
      && Merge(InitialForEdit(FoodCard.AsFoodItem(listed.value))) == s
  {
    var s := Submission(v);
    ValidSubmission(v, host);
    EchoListed(s, id, uuid, host);
    ListedAsItem(id, s.foodName, s.foodImage, s.foodRating.n, s.restaurantName, s.restaurantLogo, s.restaurantStatus);
    MergeCases(s, ToPartial(s));
  }
}
