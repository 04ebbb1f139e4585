/** The mutations of components/food/FoodMain.tsx, the page that renders the add
    and edit dialog. Unlike pages/Index.tsx it does not call the mock API itself:
    it sends the raw form values to the server route /api/food, whose payload
    builder turns them into the item's shape. */
module FoodMain {
  import opened JsRuntime
  import opened JsString
  import opened FoodForm
  import Route
  import IndexPage
  import AddEditModal
  import FoodCard

  /** The route the mutations call (components/food/FoodMain.tsx:36, 52, 68). */
  const Endpoint := "/api/food"

  /** JSON.stringify(v) of the form values (components/food/FoodMain.tsx:39, 55),
      before it crosses the wire: the six fields under the form's own names. */
  function FormJson(v: FormValues): (j: Json)
    ensures j.Obj? && j.fields.Keys == {"food_name", "food_rating", "food_image", "restaurant_name", "restaurant_logo", "restaurant_status"}
    ensures j.fields["food_name"] == Str(v.foodName) && j.fields["food_rating"] == IndexPage.RatingJson(v.foodRating)
      && j.fields["food_image"] == Str(v.foodImage) && j.fields["restaurant_name"] == Str(v.restaurantName)
      && j.fields["restaurant_logo"] == Str(v.restaurantLogo) && j.fields["restaurant_status"] == Str(v.restaurantStatus)
  {
    Obj(map[
      "food_name" := Str(v.foodName),
      "food_rating" := IndexPage.RatingJson(v.foodRating),
      "food_image" := Str(v.foodImage),
      "restaurant_name" := Str(v.restaurantName),
      "restaurant_logo" := Str(v.restaurantLogo),
      "restaurant_status" := Str(v.restaurantStatus)])
  }

  /** The fetch calls of createMutation, updateMutation and deleteMutation
      (components/food/FoodMain.tsx:36-40, 52-56, 68); the id is not encoded. */
  function CreateCall(v: FormValues): Call {
    Call("POST", Endpoint, Some(FormJson(v)))
  }

  function UpdateCall(id: string, v: FormValues): Call {
    Call("PUT", Endpoint + "?id=" + id, Some(FormJson(v)))
  }

  function DeleteCall(id: string): Call {
    Call("DELETE", Endpoint + "?id=" + id, None)
  }

  /** createMutation (components/food/FoodMain.tsx:34-43). */
  function Create(v: FormValues, fetch: Call -> Outcome): (r: IndexPage.Settled)
    ensures fetch(CreateCall(v)).Answered? && !IsOk(fetch(CreateCall(v)).status) ==> r == IndexPage.Rejected(Some("Create failed"))
    ensures r.Resolved? ==> fetch(CreateCall(v)).Answered? && IsOk(fetch(CreateCall(v)).status)
  {
    IndexPage.Settle(fetch(CreateCall(v)), "Create failed")
  }

  /** updateMutation (components/food/FoodMain.tsx:50-59). */
  function Update(id: string, v: FormValues, fetch: Call -> Outcome): (r: IndexPage.Settled)
    ensures fetch(UpdateCall(id, v)).Answered? && !IsOk(fetch(UpdateCall(id, v)).status) ==> r == IndexPage.Rejected(Some("Update failed"))
    ensures r.Resolved? ==> fetch(UpdateCall(id, v)).Answered? && IsOk(fetch(UpdateCall(id, v)).status)
  {
    IndexPage.Settle(fetch(UpdateCall(id, v)), "Update failed")
  }

  /** deleteMutation (components/food/FoodMain.tsx:66-71). */
  function Delete(id: string, fetch: Call -> Outcome): (r: IndexPage.Settled)
    ensures fetch(DeleteCall(id)).Answered? && !IsOk(fetch(DeleteCall(id)).status) ==> r == IndexPage.Rejected(Some("Delete failed"))
    ensures r.Resolved? ==> fetch(DeleteCall(id)).Answered? && IsOk(fetch(DeleteCall(id)).status)
  {
    IndexPage.Settle(fetch(DeleteCall(id)), "Delete failed")
  }

  /** The call a mutation of the dialog makes, with this page's mutations passed in
      as its props (components/food/FoodMain.tsx:222-229). */
  function DialogCall(m: AddEditModal.Mutation): Call {
    match m
    case CreateMeal(v) => CreateCall(v)
    case UpdateMeal(id, v) => UpdateCall(id, v)
  }

  /** Submitting the dialog sends the raw form values to the server route: a POST
      to /api/food for a new meal, a PUT to /api/food?id=<id> for the selected one. */
  lemma DialogRequests(selected: Option<FoodCard.FoodItem>, v: FormValues)
    ensures var c := DialogCall(AddEditModal.Dispatch(selected, v));
      && c.payload == Some(FormJson(v))
      && (selected.None? ==> c.verb == "POST" && c.url == Endpoint)
      && (selected.Some? ==> c.verb == "PUT" && c.url == Endpoint + "?id=" + selected.value.id)
  {
  }

  /** Form values with a finite rating cross JSON unchanged. */
  lemma FormJsonCrosses(s: FormValues)
    requires s.foodRating.Rated? && s.foodRating.n.Finite?
    ensures Wire(FormJson(s)) == FormJson(s)
  {
    assert Serializable(FormJson(s));
    WireSerializable(FormJson(s));
  }

  /** What the route's payload builder makes of the form values once they have
      crossed JSON, for a non-empty name and a finite, non-zero rating: exactly the
      body pages/Index.tsx sends the mock API itself, except that an empty image
      falls through || to the absent image and is undefined. */
  lemma ForwardedBody(s: FormValues)
    requires s.foodName != "" && s.foodRating.Rated? && s.foodRating.n.Finite? && s.foodRating.n.r != 0.0
    ensures s.foodImage != "" ==> Route.Payload(Wire(FormJson(s))) == IndexPage.CreateBody(s)
    ensures s.foodImage == "" ==> Route.Payload(Wire(FormJson(s))) == Obj(IndexPage.CreateBody(s).fields["image" := Undefined])
  {
    FormJsonCrosses(s);
    var body := FormJson(s);
    var restaurant := Obj(map["name" := Str(s.restaurantName), "logo" := Str(s.restaurantLogo), "status" := Str(s.restaurantStatus)]);
    var image := if s.foodImage != "" then Str(s.foodImage) else Undefined;
    assert OrElse(Member(body, "food_name"), Member(body, "name")) == Str(s.foodName);
    assert OrElse(Member(body, "food_image"), Member(body, "image")) == image;
    assert OrElse(Member(body, "food_rating"), Member(body, "rating")) == Num(s.foodRating.n);
    assert OrElse(Member(body, "restaurant"), Obj(map[
      "name" := Member(body, "restaurant_name"),
      "logo" := Member(body, "restaurant_logo"),
      "status" := Member(body, "restaurant_status")])) == restaurant;
    assert Route.Payload(body) == Obj(map["name" := Str(s.foodName), "image" := image, "rating" := Num(s.foodRating.n), "restaurant" := restaurant]);
  }

  /** A valid form submitted from the dialog reaches the mock API, through the
      route's POST or PUT, as the very request pages/Index.tsx makes directly
      (with the image undefined when it is made only of white space); a PUT whose
      id is empty is refused with 400 and nothing is sent. id is the value the
      route reads back from the id query parameter. */
  lemma ForwardedRequests(v: FormValues, id: string, upstream: Call -> Outcome, uuid: string, host: Host)
    requires FormErrors(v, host) == map[]
    ensures var s := Submission(v);
      var post := Route.HandlePost(Some(Wire(FormJson(s))), upstream, uuid, host);
      var put := Route.HandlePut(Some(id), Some(Wire(FormJson(s))), upstream, uuid, host);
      && (s.foodImage != "" ==> post.call == Some(IndexPage.CreateCall(s)))
      && (s.foodImage != "" && id != "" ==> put.call == Some(IndexPage.UpdateCall(id, s)))
      && (s.foodImage == "" ==> post.call == Some(Call("POST", IndexPage.Api, Some(Obj(IndexPage.CreateBody(s).fields["image" := Undefined])))))
      && (s.foodImage == "" && id != "" ==> put.call == Some(Call("PUT", IndexPage.ItemUrl(id), Some(Obj(IndexPage.CreateBody(s).fields["image" := Undefined])))))
      && (id == "" ==> put == Route.Exchange(None, Route.MissingId))
  {
    var s := Submission(v);
    ValidSubmission(v, host);
    ForwardedBody(s);
    IndexPage.BodiesAgree(s, s);
  }

  /** With a URL parser that, as the WHATWG one does without a base, rejects a
      string that is empty after trimming, a valid image field is never blank, so a
      valid form always reaches the mock API as the very POST or PUT pages/Index.tsx
      makes directly. */
  lemma ValidFormForwarded(v: FormValues, id: string, upstream: Call -> Outcome, uuid: string, host: Host)
    requires forall t :: Trim(t) == "" ==> host.parseUrl(t).None?
    requires FormErrors(v, host) == map[]
    ensures var s := Submission(v);
      && Route.HandlePost(Some(Wire(FormJson(s))), upstream, uuid, host).call == Some(IndexPage.CreateCall(s))
      && (id != "" ==> Route.HandlePut(Some(id), Some(Wire(FormJson(s))), upstream, uuid, host).call == Some(IndexPage.UpdateCall(id, s)))
  {
    NoErrorsIff(v, host);
    assert Submission(v).foodImage != "";
    ForwardedRequests(v, id, upstream, uuid, host);
  }

  /** The dialog's delete reaches the mock API, through the route's DELETE, as the
      request pages/Index.tsx makes directly; an empty id is refused with 400. */
  lemma ForwardedDelete(id: string, upstream: Call -> Outcome)
    ensures id != "" ==> Route.HandleDelete(Some(id), upstream).call == Some(IndexPage.DeleteCall(id))
    ensures id == "" ==> Route.HandleDelete(Some(id), upstream) == Route.Exchange(None, Route.MissingId)
  {
  }
}
