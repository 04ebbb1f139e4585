/** The server routes of app/api/food/route.ts: the read-side normaliser, the
    write-side payload builder, and the GET, POST, PUT and DELETE handlers as
    functions from the request and the upstream's answer to the upstream call
    made (if any) and the response returned. */
module Route {
  import opened JsString
  import opened JsRuntime

  const MockApi := "https://6852821e0594059b23cdd834.mockapi.io/Food"

  /** The keys of every normalised item. */
  const ItemKeys: set<string> := {"id", "name", "image", "price", "rating", "restaurant"}

  /** The first candidate that is neither null nor undefined, or the default when
      there is none: a chain a ?? b ?? ... ?? default read as an ordered list. */
  function FirstPresent(candidates: seq<Json>, default: Json): Json {
    if candidates == [] then default
    else if !Nullish(candidates[0]) then candidates[0]
    else FirstPresent(candidates[1..], default)
  }

  /** FirstPresent picks the candidate at the first position that is present, or
      the default exactly when every candidate is null or undefined. */
  lemma {:induction false} FirstPresentSpec(candidates: seq<Json>, default: Json)
    ensures (forall i :: 0 <= i < |candidates| ==> Nullish(candidates[i])) ==> FirstPresent(candidates, default) == default
    ensures forall i :: 0 <= i < |candidates| && !Nullish(candidates[i]) && (forall j :: 0 <= j < i ==> Nullish(candidates[j]))
              ==> FirstPresent(candidates, default) == candidates[i]
  {
    if candidates != [] {
      FirstPresentSpec(candidates[1..], default);
      forall i | 0 < i < |candidates| && !Nullish(candidates[i]) && (forall j :: 0 <= j < i ==> Nullish(candidates[j]))
        ensures FirstPresent(candidates, default) == candidates[i]
      {
        assert Nullish(candidates[0]);
        assert candidates[1..][i - 1] == candidates[i];
        assert forall j :: 0 <= j < i - 1 ==> Nullish(candidates[1..][j]);
      }
    }
  }

  /** The rating rule: a number is kept as it is, even 0 or NaN; otherwise
      Number(x.food_rating ?? 0), dropped to undefined when that is 0 or NaN. */
  function NormalizedRating(x: Json, host: Host): Json
    requires !Nullish(x)
  {
    if Member(x, "rating").Num? then Member(x, "rating")
    else
      var n := ToNumber(Coalesce(Member(x, "food_rating"), Num(Finite(0.0))), host);
      OrElse(Num(n), Undefined)
  }

  /** normalizeItem (app/api/food/route.ts:7-20). uuid is the value that
      crypto.randomUUID() would return at this call. Every property read throws on
      null and undefined, so those inputs give None; every other value normalises. */
  function NormalizeItem(x: Json, uuid: string, host: Host): (r: Option<Json>)
    ensures r.None? <==> Nullish(x)
    ensures r.Some? ==> r.value.Obj? && r.value.fields.Keys == ItemKeys
    ensures r.Some? ==> r.value.fields["id"].Str? && !Nullish(r.value.fields["name"]) && !Nullish(r.value.fields["image"])
    ensures r.Some? ==> !Nullish(r.value.fields["restaurant"])
    ensures r.Some? ==> !r.value.fields["price"].Null?
  {
    if Nullish(x) then None
    else
      var id := Member(x, "id");
      Some(Obj(map[
        "id" := Str(if Nullish(id) then uuid else ToStr(id, host)),
        "name" := Coalesce(Member(x, "name"), Coalesce(Member(x, "food_name"), Str("Untitled"))),
        "image" := Coalesce(Member(x, "image"), Coalesce(Member(x, "food_image"), Coalesce(Member(x, "avatar"), Str("/placeholder.svg")))),
        "price" := Coalesce(Member(x, "price"), Coalesce(Member(x, "amount"), Coalesce(Member(x, "priceLabel"), Undefined))),
        "rating" := NormalizedRating(x, host),
        "restaurant" := Coalesce(Member(x, "restaurant"), Obj(map[
          "name" := Member(x, "restaurant_name"),
          "logo" := Member(x, "restaurant_logo"),
          "status" := Member(x, "restaurant_status")]))
      ]))
  }

  /** One step of a fallback list is one ??. */
  lemma FirstPresentCons(c: Json, rest: seq<Json>, default: Json)
    ensures FirstPresent([c] + rest, default) == Coalesce(c, FirstPresent(rest, default))
  {
    assert ([c] + rest)[1..] == rest;
  }

  /** Each field of a normalised item is the first present entry of its fallback
      list; id is String(x.id) whenever x.id is present, even "" or 0. */
  lemma NormalizeFallbacks(x: Json, uuid: string, host: Host)
    requires !Nullish(x)
    ensures var f := NormalizeItem(x, uuid, host).value.fields;
      && f["id"] == Str(if Nullish(Member(x, "id")) then uuid else ToStr(Member(x, "id"), host))
      && f["name"] == FirstPresent([Member(x, "name"), Member(x, "food_name")], Str("Untitled"))
      && f["image"] == FirstPresent([Member(x, "image"), Member(x, "food_image"), Member(x, "avatar")], Str("/placeholder.svg"))
      && f["price"] == FirstPresent([Member(x, "price"), Member(x, "amount"), Member(x, "priceLabel")], Undefined)
      && f["restaurant"] == FirstPresent([Member(x, "restaurant")],
           Obj(map["name" := Member(x, "restaurant_name"), "logo" := Member(x, "restaurant_logo"), "status" := Member(x, "restaurant_status")]))
  {
    var d := Str("Untitled");
    FirstPresentCons(Member(x, "food_name"), [], d);
    FirstPresentCons(Member(x, "name"), [Member(x, "food_name")], d);
    d := Str("/placeholder.svg");
    FirstPresentCons(Member(x, "avatar"), [], d);
    FirstPresentCons(Member(x, "food_image"), [Member(x, "avatar")], d);
    FirstPresentCons(Member(x, "image"), [Member(x, "food_image"), Member(x, "avatar")], d);
    FirstPresentCons(Member(x, "priceLabel"), [], Undefined);
    FirstPresentCons(Member(x, "amount"), [Member(x, "priceLabel")], Undefined);
    FirstPresentCons(Member(x, "price"), [Member(x, "amount"), Member(x, "priceLabel")], Undefined);
  }

  /** The rating of a normalised item: a number in x.rating is passed through, 0
      included; otherwise the item's rating is the coerced food_rating when that is
      a non-zero number, and undefined when it is 0 or NaN. */
  lemma NormalizeRatingCases(x: Json, uuid: string, host: Host)
    requires !Nullish(x)
    ensures var rating := NormalizeItem(x, uuid, host).value.fields["rating"];
      && (Member(x, "rating").Num? ==> rating == Member(x, "rating"))
      && (!Member(x, "rating").Num? ==>
            var n := ToNumber(Coalesce(Member(x, "food_rating"), Num(Finite(0.0))), host);
            (rating.Undefined? <==> n == Finite(0.0) || n == NaN)
            && (!rating.Undefined? ==> rating == Num(n)))
    ensures Member(x, "rating") == Num(Finite(0.0)) ==> NormalizeItem(x, uuid, host).value.fields["rating"] == Num(Finite(0.0))
    ensures !Member(x, "rating").Num? && Nullish(Member(x, "food_rating")) ==> NormalizeItem(x, uuid, host).value.fields["rating"] == Undefined
  {
  }

  /** The object literal normalizeItem builds, read back through property access. */
  lemma ItemLookups(id: Json, name: Json, image: Json, price: Json, rating: Json, restaurant: Json)
    ensures var y := Obj(map["id" := id, "name" := name, "image" := image, "price" := price, "rating" := rating, "restaurant" := restaurant]);
      && Member(y, "id") == id && Member(y, "name") == name && Member(y, "image") == image
      && Member(y, "price") == price && Member(y, "rating") == rating && Member(y, "restaurant") == restaurant
      && Member(y, "food_name") == Undefined && Member(y, "food_image") == Undefined && Member(y, "avatar") == Undefined
      && Member(y, "amount") == Undefined && Member(y, "priceLabel") == Undefined && Member(y, "food_rating") == Undefined
  {
  }

  /** Normalising an already normalised item gives it back unchanged (and does not
      draw a new identifier). */
  lemma NormalizeIdempotent(x: Json, uuid: string, uuid2: string, host: Host)
    requires !Nullish(x)
    ensures NormalizeItem(NormalizeItem(x, uuid, host).value, uuid2, host) == NormalizeItem(x, uuid, host)
  {
    var y := NormalizeItem(x, uuid, host).value;
    var f := y.fields;
    ItemLookups(f["id"], f["name"], f["image"], f["price"], f["rating"], f["restaurant"]);
    assert y == Obj(map["id" := f["id"], "name" := f["name"], "image" := f["image"], "price" := f["price"], "rating" := f["rating"], "restaurant" := f["restaurant"]]);
    assert Str(if Nullish(Member(y, "id")) then uuid2 else ToStr(Member(y, "id"), host)) == f["id"];
    assert Coalesce(Member(y, "name"), Coalesce(Member(y, "food_name"), Str("Untitled"))) == f["name"];
    assert Coalesce(Member(y, "image"), Coalesce(Member(y, "food_image"), Coalesce(Member(y, "avatar"), Str("/placeholder.svg")))) == f["image"];
    assert Coalesce(Member(y, "price"), Coalesce(Member(y, "amount"), Coalesce(Member(y, "priceLabel"), Undefined))) == f["price"];
    assert NormalizedRating(y, host) == f["rating"] by {
      if !f["rating"].Num? {
        assert f["rating"] == Undefined;
      }
    }
    assert Coalesce(Member(y, "restaurant"), Obj(map[
      "name" := Member(y, "restaurant_name"),
      "logo" := Member(y, "restaurant_logo"),
      "status" := Member(y, "restaurant_status")])) == f["restaurant"];
  }

  /** The record sent upstream by POST and PUT (app/api/food/route.ts:61-70 and
      113-122): the form's food_* names are preferred with ||, so an empty or zero
      value falls back to the client's plain name, and the nested restaurant is
      built from the flat fields only when body.restaurant is falsy. */
  function Payload(body: Json): (r: Json)
    requires !Nullish(body)
    ensures r.Obj? && r.fields.Keys == {"name", "image", "rating", "restaurant"}
  {
    Obj(map[
      "name" := OrElse(Member(body, "food_name"), Member(body, "name")),
      "image" := OrElse(Member(body, "food_image"), Member(body, "image")),
      "rating" := OrElse(Member(body, "food_rating"), Member(body, "rating")),
      "restaurant" := OrElse(Member(body, "restaurant"), Obj(map[
        "name" := Member(body, "restaurant_name"),
        "logo" := Member(body, "restaurant_logo"),
        "status" := Member(body, "restaurant_status")]))
    ])
  }

  /** The || rule of each payload field: a truthy food_* value is sent, and any falsy
      one (missing, undefined, null, false, NaN, "" or 0) falls through to the plain
      name. This is where || and ?? part ways: an empty food_name, a zero food_rating
      and an empty food_image fall through, where the read-side ?? would keep them. */
  lemma PayloadFalsyFallbacks(body: Json)
    requires !Nullish(body)
    ensures !Falsy(Member(body, "food_name")) ==> Payload(body).fields["name"] == Member(body, "food_name")
    ensures Falsy(Member(body, "food_name")) ==> Payload(body).fields["name"] == Member(body, "name")
    ensures !Falsy(Member(body, "food_image")) ==> Payload(body).fields["image"] == Member(body, "food_image")
    ensures Falsy(Member(body, "food_image")) ==> Payload(body).fields["image"] == Member(body, "image")
    ensures !Falsy(Member(body, "food_rating")) ==> Payload(body).fields["rating"] == Member(body, "food_rating")
    ensures Falsy(Member(body, "food_rating")) ==> Payload(body).fields["rating"] == Member(body, "rating")
    ensures Member(body, "food_name") == Str("") ==> Payload(body).fields["name"] == Member(body, "name")
    ensures Member(body, "food_image") == Str("") ==> Payload(body).fields["image"] == Member(body, "image")
    ensures Member(body, "food_rating") == Num(Finite(0.0)) ==> Payload(body).fields["rating"] == Member(body, "rating")
    ensures Falsy(Member(body, "restaurant")) ==>
      Payload(body).fields["restaurant"] == Obj(map["name" := Member(body, "restaurant_name"), "logo" := Member(body, "restaurant_logo"), "status" := Member(body, "restaurant_status")])
    ensures !Falsy(Member(body, "restaurant")) ==> Payload(body).fields["restaurant"] == Member(body, "restaurant")
  {
  }

  /** The outgoing response: a status and the object NextResponse.json serialises. */
  datatype Response = Response(status: int, body: Json)

  /** The upstream call a handler made, if any, and the response it returned. */
  datatype Exchange = Exchange(call: Option<Call>, response: Response)

  function ErrorBody(message: string): Json {
    Obj(map["error" := Str(message)])
  }

  const InternalError := Response(500, ErrorBody("Internal server error"))
  const MissingId := Response(400, ErrorBody("Missing id parameter"))

  /** The statuses NextResponse.json accepts with a body, following the Response
      constructor of the Fetch Standard: a status outside 200 to 599 is a RangeError,
      and a null body status (101, 103, 204, 205, 304) with a body is a TypeError. */
  predicate JsonStatus(status: int) {
    200 <= status <= 599 && status != 204 && status != 205 && status != 304
  }

  /** NextResponse.json({error: message}, {status}) inside a handler's try: the
      status and message when the status is accepted, and otherwise the error it
      throws is caught and answered with 500. */
  function Passthrough(status: int, message: string): (r: Response)
    ensures JsonStatus(status) ==> r == Response(status, ErrorBody(message))
    ensures !JsonStatus(status) ==> r == InternalError
  {
    if JsonStatus(status) then Response(status, ErrorBody(message)) else InternalError
  }

  /** Of the statuses that are not ok, every one is passed through except 304 and
      those outside 200 to 599, which become 500. */
  lemma PassthroughCases(status: int, message: string)
    requires !IsOk(status)
    ensures Passthrough(status, message).status == if status == 304 || status < 200 || status > 599 then 500 else status
    ensures Passthrough(status, message).status != 500 ==> Passthrough(status, message).body == ErrorBody(message)
  {
  }

  /** data.map(normalizeItem): uuids(i) is the identifier drawn for element i;
      None when some element is null or undefined, since that call throws. */
  function NormalizeAll(es: seq<Json>, uuids: nat -> string, host: Host): (r: Option<seq<Json>>)
    ensures r.None? <==> exists i :: 0 <= i < |es| && Nullish(es[i])
    ensures r.Some? ==> |r.value| == |es| && forall i :: 0 <= i < |es| ==> Some(r.value[i]) == NormalizeItem(es[i], uuids(i), host)
  {
    if exists i :: 0 <= i < |es| && Nullish(es[i]) then None
    else Some(seq(|es|, i requires 0 <= i < |es| => NormalizeItem(es[i], uuids(i), host).value))
  }

  /** The upstream URL for a list request: the name filter is added, encoded, only
      when the query parameter is present and non-empty. */
  function ListUrl(name: Option<string>): (url: string)
    ensures name.None? || name.value == "" ==> url == MockApi
    ensures name.Some? && name.value != "" ==> url == MockApi + "?name=" + EncodeUriComponent(name.value)
  {
    if name.Some? && name.value != "" then MockApi + "?name=" + EncodeUriComponent(name.value) else MockApi
  }

  /** GET /api/food (app/api/food/route.ts:22-55). */
  function HandleGet(name: Option<string>, upstream: Call -> Outcome, uuids: nat -> string, host: Host): (r: Exchange)
    ensures r.call == Some(Call("GET", ListUrl(name), None))
    ensures upstream(r.call.value).Threw? ==> r.response == InternalError
    ensures upstream(r.call.value).Answered? && !IsOk(upstream(r.call.value).status)
      ==> r.response == Passthrough(upstream(r.call.value).status, "Failed to fetch food items")
    ensures upstream(r.call.value).Answered? && IsOk(upstream(r.call.value).status) ==>
      match upstream(r.call.value).body
      case None => r.response == InternalError
      case Some(Arr(es)) => r.response == (match NormalizeAll(es, uuids, host)
                                           case None => InternalError
                                           case Some(items) => Response(200, Obj(map["items" := Arr(items)])))
      case Some(data) => r.response == Response(200, Obj(map["items" := Arr([])]))
  {
    var call := Call("GET", ListUrl(name), None);
    var response := match upstream(call)
      case Threw => InternalError
      case Answered(status, body) =>
        if !IsOk(status) then Passthrough(status, "Failed to fetch food items")
        else match body
          case None => InternalError
          case Some(data) =>
            if !data.Arr? then Response(200, Obj(map["items" := Arr([])]))
            else match NormalizeAll(data.elems, uuids, host)
              case None => InternalError
              case Some(items) => Response(200, Obj(map["items" := Arr(items)]))
    ;
    Exchange(Some(call), response)
  }

  /** The response to the upstream's answer to a create or update: a failed call is
      500, a non-ok status is passed through with the operation's message (as far
      as NextResponse.json accepts it), and an
      ok answer is normalised and returned with the success status. */
  function ItemResponse(outcome: Outcome, failure: string, success: int, uuid: string, host: Host): (r: Response)
    ensures outcome.Threw? ==> r == InternalError
    ensures outcome.Answered? && !IsOk(outcome.status) ==> r == Passthrough(outcome.status, failure)
    ensures outcome.Answered? && IsOk(outcome.status) && outcome.body.Some? && !Nullish(outcome.body.value)
      ==> r == Response(success, NormalizeItem(outcome.body.value, uuid, host).value)
    ensures outcome.Answered? && IsOk(outcome.status) && (outcome.body.None? || Nullish(outcome.body.value)) ==> r == InternalError
  {
    match outcome
    case Threw => InternalError
    case Answered(status, body) =>
      if !IsOk(status) then Passthrough(status, failure)
      else if body.None? then InternalError
      else match NormalizeItem(body.value, uuid, host)
        case None => InternalError
        case Some(item) => Response(success, item)
  }

  /** POST /api/food (app/api/food/route.ts:57-98). body is what request.json()
      resolves to, None when the request body is not JSON. */
  function HandlePost(body: Option<Json>, upstream: Call -> Outcome, uuid: string, host: Host): (r: Exchange)
    ensures body.None? || Nullish(body.value) ==> r == Exchange(None, InternalError)
    ensures body.Some? && !Nullish(body.value) ==>
      && r.call == Some(Call("POST", MockApi, Some(Payload(body.value))))
      && r.response == ItemResponse(upstream(r.call.value), "Failed to create food item", 201, uuid, host)
  {
    if body.None? || Nullish(body.value) then Exchange(None, InternalError)
    else
      var call := Call("POST", MockApi, Some(Payload(body.value)));
      Exchange(Some(call), ItemResponse(upstream(call), "Failed to create food item", 201, uuid, host))
  }

  /** PUT /api/food?id=... (app/api/food/route.ts:99-150). id is the query
      parameter, None when absent; an absent or empty id is rejected with 400
      before the request body is read or anything is sent upstream. */
  function HandlePut(id: Option<string>, body: Option<Json>, upstream: Call -> Outcome, uuid: string, host: Host): (r: Exchange)
    ensures id.None? || id.value == "" ==> r == Exchange(None, MissingId)
    ensures id.Some? && id.value != "" && (body.None? || Nullish(body.value)) ==> r == Exchange(None, InternalError)
    ensures id.Some? && id.value != "" && body.Some? && !Nullish(body.value) ==>
      && r.call == Some(Call("PUT", MockApi + "/" + id.value, Some(Payload(body.value))))
      && r.response == ItemResponse(upstream(r.call.value), "Failed to update food item", 200, uuid, host)
  {
    if id.None? || id.value == "" then Exchange(None, MissingId)
    else if body.None? || Nullish(body.value) then Exchange(None, InternalError)
    else
      var call := Call("PUT", MockApi + "/" + id.value, Some(Payload(body.value)));
      Exchange(Some(call), ItemResponse(upstream(call), "Failed to update food item", 200, uuid, host))
  }

  /** DELETE /api/food?id=... (app/api/food/route.ts:152-185). */
  function HandleDelete(id: Option<string>, upstream: Call -> Outcome): (r: Exchange)
    ensures id.None? || id.value == "" ==> r == Exchange(None, MissingId)
    ensures id.Some? && id.value != "" ==> r.call == Some(Call("DELETE", MockApi + "/" + id.value, None))
    ensures r.call.Some? && upstream(r.call.value).Threw? ==> r.response == InternalError
    ensures r.call.Some? && upstream(r.call.value).Answered? && !IsOk(upstream(r.call.value).status)
      ==> r.response == Passthrough(upstream(r.call.value).status, "Failed to delete food item")
    ensures r.call.Some? && upstream(r.call.value).Answered? && IsOk(upstream(r.call.value).status) ==>
      r.response == (match upstream(r.call.value).body
                     case None => InternalError
                     case Some(data) => Response(200, Obj(map["success" := Bool(true), "data" := data])))
  {
    if id.None? || id.value == "" then Exchange(None, MissingId)
    else
      var call := Call("DELETE", MockApi + "/" + id.value, None);
      var response := match upstream(call)
        case Threw => InternalError
        case Answered(status, body) =>
          if !IsOk(status) then Passthrough(status, "Failed to delete food item")
          else match body
            case None => InternalError
            case Some(data) => Response(200, Obj(map["success" := Bool(true), "data" := data]));
      Exchange(Some(call), response)
  }

  /** The statuses GET answers with: 200, 500, or a non-ok upstream status. */
  lemma GetStatuses(name: Option<string>, upstream: Call -> Outcome, uuids: nat -> string, host: Host)
    ensures var g := HandleGet(name, upstream, uuids, host);
      g.response.status in {200, 500} || (upstream(g.call.value).Answered? && g.response.status == upstream(g.call.value).status && !IsOk(g.response.status))
  {
  }

  /** The statuses POST answers with: 201, 500, or a non-ok upstream status. */
  lemma PostStatuses(body: Option<Json>, upstream: Call -> Outcome, uuid: string, host: Host)
    ensures var p := HandlePost(body, upstream, uuid, host);
      p.response.status in {201, 500} || (p.call.Some? && upstream(p.call.value).Answered? && p.response.status == upstream(p.call.value).status && !IsOk(p.response.status))
  {
  }

  /** The statuses PUT answers with, and the 400 for a missing id sent without
      calling upstream. */
  lemma PutStatuses(id: Option<string>, body: Option<Json>, upstream: Call -> Outcome, uuid: string, host: Host)
    ensures var u := HandlePut(id, body, upstream, uuid, host);
      u.response.status in {200, 400, 500} || (u.call.Some? && upstream(u.call.value).Answered? && u.response.status == upstream(u.call.value).status && !IsOk(u.response.status))
    ensures HandlePut(id, body, upstream, uuid, host).response == MissingId ==> HandlePut(id, body, upstream, uuid, host).call.None?
  {
    assert ErrorBody("Missing id parameter").fields["error"] != ErrorBody("Failed to update food item").fields["error"] by {
      assert "Missing id parameter"[0] != "Failed to update food item"[0];
    }
  }

  /** The statuses DELETE answers with, and the 400 for a missing id sent without
      calling upstream. */
  lemma DeleteStatuses(id: Option<string>, upstream: Call -> Outcome)
    ensures var d := HandleDelete(id, upstream);
      d.response.status in {200, 400, 500} || (d.call.Some? && upstream(d.call.value).Answered? && d.response.status == upstream(d.call.value).status && !IsOk(d.response.status))
    ensures HandleDelete(id, upstream).response == MissingId ==> HandleDelete(id, upstream).call.None?
  {
    assert ErrorBody("Missing id parameter").fields["error"] != ErrorBody("Failed to delete food item").fields["error"] by {
      assert "Missing id parameter"[0] != "Failed to delete food item"[0];
    }
  }

  /** Every handler answers with one of a few statuses: its own success status,
      400 for a missing id, 500 for a thrown error, or a non-ok upstream status
      passed through; the "Missing id parameter" answer is given without an upstream
      call. */
  lemma ResponseStatuses(id: Option<string>, body: Option<Json>, name: Option<string>,
                         upstream: Call -> Outcome, uuid: string, uuids: nat -> string, host: Host)
    ensures var g := HandleGet(name, upstream, uuids, host);
      g.response.status in {200, 500} || (upstream(g.call.value).Answered? && g.response.status == upstream(g.call.value).status && !IsOk(g.response.status))
    ensures var p := HandlePost(body, upstream, uuid, host);
      p.response.status in {201, 500} || (p.call.Some? && upstream(p.call.value).Answered? && p.response.status == upstream(p.call.value).status && !IsOk(p.response.status))
    ensures var u := HandlePut(id, body, upstream, uuid, host);
      u.response.status in {200, 400, 500} || (u.call.Some? && upstream(u.call.value).Answered? && u.response.status == upstream(u.call.value).status && !IsOk(u.response.status))
    ensures var d := HandleDelete(id, upstream);
      d.response.status in {200, 400, 500} || (d.call.Some? && upstream(d.call.value).Answered? && d.response.status == upstream(d.call.value).status && !IsOk(d.response.status))
    ensures HandlePut(id, body, upstream, uuid, host).response == MissingId ==> HandlePut(id, body, upstream, uuid, host).call.None?
    ensures HandleDelete(id, upstream).response == MissingId ==> HandleDelete(id, upstream).call.None?
  {
    GetStatuses(name, upstream, uuids, host);
    PostStatuses(body, upstream, uuid, host);
    PutStatuses(id, body, upstream, uuid, host);
    DeleteStatuses(id, upstream);
  }
}
