/** The food card of components/food/FoodCard.tsx: the FoodItem and RestaurantInfo
    types every client-side consumer reads a normalised item at, and what the card
    derives from an item for display. */
module FoodCard {
  import opened JsString
  import opened JsRuntime

  /** RestaurantInfo (components/food/FoodCard.tsx:6-10): every field optional. */
  datatype RestaurantInfo = RestaurantInfo(name: Option<string>, logo: Option<string>, status: Option<string>)

  /** FoodItem (components/food/FoodCard.tsx:12-19). restaurant is optional and may
      be null; both forms are None, since every reader goes through ?. . */
  datatype FoodItem = FoodItem(
    id: string,
    name: string,
    image: string,
    rating: Option<JsNum>,
    price: Option<string>,
    restaurant: Option<RestaurantInfo>)

  /** An optional string property: missing, undefined or null is None. */
  function OptString(v: Json): Option<Option<string>> {
    if Nullish(v) then Some(None)
    else if v.Str? then Some(Some(v.s))
    else None
  }

  /** A value an optional string property may hold: missing, undefined, null or a string. */
  predicate OptionalString(v: Json) {
    Nullish(v) || v.Str?
  }

  /** j has, member by member, the types the FoodItem interface declares. */
  predicate HasFoodItemShape(j: Json) {
    && j.Obj?
    && Member(j, "id").Str? && Member(j, "name").Str? && Member(j, "image").Str?
    && (Member(j, "rating").Undefined? || Member(j, "rating").Num?)
    && OptionalString(Member(j, "price"))
    && var rest := Member(j, "restaurant");
       (Nullish(rest) || (rest.Obj? && OptionalString(Member(rest, "name"))
                          && OptionalString(Member(rest, "logo")) && OptionalString(Member(rest, "status"))))
  }

  /** The string an optional string property reads as. */
  function OptionalValue(v: Json): Option<string>
    requires OptionalString(v)
  {
    if v.Str? then Some(v.s) else None
  }

  /** The value j read at the FoodItem type, or None when some field of j does not
      have the type the interface declares (the TypeScript cast does not check). */
  function AsFoodItem(j: Json): (r: Option<FoodItem>)
    ensures r.Some? <==> HasFoodItemShape(j)
    ensures r.Some? ==> Member(j, "id") == Str(r.value.id) && Member(j, "name") == Str(r.value.name)
                        && Member(j, "image") == Str(r.value.image)
    ensures r.Some? ==> (Member(j, "rating").Num? ==> r.value.rating == Some(Member(j, "rating").n))
                        && (Member(j, "rating").Undefined? ==> r.value.rating.None?)
    ensures r.Some? ==> (Member(j, "price").Str? ==> r.value.price == Some(Member(j, "price").s))
                        && (Nullish(Member(j, "price")) ==> r.value.price.None?)
    ensures r.Some? && Nullish(Member(j, "restaurant")) ==> r.value.restaurant.None?
    ensures r.Some? && !Nullish(Member(j, "restaurant")) ==>
      var rest := Member(j, "restaurant");
      r.value.restaurant == Some(RestaurantInfo(OptionalValue(Member(rest, "name")), OptionalValue(Member(rest, "logo")),
                                                OptionalValue(Member(rest, "status"))))
  {
    if !j.Obj? then None
    else
      var id, name, image := Member(j, "id"), Member(j, "name"), Member(j, "image");
      var rating, price, restaurant := Member(j, "rating"), Member(j, "price"), Member(j, "restaurant");
      if !(id.Str? && name.Str? && image.Str?) then None
      else if !(rating.Undefined? || rating.Num?) then None
      else if OptString(price).None? then None
      else if Nullish(restaurant) then
        Some(FoodItem(id.s, name.s, image.s, if rating.Num? then Some(rating.n) else None, OptString(price).value, None))
      else if !restaurant.Obj? then None
      else
        var rn, rl, rs := OptString(Member(restaurant, "name")), OptString(Member(restaurant, "logo")), OptString(Member(restaurant, "status"));
        if rn.None? || rl.None? || rs.None? then None
        else Some(FoodItem(id.s, name.s, image.s, if rating.Num? then Some(rating.n) else None, OptString(price).value,
                           Some(RestaurantInfo(rn.value, rl.value, rs.value))))
  }

  /** item.restaurant?.status ?? "" (components/food/FoodCard.tsx:31). */
  function Status(item: FoodItem): (s: string)
    ensures item.restaurant.Some? && item.restaurant.value.status.Some? ==> s == item.restaurant.value.status.value
    ensures item.restaurant.None? || item.restaurant.value.status.None? ==> s == ""
  {
    if item.restaurant.Some? && item.restaurant.value.status.Some? then item.restaurant.value.status.value else ""
  }

  /** status.toLowerCase().includes("open") (components/food/FoodCard.tsx:32). */
  predicate IsOpen(status: string) {
    Includes(ToLower(status), "open")
  }

  /** status ? status : "Unknown" (components/food/FoodCard.tsx:33). */
  function StatusLabel(status: string): string {
    if status != "" then status else "Unknown"
  }

  /** A status is open exactly when the four letters o, p, e, n, in any case, occur
      in it in a row; so "Open Now" is open and "Closed" is not. */
  lemma IsOpenIff(status: string)
    ensures IsOpen(status) <==> exists i :: OccursAt(ToLower(status), "open", i)
    ensures IsOpen("Open Now") && IsOpen("Not open") && !IsOpen("Closed")
  {
    IncludesIff(ToLower(status), "open");
    assert OccursAt(ToLower("Not open"), "open", 4);
    IncludesIff(ToLower("Not open"), "open");
    assert OccursAt(ToLower("Open Now"), "open", 0);
    IncludesIff(ToLower("Open Now"), "open");
    IncludesIff(ToLower("Closed"), "open");
    forall i ensures !OccursAt(ToLower("Closed"), "open", i) {
      if 0 <= i <= 2 {
        assert ToLower("Closed")[i + 1] != 'p';
      }
    }
  }

  /** A logo image: its source and its alt text. */
  datatype Logo = Logo(src: string, alt: string)

  /** What the card shows for one item. */
  datatype CardView = CardView(
    imageSrc: string,
    imageAlt: string,
    priceBadge: Option<string>,
    logo: Option<Logo>,
    title: string,
    ratingText: string,
    badgeOpen: bool,
    badgeText: string,
    restaurantName: string)

  /** The card (components/food/FoodCard.tsx:31-33, 38-123); React renders a number
      rating through Number::toString. */
  function Render(item: FoodItem, host: Host): CardView {
    var status := Status(item);
    var isOpen := IsOpen(status);
    var restaurant := item.restaurant;
    CardView(
      item.image,
      item.name,
      if item.price.Some? && item.price.value != "" then item.price else None,
      if restaurant.Some? && restaurant.value.logo.Some? && restaurant.value.logo.value != ""
      then Some(Logo(restaurant.value.logo.value, restaurant.value.name.GetOr("Restaurant logo")))
      else None,
      item.name,
      (if item.rating.Some? then host.numberToString(item.rating.value) else "-") + "\U{2605}",
      isOpen,
      if isOpen then "Open Now" else StatusLabel(status),
      if restaurant.Some? then restaurant.value.name.GetOr("Unknown Restaurant") else "Unknown Restaurant")
  }

  /** The status badge: "Open Now" in the open style when the status mentions
      "open", otherwise the status itself, or "Unknown" when the item has none; it is
      never empty, and the two statuses the form allows are shown verbatim. The
      substring test also shows "Not open" as "Open Now". */
  lemma BadgeText(item: FoodItem, host: Host)
    ensures var v := Render(item, host);
      && v.badgeText != ""
      && (v.badgeOpen ==> v.badgeText == "Open Now")
      && (!v.badgeOpen && Status(item) != "" ==> v.badgeText == Status(item))
      && (Status(item) == "" ==> !v.badgeOpen && v.badgeText == "Unknown")
    ensures Status(item) == "Open Now" ==> Render(item, host).badgeOpen && Render(item, host).badgeText == "Open Now"
    ensures Status(item) == "Closed" ==> !Render(item, host).badgeOpen && Render(item, host).badgeText == "Closed"
    ensures Status(item) == "Not open" ==> Render(item, host).badgeOpen && Render(item, host).badgeText == "Open Now"
  {
    IsOpenIff(Status(item));
    IncludesIff(ToLower(""), "open");
  }

  /** The display fallbacks: the rating shows "-" only when there is none; the price
      badge appears only for a non-empty price; the logo appears only for a non-empty
      logo, with the restaurant name as alt text or "Restaurant logo"; the hidden
      restaurant name is "Unknown Restaurant" only when the name is missing (an empty
      name is shown as it is). */
  lemma DisplayFallbacks(item: FoodItem, host: Host)
    ensures var v := Render(item, host);
      && (item.rating.None? ==> v.ratingText == "-\U{2605}")
      && (item.rating.Some? ==> v.ratingText == host.numberToString(item.rating.value) + "\U{2605}")
      && (v.priceBadge.Some? <==> item.price.Some? && item.price.value != "")
      && (v.priceBadge.Some? ==> v.priceBadge == item.price)
      && (v.logo.Some? <==> item.restaurant.Some? && item.restaurant.value.logo.Some? && item.restaurant.value.logo.value != "")
      && (v.logo.Some? && item.restaurant.value.name.None? ==> v.logo.value.alt == "Restaurant logo")
      && (v.logo.Some? && item.restaurant.value.name.Some? ==> v.logo.value.alt == item.restaurant.value.name.value)
      && (item.restaurant.Some? && item.restaurant.value.name.Some? ==> v.restaurantName == item.restaurant.value.name.value)
      && (item.restaurant.None? || item.restaurant.value.name.None? ==> v.restaurantName == "Unknown Restaurant")
  {
  }
}
