/** The older card of client/components/food/FoodCard.tsx. It derives status,
    isOpen and the status label with the same expressions as the newer card
    (lines 27-29) and shows the same fallbacks; its rating suffix is stored in the
    file as the three characters U+00E2 U+02DC U+2026, the UTF-8 bytes of the star
    U+2605 read back as Windows-1252. */
module ClientFoodCard {
  import opened JsString
  import opened JsRuntime
  import FoodCard

  /** The suffix of the rating as the file holds it. */
  const MisencodedStar := "\U{00E2}\U{02DC}\U{2026}"

  /** The star the newer card shows after the rating. */
  const Star := "\U{2605}"

  /** The card with a given rating suffix (client/components/food/FoodCard.tsx:27-29, 36-91). */
  function View(item: FoodCard.FoodItem, host: Host, suffix: string): FoodCard.CardView {
    var status := if item.restaurant.Some? && item.restaurant.value.status.Some? then item.restaurant.value.status.value else "";
    var isOpen := Includes(ToLower(status), "open");
    var statusLabel := if status != "" then status else "Unknown";
    var restaurant := item.restaurant;
    FoodCard.CardView(
      item.image,
      item.name,
      if item.price.Some? && item.price.value != "" then item.price else None,
      if restaurant.Some? && restaurant.value.logo.Some? && restaurant.value.logo.value != ""
      then Some(FoodCard.Logo(restaurant.value.logo.value, restaurant.value.name.GetOr("Restaurant logo")))
      else None,
      item.name,
      (if item.rating.Some? then host.numberToString(item.rating.value) else "-") + suffix,
      isOpen,
      if isOpen then "Open Now" else statusLabel,
      if restaurant.Some? then restaurant.value.name.GetOr("Unknown Restaurant") else "Unknown Restaurant")
  }

  /** The card as the file is written, with the misencoded suffix. */
  function RenderAsWritten(item: FoodCard.FoodItem, host: Host): FoodCard.CardView {
    View(item, host, MisencodedStar)
  }

  /** The card with the star it was evidently meant to show. */
  function Render(item: FoodCard.FoodItem, host: Host): FoodCard.CardView {
    View(item, host, Star)
  }

  /** As written, the older card's rating text differs from the newer card's for
      every item: it ends in an ellipsis character, not a star. */
  lemma AsWrittenRatingDiffers(item: FoodCard.FoodItem, host: Host)
    ensures RenderAsWritten(item, host).ratingText != FoodCard.Render(item, host).ratingText
  {
    var old_ := RenderAsWritten(item, host).ratingText;
    var new_ := FoodCard.Render(item, host).ratingText;
    assert old_[|old_| - 1] == '\U{2026}';
    assert new_[|new_| - 1] == '\U{2605}';
  }

  /** With the star restored the older card shows exactly what the newer card shows,
      status derivation and every fallback included, for every item. */
  lemma RenderAgrees(item: FoodCard.FoodItem, host: Host)
    ensures Render(item, host) == FoodCard.Render(item, host)
    ensures RenderAsWritten(item, host) == Render(item, host).(ratingText := RenderAsWritten(item, host).ratingText)
  {
  }
}
