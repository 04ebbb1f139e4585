/** The add and edit dialog of components/food/AddEditModal.tsx: its own copy of
    the edit prefill, its title, and the choice between the update and the create
    mutation on submit. */
module AddEditModal {
  import opened JsRuntime
  import FoodCard
  import opened FoodForm
  import IndexPage

  /** initialForEdit (components/food/AddEditModal.tsx:26-38). */
  function InitialForEdit(selected: Option<FoodCard.FoodItem>): (r: Option<PartialForm>)
    ensures r.None? <==> selected.None?
  {
    if selected.None? then None
    else
      var item := selected.value;
      var rn := if item.restaurant.Some? then item.restaurant.value.name else None;
      var rl := if item.restaurant.Some? then item.restaurant.value.logo else None;
      var rs := if item.restaurant.Some? then item.restaurant.value.status else None;
      Some(PartialForm(
        Some(item.name),
        Some(Rated(if item.rating.Some? then item.rating.value else Finite(3.0))),
        Some(item.image),
        Some(if rn.Some? then rn.value else ""),
        Some(if rl.Some? then rl.value else ""),
        Some(if rs == Some("Open Now") || rs == Some("Closed") then rs.value else "Open Now")))
  }

  /** The dialog's prefill is the page's, for every selection; so the page's
      properties of it (the rating defaulting to 3 only when the item has none,
      the status forced to one of the two allowed) hold here too. */
  lemma PrefillAgrees(selected: Option<FoodCard.FoodItem>)
    ensures InitialForEdit(selected) == IndexPage.InitialForEdit(selected)
  {
  }

  /** The prefilled rating and status (components/food/AddEditModal.tsx:30, 33-36):
      the rating is 3 when the item has none and the item's own otherwise, so it
      is 3 exactly when the item has none or its rating is 3; the status always
      passes the form's check. */
  lemma PrefillRatingAndStatus(item: FoodCard.FoodItem)
    ensures var p := InitialForEdit(Some(item)).value;
      && (p.foodRating == Some(Rated(Finite(3.0))) <==> item.rating.None? || item.rating == Some(Finite(3.0)))
      && p.restaurantStatus.Some? && ValidStatus(p.restaurantStatus.value)
      && (FoodCard.Status(item) !in {"Open Now", "Closed"} ==> p.restaurantStatus == Some("Open Now"))
  {
  }

  /** title (components/food/AddEditModal.tsx:46). */
  function Title(selected: Option<FoodCard.FoodItem>): (t: string)
    ensures t == "Edit Meal" <==> selected.Some?
    ensures t == "Add a meal" <==> selected.None?
  {
    if selected.Some? then "Edit Meal" else "Add a meal"
  }

  /** The mutation a submit fires. */
  datatype Mutation = CreateMeal(values: FormValues) | UpdateMeal(id: string, values: FormValues)

  /** onSubmit (components/food/AddEditModal.tsx:58-64): exactly one mutation, the
      update of the selected item's id when there is one, the create otherwise,
      always with the submitted values. */
  function Dispatch(selected: Option<FoodCard.FoodItem>, v: FormValues): (m: Mutation)
    ensures m.values == v
    ensures m.UpdateMeal? <==> selected.Some?
    ensures m.UpdateMeal? ==> m.id == selected.value.id
  {
    if selected.Some? then UpdateMeal(selected.value.id, v) else CreateMeal(v)
  }
}
