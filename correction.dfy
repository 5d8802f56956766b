/**
 * correct_meal in backend/main.py: a user replaces a meal's label. The new
 * label is looked up like any other (cache first, then the nutrition service)
 * and becomes the meal's single item, at quantity 1, whose macros are the
 * meal's new totals.
 */
module Correction {
  import opened Wrappers
  import opened PyStr
  import opened Meals
  import opened Database
  import opened Pipeline
  import opened Jobs

  /** The `{"totals", "items"}` part of a successful answer. */
  datatype Corrected = Corrected(totals: Macros, items: seq<Item>)

  const EmptyLabelDetail := "new_label is required and cannot be empty"

  function MealNotFoundDetail(mealId: int): string {
    "Meal " + IntToString(mealId) + " not found"
  }

  /** The answer for a meal that exists, given the food cache the lookup starts from. */
  function CorrectionOf(cache: map<string, CacheRow>, food: string, usda: string -> UsdaAnswer): Corrected {
    var item := LookupFood(cache, food, 1.0, usda).item;
    Corrected(item.macros, [item])
  }

  /**
   * The corrected meal has exactly one item, named by the label's cache key at
   * quantity 1, and the totals are the sum over the items.
   */
  lemma CorrectionShape(cache: map<string, CacheRow>, food: string, usda: string -> UsdaAnswer)
    ensures var c := CorrectionOf(cache, food, usda);
      && |c.items| == 1
      && c.items[0].name == FoodKey(food) && c.items[0].quantity == 1.0
      && c.totals == Totals(c.items)
      && (FoodKey(food) in cache ==> c.totals == Scale(cache[FoodKey(food)].per100, 1.0))
  {
    var c := CorrectionOf(cache, food, usda);
    TotalsSingle(c.items[0]);
  }

  /**
   * Setting a correction on the meal that lookup finds changes exactly that
   * row's label and totals, as the next lookup sees it.
   */
  lemma {:induction false} SetCorrectionFound(ups: seq<Upload>, id: int, food: string, totals: Macros)
    requires FindUpload(ups, id).Some?
    ensures FindUpload(SetCorrection(ups, id, food, totals), id)
      == Some(FindUpload(ups, id).value.(correctedLabel := Some(food), totals := totals))
  {
    var r := SetCorrection(ups, id, food, totals);
    if ups[0].id != id {
      assert r[1..] == SetCorrection(ups[1..], id, food, totals);
      SetCorrectionFound(ups[1..], id, food, totals);
    }
  }

  /** update_meal_correction with the single item: its name and macros become the meal's label and totals. */
  method StoreCorrection(db: Database, mealId: int, item: Item)
    requires db.Valid()
    modifies db`uploads, db`mealItems
    ensures db.Valid()
    ensures db.uploads == SetCorrection(old(db.uploads), mealId, item.name, item.macros)
    ensures db.GetMealItems(mealId) == [item]
    ensures forall m :: m != mealId ==> db.GetMealItems(m) == old(db.GetMealItems(m))
  {
    RowItemsOfFields([item]);
    db.UpdateMealCorrection(mealId, item.name, item.macros, AllFields([item]));
  }

  /**
   * The writes of correct_meal for a meal that exists: one lookup, then the
   * meal's label, totals and items replaced.
   */
  method ApplyCorrection(db: Database, mealId: int, food: string, usda: string -> UsdaAnswer) returns (c: Corrected)
    requires db.Valid()
    modifies db`foodCache, db`uploads, db`mealItems
    ensures db.Valid()
    ensures c == CorrectionOf(old(db.foodCache), food, usda)
    ensures db.foodCache == CacheAfter(old(db.foodCache), food, usda)
    ensures db.uploads == SetCorrection(old(db.uploads), mealId, c.items[0].name, c.totals)
    ensures db.GetMealItems(mealId) == c.items
    ensures forall m :: m != mealId ==> db.GetMealItems(m) == old(db.GetMealItems(m))
  {
    ghost var ups, n, rows := db.uploads, db.nextUploadId, db.mealItems;
    assert ValidStore(ups, n);
    var looked := GetMacrosForFood(db, food, 1.0, usda);
    assert db.uploads == ups && db.nextUploadId == n && db.mealItems == rows;
    var item := looked.item;
    c := Corrected(item.macros, [item]);
    assert c == CorrectionOf(old(db.foodCache), food, usda);
    StoreCorrection(db, mealId, item);
  }

  /**
   * correct_meal: 400 for a label that is empty once stripped, 404 for an
   * unknown meal, and otherwise the looked-up item replaces the meal's items and
   * its macros its totals. On an error nothing is written.
   */
  method CorrectMeal(db: Database, mealId: int, newLabel: string, usda: string -> UsdaAnswer)
    returns (r: Result<Corrected, HttpError>)
    requires db.Valid()
    modifies db`foodCache, db`uploads, db`mealItems
    ensures db.Valid()
    ensures Strip(newLabel) == "" ==> r == Failure(HttpError(400, EmptyLabelDetail))
    ensures Strip(newLabel) != "" && old(db.GetMeal(mealId)).None? ==>
      r == Failure(HttpError(404, MealNotFoundDetail(mealId)))
    ensures Strip(newLabel) != "" && old(db.GetMeal(mealId)).Some? ==> r.Success?
    ensures r.Failure? ==> unchanged(db)
    ensures r.Success? ==>
      && Strip(newLabel) != "" && old(db.GetMeal(mealId)).Some?
      && r.value == CorrectionOf(old(db.foodCache), Strip(newLabel), usda)
      && db.foodCache == CacheAfter(old(db.foodCache), Strip(newLabel), usda)
      && db.uploads == SetCorrection(old(db.uploads), mealId, r.value.items[0].name, r.value.totals)
      && db.GetMealItems(mealId) == r.value.items
      && (forall m :: m != mealId ==> db.GetMealItems(m) == old(db.GetMealItems(m)))
  {
    var food := Strip(newLabel);
    if food == "" {
      return Failure(HttpError(400, EmptyLabelDetail));
    }
    var meal := db.GetMeal(mealId);
    if meal.None? {
      return Failure(HttpError(404, MealNotFoundDetail(mealId)));
    }
    var c := ApplyCorrection(db, mealId, food, usda);
    r := Success(c);
  }

  /** After a successful correction the meal's row carries the new label and totals. */
  lemma CorrectedRow(ups: seq<Upload>, mealId: int, c: Corrected)
    requires FindUpload(ups, mealId).Some? && |c.items| > 0
    ensures var u := FindUpload(SetCorrection(ups, mealId, c.items[0].name, c.totals), mealId);
      u.Some? && u.value.correctedLabel == Some(c.items[0].name) && u.value.totals == c.totals
      && u.value.imagePath == FindUpload(ups, mealId).value.imagePath
      && u.value.originalLabel == FindUpload(ups, mealId).value.originalLabel
  {
    SetCorrectionFound(ups, mealId, c.items[0].name, c.totals);
  }
}
