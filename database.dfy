/**
 * The food-name key and the SQLite store of backend/database.py, with the three
 * tables held in memory: `food_cache` as a map from key to row, `uploads` and
 * `meal_items` as sequences in rowid order.
 */
module Database {
  import opened Wrappers
  import opened PyStr
  import opened Meals

  // ---------------------------------------------------------------------------
  // normalize_food_name
  // ---------------------------------------------------------------------------

  /** A character that can appear in a key: not a blank, not a hyphen, not an upper-case letter. */
  predicate KeyChar(c: char) {
    c != ' ' && c != '-' && !IsAsciiUpper(c)
  }

  predicate AllKeyChars(s: string) {
    forall i :: 0 <= i < |s| ==> KeyChar(s[i])
  }

  /** What a key looks like: lower case, no blank or hyphen, no `__`, no `_` at either end. */
  predicate KeyShaped(k: string) {
    && AllKeyChars(k)
    && NoDoubled(k, '_')
    && (|k| > 0 ==> k[0] != '_' && k[|k| - 1] != '_')
  }

  predicate IsKey(k: string) {
    |k| > 0 && KeyShaped(k)
  }

  /** `strip().lower().replace(" ", "_").replace("-", "_")` */
  function Separated(s: string): (r: string)
    ensures AllKeyChars(r)
  {
    Replace(Replace(Lower(Strip(s)), ' ', '_'), '-', '_')
  }

  lemma {:induction false} CollapseKeepsKeyChars(s: string)
    requires AllKeyChars(s)
    ensures AllKeyChars(CollapseRuns(s, '_'))
  {
    if |s| > 0 {
      CollapseKeepsKeyChars(s[1..]);
    }
  }

  lemma SliceKeepsShape(c: string, lo: int, hi: int)
    requires 0 <= lo <= hi <= |c|
    requires AllKeyChars(c) && NoDoubled(c, '_')
    ensures AllKeyChars(c[lo..hi]) && NoDoubled(c[lo..hi], '_')
  {
    var e := c[lo..hi];
    forall i, j | 0 <= i < |e| && j == i + 1 && j < |e| ensures !(e[i] == '_' && e[j] == '_') {
      assert e[i] == c[lo + i] && e[j] == c[lo + j];
    }
  }

  /** `strip("_")` of a string with key characters and no `__` is key-shaped. */
  lemma StripUnderscoresShaped(c: string)
    requires AllKeyChars(c) && NoDoubled(c, '_')
    ensures KeyShaped(StripUnderscores(c))
  {
    var d := TrimLeft(c, IsUnderscore);
    SliceKeepsShape(c, |c| - |d|, |c|);
    var e := TrimRight(d, IsUnderscore);
    assert e == d[0..|e|];
    SliceKeepsShape(d, 0, |e|);
    if |e| > 0 {
      assert e[0] == d[0];
      assert e[|e| - 1] != '_';
    }
    assert e == StripUnderscores(c);
  }

  /** The chain above followed by `re.sub(r"_+", "_", s).strip("_")`. */
  function KeyChain(s: string): string {
    StripUnderscores(CollapseRuns(Separated(s), '_'))
  }

  lemma KeyChainShaped(s: string)
    ensures KeyShaped(KeyChain(s))
  {
    CollapseKeepsKeyChars(Separated(s));
    StripUnderscoresShaped(CollapseRuns(Separated(s), '_'));
  }

  lemma UnknownIsKey()
    ensures IsKey("unknown")
  {
    var u := "unknown";
    assert forall i :: 0 <= i < |u| ==> 'a' <= u[i] <= 'z';
  }

  /**
   * normalize_food_name: `""` for `None` (or any non-string) and for `""`;
   * otherwise the key chain, or `"unknown"` when nothing survives it.
   */
  function NormalizeFoodName(text: Option<string>): (r: string)
    ensures r == "" <==> text.None? || text.value == ""
  {
    if text.None? || text.value == "" then ""
    else
      var k := KeyChain(text.value);
      if k == "" then "unknown" else k
  }

  /** Every non-empty result is a key: lower case, no blank or hyphen, no `__`, no `_` at either end. */
  lemma NormalizeFoodNameIsKey(text: Option<string>)
    ensures NormalizeFoodName(text) != "" ==> IsKey(NormalizeFoodName(text))
  {
    if text.Some? && text.value != "" {
      var k := KeyChain(text.value);
      KeyChainShaped(text.value);
      if k == "" {
        UnknownIsKey();
      }
    }
  }

  /** A string of key characters without whitespace at its ends passes the first steps unchanged. */
  lemma SeparatedNoop(k: string)
    requires AllKeyChars(k) && Stripped(k)
    ensures Separated(k) == k
  {
    StripNoop(k);
    assert Lower(k) == k;
    assert Replace(k, ' ', '_') == k;
    assert Replace(k, '-', '_') == k;
  }

  /** A key without whitespace at its ends is its own normal form. */
  lemma NormalizeKey(k: string)
    requires IsKey(k) && Stripped(k)
    ensures NormalizeFoodName(Some(k)) == k
  {
    SeparatedNoop(k);
    CollapseNoop(k, '_');
    assert TrimLeft(k, IsUnderscore) == k;
    assert StripUnderscores(k) == k;
    assert KeyChain(k) == k;
  }

  /**
   * Re-normalising a normalised name returns it unchanged, provided the name
   * does not start or end with whitespace (`strip()` runs before `strip("_")`).
   */
  lemma NormalizeIdempotent(text: Option<string>)
    requires Stripped(NormalizeFoodName(text))
    ensures NormalizeFoodName(Some(NormalizeFoodName(text))) == NormalizeFoodName(text)
  {
    var k := NormalizeFoodName(text);
    if k != "" {
      NormalizeFoodNameIsKey(text);
      NormalizeKey(k);
    }
  }

  /** Blanks, hyphens and underscores all become underscores. */
  lemma SeparatorsBecomeUnderscores(s: string)
    requires forall i :: 0 <= i < |s| ==> s[i] == ' ' || s[i] == '-' || s[i] == '_'
    ensures forall i :: 0 <= i < |Separated(s)| ==> Separated(s)[i] == '_'
  {
    StripChars(s);
    var t := Strip(s);
    forall i | 0 <= i < |t| ensures t[i] == ' ' || t[i] == '-' || t[i] == '_' {
      var j :| 0 <= j < |s| && s[j] == t[i];
    }
  }

  lemma {:induction false} CollapseKeepsAll(s: string, c: char)
    requires forall i :: 0 <= i < |s| ==> s[i] == c
    ensures forall i :: 0 <= i < |CollapseRuns(s, c)| ==> CollapseRuns(s, c)[i] == c
  {
    if |s| > 0 {
      assert forall i :: 0 <= i < |s| - 1 ==> s[1..][i] == s[i + 1];
      CollapseKeepsAll(s[1..], c);
    }
  }

  /** A name made only of blanks, hyphens and underscores normalises to `"unknown"`. */
  lemma SeparatorsOnlyIsUnknown(s: string)
    requires |s| > 0
    requires forall i :: 0 <= i < |s| ==> s[i] == ' ' || s[i] == '-' || s[i] == '_'
    ensures NormalizeFoodName(Some(s)) == "unknown"
  {
    SeparatorsBecomeUnderscores(s);
    var b := Separated(s);
    CollapseKeepsAll(b, '_');
    TrimLeftAll(CollapseRuns(b, '_'), IsUnderscore);
  }

  // ---------------------------------------------------------------------------
  // Table rows
  // ---------------------------------------------------------------------------

  /** A `food_cache` row without its key and timestamp: values per `base_unit`. */
  datatype CacheRow = CacheRow(correctedLabel: string, per100: Macros, baseUnit: string)

  /** An `uploads` row; `created_at` is not modelled (rows are kept in insertion order). */
  datatype Upload = Upload(
    id: int,
    imagePath: Option<string>,
    originalLabel: Option<string>,
    correctedLabel: Option<string>,
    totals: Macros,
    rawResponse: Option<string>)

  /** A `meal_items` row. */
  datatype MealItemRow = MealItemRow(mealId: int, item: Item)

  /** An item dictionary as callers pass it, where any key may be missing. */
  datatype MacroFields = MacroFields(calories: Option<real>, protein: Option<real>, carbs: Option<real>, fat: Option<real>)
  datatype ItemFields = ItemFields(name: Option<string>, quantity: Option<real>, macros: Option<MacroFields>)

  /** One entry of `get_history`. */
  datatype HistoryEntry = HistoryEntry(
    mealId: int,
    imagePath: Option<string>,
    originalLabel: Option<string>,
    correctedLabel: Option<string>,
    totals: Macros,
    items: seq<Item>)

  function GetOr<T>(o: Option<T>, default: T): T {
    if o.Some? then o.value else default
  }

  /** Python truthiness of an optional string: present and non-empty. */
  predicate Truthy(o: Option<string>) {
    o.Some? && o.value != ""
  }

  /** The row written for one item dictionary: `it.get(k, default)` for every column. */
  function RowItem(it: ItemFields): (r: Item)
    ensures it.name == None ==> r.name == ""
    ensures it.quantity == None ==> r.quantity == 1.0
    ensures it.macros == None ==> r.macros == Zero
    ensures it.name.Some? ==> r.name == it.name.value
    ensures it.quantity.Some? ==> r.quantity == it.quantity.value
    ensures it.macros.Some? ==>
      var m := it.macros.value;
      && r.macros.calories == (if m.calories.Some? then m.calories.value else 0.0)
      && r.macros.protein == (if m.protein.Some? then m.protein.value else 0.0)
      && r.macros.carbs == (if m.carbs.Some? then m.carbs.value else 0.0)
      && r.macros.fat == (if m.fat.Some? then m.fat.value else 0.0)
  {
    var m := GetOr(it.macros, MacroFields(None, None, None, None));
    Item(GetOr(it.name, ""), GetOr(it.quantity, 1.0),
         Macros(GetOr(m.calories, 0.0), GetOr(m.protein, 0.0), GetOr(m.carbs, 0.0), GetOr(m.fat, 0.0)))
  }

  /** The complete dictionary `{"name", "quantity", "macros"}` that the pipeline builds for an item. */
  function Fields(item: Item): (r: ItemFields)
    ensures RowItem(r) == item
  {
    var m := item.macros;
    ItemFields(Some(item.name), Some(item.quantity),
               Some(MacroFields(Some(m.calories), Some(m.protein), Some(m.carbs), Some(m.fat))))
  }

  function RowItems(items: seq<ItemFields>): (r: seq<Item>)
    ensures |r| == |items| && forall i :: 0 <= i < |items| ==> r[i] == RowItem(items[i])
  {
    seq(|items|, i requires 0 <= i < |items| => RowItem(items[i]))
  }

  function AllFields(items: seq<Item>): (r: seq<ItemFields>)
    ensures |r| == |items| && forall i :: 0 <= i < |items| ==> r[i] == Fields(items[i])
  {
    seq(|items|, i requires 0 <= i < |items| => Fields(items[i]))
  }

  lemma RowItemsSnoc(items: seq<ItemFields>)
    requires |items| > 0
    ensures RowItems(items) == RowItems(items[..|items| - 1]) + [RowItem(items[|items| - 1])]
  {
  }

  /** Storing complete dictionaries and reading them back gives the items unchanged. */
  lemma RowItemsOfFields(items: seq<Item>)
    ensures RowItems(AllFields(items)) == items
  {
  }

  // ---------------------------------------------------------------------------
  // meal_items as a sequence
  // ---------------------------------------------------------------------------

  /** `SELECT ... FROM meal_items WHERE meal_id = ? ORDER BY id` */
  function ItemsOf(rows: seq<MealItemRow>, mealId: int): seq<Item> {
    if |rows| == 0 then []
    else (if rows[0].mealId == mealId then [rows[0].item] else []) + ItemsOf(rows[1..], mealId)
  }

  /** `DELETE FROM meal_items WHERE meal_id = ?` */
  function WithoutMeal(rows: seq<MealItemRow>, mealId: int): seq<MealItemRow> {
    if |rows| == 0 then []
    else (if rows[0].mealId == mealId then [] else [rows[0]]) + WithoutMeal(rows[1..], mealId)
  }

  /** The rows that the insert loop adds for `items`, in order. */
  function ItemRows(mealId: int, items: seq<ItemFields>): seq<MealItemRow> {
    if |items| == 0 then []
    else ItemRows(mealId, items[..|items| - 1]) + [MealItemRow(mealId, RowItem(items[|items| - 1]))]
  }

  lemma {:induction false} ItemsOfAppend(a: seq<MealItemRow>, b: seq<MealItemRow>, mealId: int)
    ensures ItemsOf(a + b, mealId) == ItemsOf(a, mealId) + ItemsOf(b, mealId)
  {
    if |a| > 0 {
      assert (a + b)[1..] == a[1..] + b;
      ItemsOfAppend(a[1..], b, mealId);
    } else {
      assert a + b == b;
    }
  }

  /** Deleting one meal's rows empties its item list and leaves every other meal's list alone. */
  lemma {:induction false} ItemsOfWithoutMeal(rows: seq<MealItemRow>, deleted: int, mealId: int)
    ensures ItemsOf(WithoutMeal(rows, deleted), mealId) == if mealId == deleted then [] else ItemsOf(rows, mealId)
  {
    if |rows| > 0 {
      ItemsOfWithoutMeal(rows[1..], deleted, mealId);
      var head := if rows[0].mealId == deleted then [] else [rows[0]];
      ItemsOfAppend(head, WithoutMeal(rows[1..], deleted), mealId);
      if head != [] {
        assert head[1..] == [];
      }
    }
  }

  /** The inserted rows belong to `mealId` alone and hold the items in order. */
  lemma {:induction false} ItemsOfItemRows(owner: int, items: seq<ItemFields>, mealId: int)
    ensures ItemsOf(ItemRows(owner, items), mealId) == if mealId == owner then RowItems(items) else []
    decreases |items|
  {
    if |items| > 0 {
      var init := items[..|items| - 1];
      var row := MealItemRow(owner, RowItem(items[|items| - 1]));
      ItemsOfItemRows(owner, init, mealId);
      ItemsOfAppend(ItemRows(owner, init), [row], mealId);
      assert [row][1..] == [];
      RowItemsSnoc(items);
    }
  }

  // ---------------------------------------------------------------------------
  // uploads as a sequence
  // ---------------------------------------------------------------------------

  /** AUTOINCREMENT ids: strictly increasing in rowid order. */
  predicate IdsIncreasing(ups: seq<Upload>) {
    forall i, j :: 0 <= i < j < |ups| ==> ups[i].id < ups[j].id
  }

  /** `SELECT ... FROM uploads WHERE id = ?` followed by `fetchone()`. */
  function FindUpload(ups: seq<Upload>, id: int): (r: Option<Upload>)
    ensures r.Some? <==> exists i :: 0 <= i < |ups| && ups[i].id == id
    ensures r.Some? ==> r.value in ups && r.value.id == id
  {
    if |ups| == 0 then None
    else if ups[0].id == id then Some(ups[0])
    else
      var r := FindUpload(ups[1..], id);
      assert forall i :: 1 <= i < |ups| ==> ups[i] == ups[1..][i - 1];
      r
  }

  /** A row appended under a fresh id is the one that lookup finds. */
  lemma {:induction false} FindUploadAppended(ups: seq<Upload>, row: Upload)
    requires forall i :: 0 <= i < |ups| ==> ups[i].id != row.id
    ensures FindUpload(ups + [row], row.id) == Some(row)
  {
    if |ups| > 0 {
      assert (ups + [row])[1..] == ups[1..] + [row];
      FindUploadAppended(ups[1..], row);
    } else {
      assert ups + [row] == [row];
    }
  }

  /** `UPDATE uploads SET corrected_label = ?, calories = ?, ... WHERE id = ?` */
  function SetCorrection(ups: seq<Upload>, id: int, newLabel: string, totals: Macros): (r: seq<Upload>)
    ensures |r| == |ups| && forall i :: 0 <= i < |ups| ==> r[i].id == ups[i].id
    ensures forall i :: 0 <= i < |ups| ==> r[i] == if ups[i].id == id then ups[i].(correctedLabel := Some(newLabel), totals := totals) else ups[i]
  {
    seq(|ups|, i requires 0 <= i < |ups| =>
      if ups[i].id == id then ups[i].(correctedLabel := Some(newLabel), totals := totals) else ups[i])
  }

  /** `DELETE FROM uploads WHERE id = ?` */
  function WithoutUpload(ups: seq<Upload>, id: int): (r: seq<Upload>)
    ensures forall u :: u in r <==> u in ups && u.id != id
  {
    if |ups| == 0 then []
    else
      var rest := WithoutUpload(ups[1..], id);
      assert ups == [ups[0]] + ups[1..];
      if ups[0].id == id then rest else [ups[0]] + rest
  }

  /** A row whose id is below every id of increasing rows can go in front of them. */
  lemma IncreasingCons(x: Upload, rest: seq<Upload>)
    requires IdsIncreasing(rest)
    requires forall u :: u in rest ==> x.id < u.id
    ensures IdsIncreasing([x] + rest)
  {
    var r := [x] + rest;
    forall i, j | 0 <= i < j < |r| ensures r[i].id < r[j].id {
      assert r[j] == rest[j - 1] && rest[j - 1] in rest;
      if i > 0 {
        assert r[i] == rest[i - 1];
      }
    }
  }

  /** Deleting rows keeps the remaining ids increasing. */
  lemma {:induction false} WithoutUploadIncreasing(ups: seq<Upload>, id: int)
    requires IdsIncreasing(ups)
    ensures IdsIncreasing(WithoutUpload(ups, id))
  {
    if |ups| > 0 {
      var tail := ups[1..];
      assert IdsIncreasing(tail) by {
        forall i, j | 0 <= i < j < |tail| ensures tail[i].id < tail[j].id {
          assert tail[i] == ups[i + 1] && tail[j] == ups[j + 1];
        }
      }
      WithoutUploadIncreasing(tail, id);
      var rest := WithoutUpload(tail, id);
      forall u | u in rest ensures ups[0].id < u.id {
        var j :| 0 <= j < |tail| && tail[j] == u;
        assert ups[j + 1] == u;
      }
      if ups[0].id != id {
        IncreasingCons(ups[0], rest);
      }
    }
  }


  /** `[row["image_path"] for row in rows if row["image_path"]]` */
  function ImagePaths(ups: seq<Upload>): (r: seq<string>)
    ensures forall p :: p in r ==> p != ""
    ensures forall i :: 0 <= i < |ups| && Truthy(ups[i].imagePath) ==> ups[i].imagePath.value in r
    ensures forall p :: p in r ==> exists i :: 0 <= i < |ups| && Truthy(ups[i].imagePath) && ups[i].imagePath.value == p
  {
    if |ups| == 0 then []
    else
      var rest := ImagePaths(ups[1..]);
      assert forall i :: 1 <= i < |ups| ==> ups[i] == ups[1..][i - 1];
      (if Truthy(ups[0].imagePath) then [ups[0].imagePath.value] else []) + rest
  }

  /** The paths keep the rows' order: those of `a` come before those of `b`. */
  lemma {:induction false} ImagePathsAppend(a: seq<Upload>, b: seq<Upload>)
    ensures ImagePaths(a + b) == ImagePaths(a) + ImagePaths(b)
  {
    if |a| > 0 {
      assert (a + b)[1..] == a[1..] + b;
      ImagePathsAppend(a[1..], b);
    } else {
      assert a + b == b;
    }
  }

  function Reversed<T>(s: seq<T>): (r: seq<T>)
    ensures |r| == |s| && forall i :: 0 <= i < |s| ==> r[i] == s[|s| - 1 - i]
  {
    seq(|s|, i requires 0 <= i < |s| => s[|s| - 1 - i])
  }

  /** `ORDER BY created_at DESC LIMIT ?`: newest first; SQLite treats a negative limit as no limit. */
  function HistoryRows(ups: seq<Upload>, limit: int): (r: seq<Upload>)
    ensures limit >= 0 ==> |r| <= limit
    ensures |r| == (if 0 <= limit < |ups| then limit else |ups|)
    ensures forall i :: 0 <= i < |r| ==> r[i] == ups[|ups| - 1 - i]
  {
    var newest := Reversed(ups);
    if 0 <= limit < |ups| then newest[..limit] else newest
  }

  // ---------------------------------------------------------------------------
  // The store
  // ---------------------------------------------------------------------------

  /** The ids are increasing and all below the next one, which is at least 1. */
  ghost predicate ValidStore(ups: seq<Upload>, next: int) {
    && 1 <= next
    && IdsIncreasing(ups)
    && forall i :: 0 <= i < |ups| ==> ups[i].id < next
  }

  class Database {
    var foodCache: map<string, CacheRow>
    var uploads: seq<Upload>
    var mealItems: seq<MealItemRow>
    /** The AUTOINCREMENT counter of `uploads`; deleting rows never lowers it. */
    var nextUploadId: int

    ghost predicate Valid()
      reads this`uploads, this`nextUploadId
    {
      ValidStore(uploads, nextUploadId)
    }

    /** init_db on a fresh file: three empty tables. */
    constructor ()
      ensures Valid()
      ensures foodCache == map[] && uploads == [] && mealItems == [] && nextUploadId == 1
    {
      foodCache := map[];
      uploads := [];
      mealItems := [];
      nextUploadId := 1;
    }

    /** get_food_from_cache */
    function GetFoodFromCache(name: string): Option<CacheRow>
      reads this
    {
      if name in foodCache then Some(foodCache[name]) else None
    }

    /** insert_food_cache: an upsert on the key. */
    method InsertFoodCache(name: string, correctedLabel: string, per100: Macros, baseUnit: string)
      modifies this`foodCache
      ensures foodCache == old(foodCache)[name := CacheRow(correctedLabel, per100, baseUnit)]
      ensures GetFoodFromCache(name) == Some(CacheRow(correctedLabel, per100, baseUnit))
      ensures forall k :: k != name ==> GetFoodFromCache(k) == old(GetFoodFromCache(k))
    {
      foodCache := foodCache[name := CacheRow(correctedLabel, per100, baseUnit)];
    }

    /** insert_upload: appends a row under the next id and returns that id. */
    method InsertUpload(imagePath: Option<string>, originalLabel: Option<string>, correctedLabel: Option<string>,
                        totals: Macros, rawResponse: Option<string>) returns (mealId: int)
      requires Valid()
      modifies this`uploads, this`nextUploadId
      ensures Valid()
      ensures mealId == old(nextUploadId) && nextUploadId == mealId + 1
      ensures uploads == old(uploads) + [Upload(mealId, imagePath, originalLabel, correctedLabel, totals, rawResponse)]
      ensures FindUpload(uploads, mealId) == Some(Upload(mealId, imagePath, originalLabel, correctedLabel, totals, rawResponse))
    {
      mealId := nextUploadId;
      var row := Upload(mealId, imagePath, originalLabel, correctedLabel, totals, rawResponse);
      FindUploadAppended(uploads, row);
      uploads := uploads + [row];
      nextUploadId := nextUploadId + 1;
    }

    /** get_meal: the `{"id": ...}` of the row, if there is one. */
    function GetMeal(mealId: int): (r: Option<int>)
      reads this
      ensures r.Some? <==> exists i :: 0 <= i < |uploads| && uploads[i].id == mealId
      ensures r.Some? ==> r.value == mealId
    {
      match FindUpload(uploads, mealId)
      case Some(u) => Some(u.id)
      case None => None
    }

    /** get_meal_items: the meal's items in insertion order. */
    function GetMealItems(mealId: int): seq<Item>
      reads this
    {
      ItemsOf(mealItems, mealId)
    }

    /**
     * update_meal_correction: sets the meal's label and totals, deletes its items
     * and inserts `items` in order; the row update is a no-op for an unknown id,
     * but the item rows are still written.
     */
    method UpdateMealCorrection(mealId: int, correctedLabel: string, totals: Macros, items: seq<ItemFields>)
      requires Valid()
      modifies this`uploads, this`mealItems
      ensures Valid()
      ensures uploads == SetCorrection(old(uploads), mealId, correctedLabel, totals)
      ensures mealItems == WithoutMeal(old(mealItems), mealId) + ItemRows(mealId, items)
      ensures GetMealItems(mealId) == RowItems(items)
      ensures forall m :: m != mealId ==> GetMealItems(m) == old(GetMealItems(m))
    {
      uploads := SetCorrection(uploads, mealId, correctedLabel, totals);
      var kept := WithoutMeal(mealItems, mealId);
      mealItems := kept;
      for i := 0 to |items|
        invariant uploads == SetCorrection(old(uploads), mealId, correctedLabel, totals)
        invariant mealItems == kept + ItemRows(mealId, items[..i])
      {
        assert items[..i + 1][..i] == items[..i];
        mealItems := mealItems + [MealItemRow(mealId, RowItem(items[i]))];
      }
      assert items[..|items|] == items;
      forall m
        ensures GetMealItems(m) == if m == mealId then RowItems(items) else old(GetMealItems(m))
      {
        ItemsOfAppend(kept, ItemRows(mealId, items), m);
        ItemsOfWithoutMeal(old(mealItems), mealId, m);
        ItemsOfItemRows(mealId, items, m);
      }
    }

    /** insert_meal_items: nothing for an empty list, otherwise one row per item, in order. */
    method InsertMealItems(mealId: int, items: seq<ItemFields>)
      modifies this`mealItems
      ensures mealItems == old(mealItems) + ItemRows(mealId, items)
      ensures items == [] ==> mealItems == old(mealItems)
      ensures GetMealItems(mealId) == old(GetMealItems(mealId)) + RowItems(items)
      ensures forall m :: m != mealId ==> GetMealItems(m) == old(GetMealItems(m))
    {
      if |items| == 0 {
        return;
      }
      var before := mealItems;
      for i := 0 to |items|
        invariant mealItems == before + ItemRows(mealId, items[..i])
      {
        assert items[..i + 1][..i] == items[..i];
        mealItems := mealItems + [MealItemRow(mealId, RowItem(items[i]))];
      }
      assert items[..|items|] == items;
      forall m
        ensures GetMealItems(m) == ItemsOf(before, m) + (if m == mealId then RowItems(items) else [])
      {
        ItemsOfAppend(before, ItemRows(mealId, items), m);
        ItemsOfItemRows(mealId, items, m);
      }
    }

    /** get_history: at most `limit` meals (all of them for a negative limit), newest first, each with its items. */
    method GetHistory(limit: int) returns (out: seq<HistoryEntry>)
      requires Valid()
      ensures limit >= 0 ==> |out| <= limit
      ensures |out| == (if 0 <= limit < |uploads| then limit else |uploads|)
      ensures forall i :: 0 <= i < |out| ==>
        var u := uploads[|uploads| - 1 - i];
        out[i] == HistoryEntry(u.id, u.imagePath, u.originalLabel, u.correctedLabel, u.totals, ItemsOf(mealItems, u.id))
      ensures forall i, j :: 0 <= i < j < |out| ==> out[j].mealId < out[i].mealId
    {
      var rows := HistoryRows(uploads, limit);
      out := [];
      for i := 0 to |rows|
        invariant |out| == i
        invariant forall k :: 0 <= k < i ==>
          out[k] == HistoryEntry(rows[k].id, rows[k].imagePath, rows[k].originalLabel, rows[k].correctedLabel,
                                 rows[k].totals, ItemsOf(mealItems, rows[k].id))
      {
        var row := rows[i];
        var items := GetMealItems(row.id);
        out := out + [HistoryEntry(row.id, row.imagePath, row.originalLabel, row.correctedLabel, row.totals, items)];
      }
    }

    /** delete_meal: removes the meal and its items; returns its image path if it has a non-empty one. */
    method DeleteMeal(mealId: int) returns (imagePaths: seq<string>)
      requires Valid()
      modifies this`uploads, this`mealItems
      ensures Valid()
      ensures |imagePaths| <= 1
      ensures imagePaths == match FindUpload(old(uploads), mealId)
                            case Some(u) => if Truthy(u.imagePath) then [u.imagePath.value] else []
                            case None => []
      ensures uploads == WithoutUpload(old(uploads), mealId)
      ensures mealItems == WithoutMeal(old(mealItems), mealId)
      ensures GetMeal(mealId) == None && GetMealItems(mealId) == []
      ensures forall m :: m != mealId ==> GetMealItems(m) == old(GetMealItems(m))
    {
      imagePaths := [];
      var row := FindUpload(uploads, mealId);
      if row.Some? && Truthy(row.value.imagePath) {
        imagePaths := imagePaths + [row.value.imagePath.value];
      }
      ghost var before := mealItems;
      mealItems := WithoutMeal(mealItems, mealId);
      WithoutUploadIncreasing(uploads, mealId);
      uploads := WithoutUpload(uploads, mealId);
      forall m ensures GetMealItems(m) == if m == mealId then [] else ItemsOf(before, m) {
        ItemsOfWithoutMeal(before, mealId, m);
      }
      forall i | 0 <= i < |uploads| ensures uploads[i].id < nextUploadId && uploads[i].id != mealId {
        assert uploads[i] in old(uploads);
      }
    }

    /** clear_history: empties uploads and meal_items and returns every non-empty image path. */
    method ClearHistory() returns (imagePaths: seq<string>)
      requires Valid()
      modifies this`uploads, this`mealItems
      ensures Valid()
      ensures imagePaths == ImagePaths(old(uploads))
      ensures uploads == [] && mealItems == []
    {
      imagePaths := ImagePaths(uploads);
      mealItems := [];
      uploads := [];
    }
  }
}
