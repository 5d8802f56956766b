/**
 * The recognition rules of backend/pipeline.py: the non-food trapdoor, the USDA
 * query with its last-word fallback, the cache-then-fetch lookup, the fast scan
 * and the deep scan with its first-occurrence dedupe. The vision classifier, the
 * segmentation service and the USDA search are oracles passed in as functions.
 */
module Pipeline {
  import opened Wrappers
  import opened PyStr
  import opened Meals
  import opened Database

  // ---------------------------------------------------------------------------
  // Oracles
  // ---------------------------------------------------------------------------

  /** Which configured vision model is asked: the fast-scan or the deep-scan one. */
  datatype ScanModel = FastModel | DeepModel

  /**
   * get_food_label_from_image: the text the model replied with (`"NON_FOOD"` on
   * any request failure or missing key), or the failure to read the image file,
   * which happens before the guarded request and so propagates.
   */
  datatype ClassifierReply = Label(text: string) | ReadFailed(message: string)

  /** segment_image_via_hf: the annotated image and the crops, or SegmentServiceUnavailable. */
  datatype Segmentation = SegmentUnavailable | Segmented(annotatedPath: string, cropPaths: seq<string>)

  /** _query_usda: the description, the four per-100 g values and the raw response text. */
  datatype UsdaAnswer = UsdaAnswer(corrected: string, per100: Macros, raw: string)

  /**
   * The outside world of a run. `copyAnnotated` is where `shutil.copy2` puts the
   * annotated image in the upload directory (its name carries a random suffix).
   */
  datatype Oracles = Oracles(
    classify: (ScanModel, string) -> ClassifierReply,
    segment: string -> Segmentation,
    usda: string -> UsdaAnswer,
    copyAnnotated: string -> string)

  // ---------------------------------------------------------------------------
  // Non-food trapdoor
  // ---------------------------------------------------------------------------

  const BaseUnit := "100g"

  const NonFoodBlocklist: set<string> := {
    "plate", "plates", "non_food", "table", "cutlery", "fork", "knife", "spoon",
    "napkin", "container", "bowl", "cup", "glass", "unknown"
  }

  /** _titanium_trapdoor: the label's key is empty or names a non-food object. */
  predicate TitaniumTrapdoor(food: string) {
    var key := NormalizeFoodName(Some(food));
    key == "" || key in NonFoodBlocklist
  }

  /** The key get_macros_for_food files a label under: its normal form, `"unknown"` when that is empty. */
  function FoodKey(food: string): (r: string)
    ensures r != ""
    ensures food == "" ==> r == "unknown"
    ensures NormalizeFoodName(Some(food)) != "" ==> r == NormalizeFoodName(Some(food))
  {
    var key := NormalizeFoodName(Some(food));
    if key == "" then "unknown" else key
  }

  /** Every lookup key has the key shape. */
  lemma FoodKeyIsKey(food: string)
    ensures IsKey(FoodKey(food))
  {
    NormalizeFoodNameIsKey(Some(food));
    if NormalizeFoodName(Some(food)) == "" {
      UnknownIsKey();
    }
  }

  /** The trapdoor fires exactly when the lookup key is a blocklisted word (an empty key becomes `"unknown"`). */
  lemma TrapdoorIffBlockedKey(food: string)
    ensures TitaniumTrapdoor(food) <==> FoodKey(food) in NonFoodBlocklist
  {
    if NormalizeFoodName(Some(food)) == "" {
      assert FoodKey(food) == "unknown";
    }
  }

  /** A label made only of blanks, hyphens and underscores is treated as non-food. */
  lemma {:induction false} TrapdoorOnSeparators(food: string)
    requires forall i :: 0 <= i < |food| ==> food[i] == ' ' || food[i] == '-' || food[i] == '_'
    ensures TitaniumTrapdoor(food)
  {
    if food != "" {
      SeparatorsOnlyIsUnknown(food);
    }
  }

  // ---------------------------------------------------------------------------
  // USDA lookup with the last-word fallback
  // ---------------------------------------------------------------------------

  /** `label.replace("_", " ").strip() or label` */
  function HumanLabel(food: string): (r: string)
    ensures r == "" ==> food == ""
  {
    var h := Strip(Replace(food, '_', ' '));
    if h == "" then food else h
  }

  /** The second query: the last whitespace-separated word, when there is more than one word. */
  function FallbackQuery(human: string): (r: Option<string>)
    ensures r.Some? ==> IsWord(r.value)
  {
    var parts := Words(human);
    if |parts| > 1 then Some(parts[|parts| - 1]) else None
  }

  /** The seven-tuple of _fetch_macros_from_usda. */
  datatype Fetched = Fetched(corrected: string, per100: Macros, raw: string, incomplete: bool)

  /**
   * _fetch_macros_from_usda: the first answer unless it is all zero, there is a
   * second word to try and that second answer has a non-zero value; incomplete
   * exactly when the values kept are all zero.
   */
  function FetchMacrosFromUsda(food: string, usda: string -> UsdaAnswer): (r: Fetched)
    ensures r.incomplete <==> IsZero(r.per100)
    ensures var first := usda(HumanLabel(food));
      !IsZero(first.per100) ==> r == Fetched(first.corrected, first.per100, first.raw, false)
    ensures var first := usda(HumanLabel(food)); var q := FallbackQuery(HumanLabel(food));
      IsZero(first.per100) && q.Some? && !IsZero(usda(q.value).per100) ==>
        r == Fetched(usda(q.value).corrected, usda(q.value).per100, usda(q.value).raw, false)
    ensures var first := usda(HumanLabel(food)); var q := FallbackQuery(HumanLabel(food));
      !(IsZero(first.per100) && q.Some? && !IsZero(usda(q.value).per100)) ==>
        r == Fetched(first.corrected, first.per100, first.raw, IsZero(first.per100))
  {
    var human := HumanLabel(food);
    var first := usda(human);
    var kept :=
      if IsZero(first.per100) then
        match FallbackQuery(human)
        case Some(simple) => if !IsZero(usda(simple).per100) then usda(simple) else first
        case None => first
      else first;
    Fetched(kept.corrected, kept.per100, kept.raw, IsZero(kept.per100))
  }

  /** Incomplete iff the first answer is all zero and the fallback is absent or all zero too. */
  lemma FetchIncompleteIff(food: string, usda: string -> UsdaAnswer)
    ensures var human := HumanLabel(food);
      FetchMacrosFromUsda(food, usda).incomplete <==>
        IsZero(usda(human).per100) &&
        (FallbackQuery(human) == None || IsZero(usda(FallbackQuery(human).value).per100))
  {
  }

  // ---------------------------------------------------------------------------
  // get_macros_for_food
  // ---------------------------------------------------------------------------

  /** The item dictionary of get_macros_for_food with its `raw_response` and `macros_incomplete`. */
  datatype Looked = Looked(item: Item, raw: string, incomplete: bool)

  /**
   * The answer of get_macros_for_food given the cache it starts from: from the
   * cached row on a hit, from a fresh USDA fetch on a miss; per-100 g values
   * scaled by the quantity, under the label's key.
   */
  function LookupFood(cache: map<string, CacheRow>, food: string, quantity: real, usda: string -> UsdaAnswer): (r: Looked)
    ensures r.item.name == FoodKey(food) && r.item.quantity == quantity
    ensures FoodKey(food) in cache ==>
      r.item.macros == Scale(cache[FoodKey(food)].per100, quantity) && r.raw == "" && !r.incomplete
    ensures FoodKey(food) !in cache ==>
      var f := FetchMacrosFromUsda(food, usda);
      r.item.macros == Scale(f.per100, quantity) && r.raw == f.raw && r.incomplete == f.incomplete
  {
    var key := FoodKey(food);
    if key in cache then
      Looked(Item(key, quantity, Scale(cache[key].per100, quantity)), "", false)
    else
      var f := FetchMacrosFromUsda(food, usda);
      Looked(Item(key, quantity, Scale(f.per100, quantity)), f.raw, f.incomplete)
  }

  /** The cache after get_macros_for_food: unchanged on a hit, the fetched row (even an all-zero one) added on a miss. */
  function CacheAfter(cache: map<string, CacheRow>, food: string, usda: string -> UsdaAnswer): (r: map<string, CacheRow>)
    ensures FoodKey(food) in r
    ensures FoodKey(food) in cache ==> r == cache
    ensures FoodKey(food) !in cache ==>
      var f := FetchMacrosFromUsda(food, usda);
      r[FoodKey(food)] == CacheRow(f.corrected, f.per100, BaseUnit)
  {
    var key := FoodKey(food);
    if key in cache then cache
    else
      var f := FetchMacrosFromUsda(food, usda);
      cache[key := CacheRow(f.corrected, f.per100, BaseUnit)]
  }

  /** Writing a row under a new key keeps every other row and adds only that key. */
  lemma PutKeeps(cache: map<string, CacheRow>, key: string, row: CacheRow)
    requires key !in cache
    ensures var r := cache[key := row];
      (forall k :: k in cache ==> k in r && r[k] == cache[k]) && r.Keys == cache.Keys + {key}
  {
  }

  /** get_macros_for_food never changes or drops a cached row; it adds at most the label's key. */
  lemma CacheAfterKeeps(cache: map<string, CacheRow>, food: string, usda: string -> UsdaAnswer)
    ensures var r := CacheAfter(cache, food, usda);
      (forall k :: k in cache ==> k in r && r[k] == cache[k]) && r.Keys <= cache.Keys + {FoodKey(food)}
  {
    var key := FoodKey(food);
    if key !in cache {
      var f := FetchMacrosFromUsda(food, usda);
      PutKeeps(cache, key, CacheRow(f.corrected, f.per100, BaseUnit));
    }
  }

  /**
   * A second lookup of a label with the same key is a cache hit: no fetch, and
   * the same macros as the first lookup.
   */
  lemma SecondLookupHits(cache: map<string, CacheRow>, first: string, second: string, quantity: real, usda: string -> UsdaAnswer)
    requires FoodKey(first) == FoodKey(second)
    ensures var r := LookupFood(CacheAfter(cache, first, usda), second, quantity, usda);
      r.raw == "" && !r.incomplete && r.item == LookupFood(cache, first, quantity, usda).item
  {
  }

  /** get_macros_for_food, reading and writing the store's food cache. */
  method GetMacrosForFood(db: Database, food: string, quantity: real, usda: string -> UsdaAnswer) returns (r: Looked)
    modifies db`foodCache
    ensures r == LookupFood(old(db.foodCache), food, quantity, usda)
    ensures db.foodCache == CacheAfter(old(db.foodCache), food, usda)
  {
    var key := NormalizeFoodName(Some(food));
    if key == "" {
      key := "unknown";
    }
    var cached := db.GetFoodFromCache(key);
    if cached.Some? {
      var c := cached.value;
      return Looked(Item(key, quantity, Scale(c.per100, quantity)), "", false);
    }
    var f := FetchMacrosFromUsda(food, usda);
    db.InsertFoodCache(key, f.corrected, f.per100, BaseUnit);
    r := Looked(Item(key, quantity, Scale(f.per100, quantity)), f.raw, f.incomplete);
  }

  // ---------------------------------------------------------------------------
  // A run of lookups, one per label, in order
  // ---------------------------------------------------------------------------

  /** The items of a lookup loop and the cache it leaves behind. */
  datatype Batch = Batch(items: seq<Item>, cache: map<string, CacheRow>)

  /** The keys of a list of labels. */
  function LabelKeys(labels: seq<string>): set<string> {
    if |labels| == 0 then {} else LabelKeys(labels[..|labels| - 1]) + {FoodKey(labels[|labels| - 1])}
  }

  /**
   * `get_macros_for_food(label, quantity=1.0)` for each label in turn, every call
   * seeing the cache the previous ones left.
   */
  function LookupAll(cache: map<string, CacheRow>, labels: seq<string>, usda: string -> UsdaAnswer): (r: Batch)
    ensures |r.items| == |labels|
    decreases |labels|
  {
    if |labels| == 0 then Batch([], cache)
    else
      var last := labels[|labels| - 1];
      var b := LookupAll(cache, labels[..|labels| - 1], usda);
      Batch(b.items + [LookupFood(b.cache, last, 1.0, usda).item], CacheAfter(b.cache, last, usda))
  }

  /** A run of lookups never changes or drops a cached row, and adds only the labels' keys. */
  lemma {:induction false} LookupAllKeeps(cache: map<string, CacheRow>, labels: seq<string>, usda: string -> UsdaAnswer)
    ensures var r := LookupAll(cache, labels, usda);
      (forall k :: k in cache ==> k in r.cache && r.cache[k] == cache[k]) && r.cache.Keys <= cache.Keys + LabelKeys(labels)
    decreases |labels|
  {
    if |labels| > 0 {
      var init := labels[..|labels| - 1];
      var last := labels[|labels| - 1];
      LookupAllKeeps(cache, init, usda);
      CacheAfterKeeps(LookupAll(cache, init, usda).cache, last, usda);
    }
  }

  /**
   * The item for label `i`: named by the label's key, with quantity 1.0, and
   * carrying the per-100 g row the final cache holds under that key.
   */
  lemma {:induction false} LookupAllAt(cache: map<string, CacheRow>, labels: seq<string>, usda: string -> UsdaAnswer, i: int)
    requires 0 <= i < |labels|
    ensures var r := LookupAll(cache, labels, usda);
      && r.items[i].name == FoodKey(labels[i]) && r.items[i].quantity == 1.0
      && FoodKey(labels[i]) in r.cache && r.items[i].macros == r.cache[FoodKey(labels[i])].per100
    decreases |labels|
  {
    var init := labels[..|labels| - 1];
    var last := labels[|labels| - 1];
    var b := LookupAll(cache, init, usda);
    var one := LookupFood(b.cache, last, 1.0, usda).item;
    var r := LookupAll(cache, labels, usda);
    assert r.items == b.items + [one];
    assert r.cache == CacheAfter(b.cache, last, usda);
    if i < |init| {
      LookupAllAt(cache, init, usda, i);
      assert r.items[i] == b.items[i];
      assert labels[i] == init[i];
      var k := FoodKey(init[i]);
      assert b.items[i].name == k && k in b.cache && b.items[i].macros == b.cache[k].per100;
      CacheAfterKeeps(b.cache, last, usda);
      assert k in r.cache && r.cache[k] == b.cache[k];
    } else {
      assert r.items[i] == one;
      assert i == |labels| - 1;
      assert labels[i] == last;
      LookupStep(b.cache, last, usda);
    }
  }

  /** LookupAllAt for every label at once. */
  lemma LookupAllFacts(cache: map<string, CacheRow>, labels: seq<string>, usda: string -> UsdaAnswer)
    ensures var r := LookupAll(cache, labels, usda);
      forall i :: 0 <= i < |labels| ==>
        && r.items[i].name == FoodKey(labels[i]) && r.items[i].quantity == 1.0
        && FoodKey(labels[i]) in r.cache && r.items[i].macros == r.cache[FoodKey(labels[i])].per100
  {
    forall i | 0 <= i < |labels|
      ensures var r := LookupAll(cache, labels, usda);
        && r.items[i].name == FoodKey(labels[i]) && r.items[i].quantity == 1.0
        && FoodKey(labels[i]) in r.cache && r.items[i].macros == r.cache[FoodKey(labels[i])].per100
    {
      LookupAllAt(cache, labels, usda, i);
    }
  }

  /** One lookup: the item is named by the key, and its macros are the row the cache then holds for it. */
  lemma LookupStep(cache: map<string, CacheRow>, food: string, usda: string -> UsdaAnswer)
    ensures var one := LookupFood(cache, food, 1.0, usda).item;
      var after := CacheAfter(cache, food, usda);
      one.name == FoodKey(food) && one.quantity == 1.0 && one.macros == after[FoodKey(food)].per100
  {
  }

  /** Labels that share a key get the same macros: the later ones are cache hits on the row the first one wrote. */
  lemma LookupAllSameKey(cache: map<string, CacheRow>, labels: seq<string>, usda: string -> UsdaAnswer, i: int, j: int)
    requires 0 <= i < |labels| && 0 <= j < |labels| && FoodKey(labels[i]) == FoodKey(labels[j])
    ensures LookupAll(cache, labels, usda).items[i].macros == LookupAll(cache, labels, usda).items[j].macros
  {
    LookupAllAt(cache, labels, usda, i);
    LookupAllAt(cache, labels, usda, j);
  }

  /** LookupAll over one more label. */
  lemma LookupAllSnoc(cache: map<string, CacheRow>, labels: seq<string>, food: string, usda: string -> UsdaAnswer)
    ensures var b := LookupAll(cache, labels, usda);
      LookupAll(cache, labels + [food], usda) ==
        Batch(b.items + [LookupFood(b.cache, food, 1.0, usda).item], CacheAfter(b.cache, food, usda))
  {
    assert (labels + [food])[..|labels|] == labels;
  }

  /** LookupAll over one more label of a list: the step the lookup loops take. */
  lemma LookupAllPrefix(cache: map<string, CacheRow>, labels: seq<string>, i: int, usda: string -> UsdaAnswer)
    requires 0 <= i < |labels|
    ensures var b := LookupAll(cache, labels[..i], usda);
      LookupAll(cache, labels[..i + 1], usda) ==
        Batch(b.items + [LookupFood(b.cache, labels[i], 1.0, usda).item], CacheAfter(b.cache, labels[i], usda))
  {
    assert labels[..i + 1][..i] == labels[..i];
  }

  // ---------------------------------------------------------------------------
  // Label parsing and the classifier's non-food answer
  // ---------------------------------------------------------------------------

  /** `[p.strip() for p in parts if p.strip()]` */
  function StrippedNonEmpty(parts: seq<string>): (r: seq<string>)
    ensures |r| <= |parts|
    ensures forall i :: 0 <= i < |r| ==> r[i] != "" && Stripped(r[i])
  {
    if |parts| == 0 then []
    else
      var rest := StrippedNonEmpty(parts[1..]);
      var head := Strip(parts[0]);
      if head != "" then [head] + rest else rest
  }

  /** Stripping only removes characters: pieces without a comma stay without one. */
  lemma {:induction false} StrippedNonEmptyNoComma(parts: seq<string>)
    requires forall j :: 0 <= j < |parts| ==> ',' !in parts[j]
    ensures forall i :: 0 <= i < |StrippedNonEmpty(parts)| ==> ',' !in StrippedNonEmpty(parts)[i]
  {
    if |parts| > 0 {
      assert forall j :: 0 <= j < |parts| - 1 ==> parts[1..][j] == parts[j + 1];
      StrippedNonEmptyNoComma(parts[1..]);
      StripKeepsAbsent(parts[0], ',');
    }
  }

  /**
   * The fast scan's `[label.strip() for label in original_label.split(",") if label.strip()]`:
   * non-empty, stripped pieces with no comma in them.
   */
  function SplitLabels(s: string): (r: seq<string>)
    ensures forall i :: 0 <= i < |r| ==> r[i] != "" && ',' !in r[i] && Stripped(r[i])
  {
    var parts := Split(s, ',');
    StrippedNonEmptyNoComma(parts);
    StrippedNonEmpty(parts)
  }

  /** `"NON_FOOD" in label.upper()` */
  predicate IsNonFood(food: string) {
    Contains(Upper(food), "NON_FOOD")
  }

  // ---------------------------------------------------------------------------
  // Progress checkpoints
  // ---------------------------------------------------------------------------

  datatype Progress = Progress(stage: string, percent: int)

  const StageAnalyzing := "Analyzing image\U{2026}"
  const StageIdentifying := "Identifying food\U{2026}"
  const StageLookingUp := "Looking up nutrition\U{2026}"
  const StageIsolating := "Isolating items\U{2026}"
  const StageDone := "Done"

  /** `50 + int((i / max(1, n)) * 45)`, with the float product taken as exact. */
  function LookupPercent(i: nat, n: nat): int {
    50 + (i * 45) / (if n > 1 then n else 1)
  }

  lemma MulSign(x: int, d: int)
    requires 0 < d
    ensures x < 0 ==> x * d <= -d
    ensures x >= 0 ==> x * d >= 0
  {
  }

  lemma DivMonotone(a: int, b: int, d: int)
    requires 0 <= a <= b && 0 < d
    ensures a / d <= b / d
  {
    var x := b / d - a / d;
    MulSign(x, d);
    assert x * d == (b / d) * d - (a / d) * d;
  }

  lemma DivBelow(a: int, d: int, q: int)
    requires 0 <= a < d * q && 0 < d
    ensures a / d < q
  {
    var x := a / d - q;
    MulSign(x, d);
    assert x * d == (a / d) * d - q * d;
  }

  /** For the labels of a fast scan the percentages start at 50, stay below 95 and never decrease. */
  lemma LookupPercentBounds(i: nat, j: nat, n: nat)
    requires i <= j < n
    ensures 50 <= LookupPercent(i, n) <= LookupPercent(j, n) <= 94
  {
    var d := if n > 1 then n else 1;
    DivMonotone(i * 45, j * 45, d);
    assert j * 45 < d * 45;
    DivBelow(j * 45, d, 45);
  }

  /** The "Looking up nutrition" reports for the first `i` of `n` labels. */
  function LookupProgress(i: nat, n: nat): (r: seq<Progress>)
    ensures |r| == i
    ensures forall j :: 0 <= j < i ==> r[j] == Progress(StageLookingUp, LookupPercent(j, n))
  {
    if i == 0 then [] else LookupProgress(i - 1, n) + [Progress(StageLookingUp, LookupPercent(i - 1, n))]
  }

  /** The fast scan's reports for `n` labels: 10, 45, one per label, then 100. */
  function FastProgress(n: nat): seq<Progress> {
    [Progress(StageAnalyzing, 10)] + [Progress(StageIdentifying, 45)] + LookupProgress(n, n) + [Progress(StageDone, 100)]
  }

  predicate Nondecreasing(ps: seq<Progress>) {
    forall i, j :: 0 <= i <= j < |ps| ==> ps[i].percent <= ps[j].percent
  }

  predicate Within(ps: seq<Progress>, lo: int, hi: int) {
    forall i :: 0 <= i < |ps| ==> lo <= ps[i].percent <= hi
  }

  /** The fast scan's checkpoints never decrease and stay within [10, 100]. */
  lemma FastProgressMonotone(n: nat)
    ensures Nondecreasing(FastProgress(n)) && Within(FastProgress(n), 10, 100)
  {
    var ps := FastProgress(n);
    assert |ps| == n + 3;
    forall i | 0 <= i < |ps| ensures 10 <= ps[i].percent <= 100 && (2 <= i < n + 2 ==> 50 <= ps[i].percent <= 94) {
      if 2 <= i < n + 2 {
        LookupPercentBounds(i - 2, i - 2, n);
      }
    }
    forall i, j | 0 <= i <= j < |ps| ensures ps[i].percent <= ps[j].percent {
      if 2 <= i <= j < n + 2 {
        LookupPercentBounds(i - 2, j - 2, n);
      }
    }
  }

  // ---------------------------------------------------------------------------
  // Pipeline results
  // ---------------------------------------------------------------------------

  /**
   * The dictionary run_pipeline returns. Its `regions` entry is `[]` on every
   * path and is not carried.
   */
  datatype PipelineResult = PipelineResult(
    originalLabel: string,
    items: seq<Item>,
    totals: Macros,
    annotatedImagePath: Option<string>,
    rawResponse: string)

  /** What run_pipeline raises: the segmenter's own exception, or any other with its message. */
  datatype PipelineError = SegmentServiceUnavailable | OtherError(message: string)

  datatype Outcome = Returned(result: PipelineResult) | Raised(error: PipelineError)

  /** The progress reports in the order they were made, and how the run ended. */
  datatype PipelineRun = PipelineRun(progress: seq<Progress>, outcome: Outcome)

  /** A run together with the food cache it leaves behind. */
  datatype Scan = Scan(run: PipelineRun, cache: map<string, CacheRow>)

  /** A result whose totals are the element-wise sums of its items' macros. */
  predicate Summed(res: PipelineResult) {
    res.totals == Totals(res.items)
  }

  /** An empty answer: no items and zero totals. */
  function EmptyResult(originalLabel: string, annotated: Option<string>, rawResponse: string): (r: PipelineResult)
    ensures r.items == [] && r.totals == Zero && Summed(r)
  {
    PipelineResult(originalLabel, [], Zero, annotated, rawResponse)
  }

  // ---------------------------------------------------------------------------
  // run_pipeline, fast scan
  // ---------------------------------------------------------------------------

  const NonFoodLabel := "Non-Food Item Detected"
  const NonFoodResponse := "The AI determined there is no edible food in this image."

  /** The fast scan, as a function of the cache it starts from. */
  function FastScan(cache: map<string, CacheRow>, imagePath: string, o: Oracles): Scan {
    match o.classify(FastModel, imagePath)
    case ReadFailed(message) =>
      Scan(PipelineRun([Progress(StageAnalyzing, 10)], Raised(OtherError(message))), cache)
    case Label(text) =>
      if IsNonFood(text) then
        Scan(PipelineRun([Progress(StageAnalyzing, 10)] + [Progress(StageIdentifying, 45)],
                         Returned(EmptyResult(NonFoodLabel, None, NonFoodResponse))), cache)
      else
        var labels := SplitLabels(text);
        var b := LookupAll(cache, labels, o.usda);
        Scan(PipelineRun(FastProgress(|labels|),
                         Returned(PipelineResult(text, b.items, Totals(b.items), None, "AI detected: " + text))), b.cache)
  }

  /**
   * The fast scan's lookup loop: one "Looking up nutrition" report and one
   * get_macros_for_food call per label, in order.
   */
  method LookupLabels(db: Database, labels: seq<string>, usda: string -> UsdaAnswer)
    returns (items: seq<Item>, progress: seq<Progress>)
    modifies db`foodCache
    ensures Batch(items, db.foodCache) == LookupAll(old(db.foodCache), labels, usda)
    ensures progress == LookupProgress(|labels|, |labels|)
  {
    var n := |labels|;
    items := [];
    progress := [];
    ghost var cache0 := db.foodCache;
    for i := 0 to n
      invariant LookupAll(cache0, labels[..i], usda) == Batch(items, db.foodCache)
      invariant progress == LookupProgress(i, n)
    {
      progress := progress + [Progress(StageLookingUp, LookupPercent(i, n))];
      LookupAllPrefix(cache0, labels, i, usda);
      var r := GetMacrosForFood(db, labels[i], 1.0, usda);
      items := items + [r.item];
    }
    assert labels[..n] == labels;
  }

  /** The fast scan: classify, stop on a non-food answer, otherwise look up each comma-separated label in order. */
  method RunFastScan(db: Database, imagePath: string, o: Oracles) returns (run: PipelineRun)
    modifies db`foodCache
    ensures run == FastScan(old(db.foodCache), imagePath, o).run
    ensures db.foodCache == FastScan(old(db.foodCache), imagePath, o).cache
  {
    var progress := [Progress(StageAnalyzing, 10)];
    var reply := o.classify(FastModel, imagePath);
    if reply.ReadFailed? {
      return PipelineRun(progress, Raised(OtherError(reply.message)));
    }
    var originalLabel := reply.text;
    progress := progress + [Progress(StageIdentifying, 45)];
    if IsNonFood(originalLabel) {
      return PipelineRun(progress, Returned(EmptyResult(NonFoodLabel, None, NonFoodResponse)));
    }
    var rawLabels := SplitLabels(originalLabel);
    var items, lookups := LookupLabels(db, rawLabels, o.usda);
    progress := progress + lookups + [Progress(StageDone, 100)];
    run := PipelineRun(progress, Returned(PipelineResult(originalLabel, items, Totals(items), None, "AI detected: " + originalLabel)));
  }

  // ---------------------------------------------------------------------------
  // _run_pipeline_deep: one crop
  // ---------------------------------------------------------------------------

  /** Whether process_single_crop skips a label: an empty key, or the trapdoor fires. */
  predicate SkippedLabel(raw: string) {
    NormalizeFoodName(Some(raw)) == "" || TitaniumTrapdoor(raw)
  }

  /** The labels of a crop that process_single_crop looks up, in order. */
  function KeptLabels(raws: seq<string>): (r: seq<string>)
    ensures |r| <= |raws|
    decreases |raws|
  {
    if |raws| == 0 then []
    else
      var init := KeptLabels(raws[..|raws| - 1]);
      if SkippedLabel(raws[|raws| - 1]) then init else init + [raws[|raws| - 1]]
  }

  lemma KeptLabelsPrefix(raws: seq<string>, i: int)
    requires 0 <= i < |raws|
    ensures KeptLabels(raws[..i + 1]) ==
      if SkippedLabel(raws[i]) then KeptLabels(raws[..i]) else KeptLabels(raws[..i]) + [raws[i]]
  {
    assert raws[..i + 1][..i] == raws[..i];
  }

  /** One more label of a crop: LookupAll over the kept labels takes a step exactly when the label is kept. */
  lemma LookupKeptPrefix(cache: map<string, CacheRow>, raws: seq<string>, i: int, usda: string -> UsdaAnswer)
    requires 0 <= i < |raws|
    ensures var b := LookupAll(cache, KeptLabels(raws[..i]), usda);
      LookupAll(cache, KeptLabels(raws[..i + 1]), usda) ==
        if SkippedLabel(raws[i]) then b
        else Batch(b.items + [LookupFood(b.cache, raws[i], 1.0, usda).item], CacheAfter(b.cache, raws[i], usda))
  {
    KeptLabelsPrefix(raws, i);
    if !SkippedLabel(raws[i]) {
      LookupAllSnoc(cache, KeptLabels(raws[..i]), raws[i], usda);
    }
  }

  /** Every kept label passes the trapdoor. */
  /** A label is kept exactly when it is one of the crop's labels and is not skipped. */
  lemma {:induction false} KeptLabelsExact(raws: seq<string>)
    ensures forall x :: x in KeptLabels(raws) <==> x in raws && !SkippedLabel(x)
  {
    if |raws| > 0 {
      KeptLabelsExact(raws[..|raws| - 1]);
      assert raws == raws[..|raws| - 1] + [raws[|raws| - 1]];
    }
  }

  lemma {:induction false} KeptLabelsPass(raws: seq<string>, i: int)
    requires 0 <= i < |KeptLabels(raws)|
    ensures !TitaniumTrapdoor(KeptLabels(raws)[i])
    decreases |raws|
  {
    var init := KeptLabels(raws[..|raws| - 1]);
    if i < |init| {
      KeptLabelsPass(raws[..|raws| - 1], i);
      if !SkippedLabel(raws[|raws| - 1]) {
        assert KeptLabels(raws)[i] == init[i];
      }
    }
  }

  /** What process_single_crop gives back for one crop: its items, or the exception it raised. */
  datatype CropOutcome = CropItems(items: seq<Item>) | CropFailed(message: string)

  datatype CropRun = CropRun(outcome: CropOutcome, cache: map<string, CacheRow>)

  /**
   * process_single_crop: no items for a non-food answer, otherwise one lookup per
   * kept label; a crop image that cannot be read raises.
   */
  function CropScan(cache: map<string, CacheRow>, crop: string, o: Oracles): CropRun {
    match o.classify(DeepModel, crop)
    case ReadFailed(message) => CropRun(CropFailed(message), cache)
    case Label(text) =>
      if IsNonFood(text) then CropRun(CropItems([]), cache)
      else
        var b := LookupAll(cache, KeptLabels(SplitLabels(text)), o.usda);
        CropRun(CropItems(b.items), b.cache)
  }

  /** The label loop of process_single_crop: skipped labels are passed over, the others looked up in order. */
  method LookupKeptLabels(db: Database, raws: seq<string>, usda: string -> UsdaAnswer) returns (items: seq<Item>)
    modifies db`foodCache
    ensures Batch(items, db.foodCache) == LookupAll(old(db.foodCache), KeptLabels(raws), usda)
  {
    items := [];
    ghost var cache0 := db.foodCache;
    for i := 0 to |raws|
      invariant LookupAll(cache0, KeptLabels(raws[..i]), usda) == Batch(items, db.foodCache)
    {
      var raw := raws[i];
      LookupKeptPrefix(cache0, raws, i, usda);
      var key := NormalizeFoodName(Some(raw));
      if !(key == "" || TitaniumTrapdoor(raw)) {
        var r := GetMacrosForFood(db, raw, 1.0, usda);
        items := items + [r.item];
      }
    }
    assert raws[..|raws|] == raws;
  }

  /** process_single_crop, reading and writing the food cache. */
  method ProcessSingleCrop(db: Database, crop: string, o: Oracles) returns (outcome: CropOutcome)
    modifies db`foodCache
    ensures outcome == CropScan(old(db.foodCache), crop, o).outcome
    ensures db.foodCache == CropScan(old(db.foodCache), crop, o).cache
  {
    var reply := o.classify(DeepModel, crop);
    if reply.ReadFailed? {
      return CropFailed(reply.message);
    }
    var localItems: seq<Item> := [];
    if !IsNonFood(reply.text) {
      localItems := LookupKeptLabels(db, SplitLabels(reply.text), o.usda);
    }
    outcome := CropItems(localItems);
  }

  // ---------------------------------------------------------------------------
  // _run_pipeline_deep: all crops, then the collection loop
  // ---------------------------------------------------------------------------

  /** The outcome of every crop, in crop order, and the cache they leave. */
  datatype Crops = Crops(outcomes: seq<CropOutcome>, cache: map<string, CacheRow>)

  /**
   * `executor.map(process_single_crop, copied_crops)` taken in input order,
   * every crop run to the end. When a crop raises, the executor cancels the
   * crops that have not started yet, so after a failing deep scan the real
   * cache may hold fewer rows than this one.
   */
  function CropsScan(cache: map<string, CacheRow>, crops: seq<string>, o: Oracles): (r: Crops)
    ensures |r.outcomes| == |crops|
    decreases |crops|
  {
    if |crops| == 0 then Crops([], cache)
    else
      var b := CropsScan(cache, crops[..|crops| - 1], o);
      var c := CropScan(b.cache, crops[|crops| - 1], o);
      Crops(b.outcomes + [c.outcome], c.cache)
  }

  lemma CropsScanPrefix(cache: map<string, CacheRow>, crops: seq<string>, i: int, o: Oracles)
    requires 0 <= i < |crops|
    ensures var b := CropsScan(cache, crops[..i], o);
      var c := CropScan(b.cache, crops[i], o);
      CropsScan(cache, crops[..i + 1], o) == Crops(b.outcomes + [c.outcome], c.cache)
  {
    assert crops[..i + 1][..i] == crops[..i];
  }

  /** Every crop, in order: the model of the thread pool run sequentially. */
  method ProcessCrops(db: Database, crops: seq<string>, o: Oracles) returns (outcomes: seq<CropOutcome>)
    modifies db`foodCache
    ensures Crops(outcomes, db.foodCache) == CropsScan(old(db.foodCache), crops, o)
  {
    outcomes := [];
    ghost var cache0 := db.foodCache;
    for i := 0 to |crops|
      invariant CropsScan(cache0, crops[..i], o) == Crops(outcomes, db.foodCache)
    {
      CropsScanPrefix(cache0, crops, i, o);
      var outcome := ProcessSingleCrop(db, crops[i], o);
      outcomes := outcomes + [outcome];
    }
    assert crops[..|crops|] == crops;
  }

  /** The exception the collection loop meets first, if any crop raised. */
  function FirstFailure(outcomes: seq<CropOutcome>): (r: Option<string>)
    ensures r.None? <==> forall i :: 0 <= i < |outcomes| ==> outcomes[i].CropItems?
    decreases |outcomes|
  {
    if |outcomes| == 0 then None
    else if outcomes[0].CropFailed? then Some(outcomes[0].message)
    else
      var r := FirstFailure(outcomes[1..]);
      assert forall i :: 1 <= i < |outcomes| ==> outcomes[i] == outcomes[1..][i - 1];
      r
  }

  /** The exception reported is the one of the first crop that raised. */
  lemma {:induction false} FirstFailureAt(outcomes: seq<CropOutcome>, i: int)
    requires 0 <= i < |outcomes| && outcomes[i].CropFailed?
    requires forall j :: 0 <= j < i ==> outcomes[j].CropItems?
    ensures FirstFailure(outcomes) == Some(outcomes[i].message)
    decreases i
  {
    if i > 0 {
      assert outcomes[1..][i - 1] == outcomes[i];
      assert forall j :: 0 <= j < i - 1 ==> outcomes[1..][j] == outcomes[j + 1];
      FirstFailureAt(outcomes[1..], i - 1);
    }
  }

  /** The items of the crops that did not raise, in crop order. */
  function Flatten(outcomes: seq<CropOutcome>): seq<Item>
    decreases |outcomes|
  {
    if |outcomes| == 0 then []
    else Flatten(outcomes[..|outcomes| - 1]) + OutcomeItems(outcomes[|outcomes| - 1])
  }

  function OutcomeItems(c: CropOutcome): seq<Item> {
    if c.CropItems? then c.items else []
  }

  lemma FlattenPrefix(outcomes: seq<CropOutcome>, i: int)
    requires 0 <= i < |outcomes|
    ensures Flatten(outcomes[..i + 1]) == Flatten(outcomes[..i]) + OutcomeItems(outcomes[i])
  {
    assert outcomes[..i + 1][..i] == outcomes[..i];
  }

  /** The key the collection loop dedupes on. */
  function DedupeKey(it: Item): string {
    NormalizeFoodName(Some(it.name))
  }

  /** The collection loop's `items` and `seen`. */
  datatype Deduped = Deduped(items: seq<Item>, seen: set<string>)

  /**
   * One item of the collection loop: kept, and its key recorded, when the key is
   * non-empty and new. The key function is a parameter so that the facts below
   * hold for any key; the pipeline uses DedupeKey.
   */
  function DedupeStep(d: Deduped, it: Item, key: Item -> string): Deduped {
    var k := key(it);
    if k != "" && k !in d.seen then Deduped(d.items + [it], d.seen + {k}) else d
  }

  /** The collection loop over a list of items, from an empty `items` and `seen`. */
  function Dedupe(items: seq<Item>, key: Item -> string): Deduped
    decreases |items|
  {
    if |items| == 0 then Deduped([], {})
    else DedupeStep(Dedupe(items[..|items| - 1], key), items[|items| - 1], key)
  }

  /** The key of item `i` is non-empty and no earlier item has it. */
  predicate FirstOf(items: seq<Item>, i: int, key: Item -> string)
    requires 0 <= i < |items|
  {
    key(items[i]) != "" && forall j :: 0 <= j < i ==> key(items[j]) != key(items[i])
  }

  /** The first occurrences, in order: the reference the collection loop is checked against. */
  function Firsts(items: seq<Item>, key: Item -> string): seq<Item>
    decreases |items|
  {
    if |items| == 0 then []
    else Firsts(items[..|items| - 1], key) + if FirstOf(items, |items| - 1, key) then [items[|items| - 1]] else []
  }

  /** `seen` holds exactly the non-empty keys of the items so far. */
  lemma {:induction false} DedupeSeen(items: seq<Item>, key: Item -> string, k: string)
    ensures k in Dedupe(items, key).seen <==> k != "" && exists j :: 0 <= j < |items| && key(items[j]) == k
    decreases |items|
  {
    if |items| > 0 {
      var init := items[..|items| - 1];
      DedupeSeen(init, key, k);
      if k in Dedupe(init, key).seen {
        var j :| 0 <= j < |init| && key(init[j]) == k;
        assert items[j] == init[j];
      }
      if exists j :: 0 <= j < |items| && key(items[j]) == k {
        var j :| 0 <= j < |items| && key(items[j]) == k;
        if j < |init| {
          assert init[j] == items[j];
        }
      }
    }
  }

  /** The collection loop keeps exactly the first occurrence of each non-empty key, in order. */
  lemma {:induction false} DedupeIsFirsts(items: seq<Item>, key: Item -> string)
    ensures Dedupe(items, key).items == Firsts(items, key)
    decreases |items|
  {
    if |items| > 0 {
      var init := items[..|items| - 1];
      var last := items[|items| - 1];
      DedupeIsFirsts(init, key);
      var k := key(last);
      DedupeSeen(init, key, k);
      if k != "" && k in Dedupe(init, key).seen {
        var j :| 0 <= j < |init| && key(init[j]) == k;
        assert items[j] == init[j];
        assert !FirstOf(items, |items| - 1, key);
      }
      if k != "" && k !in Dedupe(init, key).seen {
        forall j | 0 <= j < |items| - 1 ensures key(items[j]) != k {
          assert items[j] == init[j];
        }
      }
    }
  }

  /** Every key in `s` is non-empty and recorded in `seen`, and no two items of `s` share a key. */
  predicate KeysDistinct(s: seq<Item>, seen: set<string>, key: Item -> string) {
    && (forall i :: 0 <= i < |s| ==> key(s[i]) != "" && key(s[i]) in seen)
    && (forall i, j :: 0 <= i < j < |s| ==> key(s[i]) != key(s[j]))
  }

  /** No two kept items share a key, and every kept key is non-empty and recorded in `seen`. */
  lemma {:induction false} DedupeDistinct(items: seq<Item>, key: Item -> string)
    ensures KeysDistinct(Dedupe(items, key).items, Dedupe(items, key).seen, key)
    decreases |items|
  {
    if |items| > 0 {
      var init := items[..|items| - 1];
      var last := items[|items| - 1];
      DedupeDistinct(init, key);
      var d0 := Dedupe(init, key);
      var k := key(last);
      if k != "" && k !in d0.seen {
        var d := Dedupe(items, key);
        assert d.items == d0.items + [last] && d.seen == d0.seen + {k};
        forall i | 0 <= i < |d.items| ensures key(d.items[i]) != "" && key(d.items[i]) in d.seen {
          if i < |d0.items| {
            assert d.items[i] == d0.items[i];
          }
        }
        forall i, j | 0 <= i < j < |d.items| ensures key(d.items[i]) != key(d.items[j]) {
          assert d.items[i] == d0.items[i];
          if j < |d0.items| {
            assert d.items[j] == d0.items[j];
          }
        }
      }
    }
  }

  /** Every kept item is one of the items. */
  lemma {:induction false} DedupeFromItems(items: seq<Item>, key: Item -> string)
    ensures forall x :: x in Dedupe(items, key).items ==> x in items
    decreases |items|
  {
    if |items| > 0 {
      DedupeFromItems(items[..|items| - 1], key);
    }
  }

  /** The collection loop continued over `list` from the state `d`. */
  function DedupeFrom(d: Deduped, list: seq<Item>, key: Item -> string): Deduped
    decreases |list|
  {
    if |list| == 0 then d
    else DedupeStep(DedupeFrom(d, list[..|list| - 1], key), list[|list| - 1], key)
  }

  /** Running the loop over `base + list` is running it over `base`, then over `list`. */
  lemma {:induction false} DedupeAppend(base: seq<Item>, list: seq<Item>, key: Item -> string)
    ensures Dedupe(base + list, key) == DedupeFrom(Dedupe(base, key), list, key)
    decreases |list|
  {
    if |list| == 0 {
      assert base + list == base;
    } else {
      var init := list[..|list| - 1];
      DedupeAppend(base, init, key);
      assert (base + list)[..|base + list| - 1] == base + init;
    }
  }

  /** Continuing the loop only adds items: what was kept stays kept, in place. */
  lemma {:induction false} DedupeFromExtends(d: Deduped, list: seq<Item>, key: Item -> string)
    ensures d.items <= DedupeFrom(d, list, key).items
    decreases |list|
  {
    if |list| > 0 {
      DedupeFromExtends(d, list[..|list| - 1], key);
    }
  }

  lemma DedupeFromPrefix(d: Deduped, list: seq<Item>, j: int, key: Item -> string)
    requires 0 <= j < |list|
    ensures DedupeFrom(d, list[..j + 1], key) == DedupeStep(DedupeFrom(d, list[..j], key), list[j], key)
  {
    assert list[..j + 1][..j] == list[..j];
  }

  /** One more crop's items continue the collection loop from where the earlier crops left it. */
  lemma DedupeFlattenPrefix(outcomes: seq<CropOutcome>, i: int)
    requires 0 <= i < |outcomes| && outcomes[i].CropItems?
    ensures Dedupe(Flatten(outcomes[..i + 1]), DedupeKey)
         == DedupeFrom(Dedupe(Flatten(outcomes[..i]), DedupeKey), outcomes[i].items, DedupeKey)
  {
    FlattenPrefix(outcomes, i);
    DedupeAppend(Flatten(outcomes[..i]), outcomes[i].items, DedupeKey);
  }

  /** The inner loop over one crop's items. */
  method CollectCrop(items0: seq<Item>, seen0: set<string>, list: seq<Item>) returns (items: seq<Item>, seen: set<string>)
    ensures Deduped(items, seen) == DedupeFrom(Deduped(items0, seen0), list, DedupeKey)
  {
    items, seen := items0, seen0;
    for j := 0 to |list|
      invariant Deduped(items, seen) == DedupeFrom(Deduped(items0, seen0), list[..j], DedupeKey)
    {
      DedupeFromPrefix(Deduped(items0, seen0), list, j, DedupeKey);
      var item := list[j];
      var key := NormalizeFoodName(Some(item.name));
      if key != "" && key !in seen {
        seen := seen + {key};
        items := items + [item];
      }
    }
    assert list[..|list|] == list;
  }

  /**
   * The collection loop: the crops' item lists in crop order, each item kept
   * when its key is new; the first crop that raised stops it with that exception.
   */
  method CollectItems(outcomes: seq<CropOutcome>) returns (failure: Option<string>, items: seq<Item>)
    ensures failure == FirstFailure(outcomes)
    ensures failure.None? ==> items == Dedupe(Flatten(outcomes), DedupeKey).items
  {
    items := [];
    var seen: set<string> := {};
    for i := 0 to |outcomes|
      invariant forall j :: 0 <= j < i ==> outcomes[j].CropItems?
      invariant Deduped(items, seen) == Dedupe(Flatten(outcomes[..i]), DedupeKey)
    {
      if outcomes[i].CropFailed? {
        FirstFailureAt(outcomes, i);
        return Some(outcomes[i].message), items;
      }
      DedupeFlattenPrefix(outcomes, i);
      items, seen := CollectCrop(items, seen, outcomes[i].items);
    }
    assert outcomes[..|outcomes|] == outcomes;
    failure := None;
  }

  const NoSegmentsLabel := "No food segments detected"
  const NoSegmentsResponse := "Segmentation found no distinct food regions."
  const NoEdibleLabel := "No edible food detected in segments"
  const NoEdibleResponse := "AI did not identify edible food in the segmented regions."

  function Names(items: seq<Item>): (r: seq<string>)
    ensures |r| == |items| && forall i :: 0 <= i < |items| ==> r[i] == items[i].name
  {
    seq(|items|, i requires 0 <= i < |items| => items[i].name)
  }

  /** The deep scan's answer for the deduplicated items: the empty answer, or the names joined by ", ". */
  function DeepResult(items: seq<Item>, annotated: string): (r: PipelineResult)
    ensures Summed(r) && r.items == items && r.annotatedImagePath == Some(annotated)
    ensures items == [] ==> r.originalLabel == NoEdibleLabel && r.rawResponse == NoEdibleResponse
    ensures items != [] ==> r.originalLabel == Join(Names(items), ", ") && r.rawResponse == "Deep Scan detected: " + r.originalLabel
  {
    if |items| == 0 then EmptyResult(NoEdibleLabel, Some(annotated), NoEdibleResponse)
    else
      var joined := Join(Names(items), ", ");
      PipelineResult(joined, items, Totals(items), Some(annotated), "Deep Scan detected: " + joined)
  }

  /** _run_pipeline_deep, as a function of the cache it starts from. */
  function DeepScan(cache: map<string, CacheRow>, imagePath: string, o: Oracles): Scan {
    match o.segment(imagePath)
    case SegmentUnavailable =>
      Scan(PipelineRun([Progress(StageIsolating, 5)], Raised(SegmentServiceUnavailable)), cache)
    case Segmented(annotated, crops) =>
      var dst := o.copyAnnotated(annotated);
      if |crops| == 0 then
        Scan(PipelineRun([Progress(StageIsolating, 5)] + [Progress(StageDone, 100)],
                         Returned(EmptyResult(NoSegmentsLabel, Some(dst), NoSegmentsResponse))), cache)
      else
        var cs := CropsScan(cache, crops, o);
        match FirstFailure(cs.outcomes)
        case Some(message) =>
          Scan(PipelineRun([Progress(StageIsolating, 5)] + [Progress(StageIdentifying, 40)], Raised(OtherError(message))), cs.cache)
        case None =>
          Scan(PipelineRun([Progress(StageIsolating, 5)] + [Progress(StageIdentifying, 40)] + [Progress(StageDone, 100)],
                           Returned(DeepResult(Dedupe(Flatten(cs.outcomes), DedupeKey).items, dst))), cs.cache)
  }

  /** _run_pipeline_deep: segment, process every crop, then collect and dedupe the items. */
  method RunDeepScan(db: Database, imagePath: string, o: Oracles) returns (run: PipelineRun)
    modifies db`foodCache
    ensures run == DeepScan(old(db.foodCache), imagePath, o).run
    ensures db.foodCache == DeepScan(old(db.foodCache), imagePath, o).cache
  {
    var progress := [Progress(StageIsolating, 5)];
    var seg := o.segment(imagePath);
    if seg.SegmentUnavailable? {
      return PipelineRun(progress, Raised(SegmentServiceUnavailable));
    }
    var annotatedDst := o.copyAnnotated(seg.annotatedPath);
    var crops := seg.cropPaths;
    if |crops| == 0 {
      progress := progress + [Progress(StageDone, 100)];
      return PipelineRun(progress, Returned(EmptyResult(NoSegmentsLabel, Some(annotatedDst), NoSegmentsResponse)));
    }
    progress := progress + [Progress(StageIdentifying, 40)];
    var outcomes := ProcessCrops(db, crops, o);
    var failure, items := CollectItems(outcomes);
    if failure.Some? {
      return PipelineRun(progress, Raised(OtherError(failure.value)));
    }
    progress := progress + [Progress(StageDone, 100)];
    run := PipelineRun(progress, Returned(DeepResult(items, annotatedDst)));
  }

  // ---------------------------------------------------------------------------
  // run_pipeline
  // ---------------------------------------------------------------------------

  /** run_pipeline: the deep scan for the mode `"deep"`, the fast scan for any other. */
  function PipelineScan(cache: map<string, CacheRow>, imagePath: string, scanMode: string, o: Oracles): Scan {
    if scanMode == "deep" then DeepScan(cache, imagePath, o) else FastScan(cache, imagePath, o)
  }

  method RunPipeline(db: Database, imagePath: string, scanMode: string, o: Oracles) returns (run: PipelineRun)
    modifies db`foodCache
    ensures run == PipelineScan(old(db.foodCache), imagePath, scanMode, o).run
    ensures db.foodCache == PipelineScan(old(db.foodCache), imagePath, scanMode, o).cache
  {
    if scanMode == "deep" {
      run := RunDeepScan(db, imagePath, o);
    } else {
      run := RunFastScan(db, imagePath, o);
    }
  }
}
