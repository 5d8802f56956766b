/**
 * Properties of whole pipeline runs: what the fast and the deep scan return,
 * the progress they report, and the food cache they leave behind.
 */
module PipelineProps {
  import opened Wrappers
  import opened Meals
  import opened Database
  import opened Pipeline

  // ---------------------------------------------------------------------------
  // Both strategies
  // ---------------------------------------------------------------------------

  /** Whatever run_pipeline returns carries totals that are the element-wise sums of its items. */
  lemma ScanSummed(cache: map<string, CacheRow>, imagePath: string, scanMode: string, o: Oracles)
    ensures var run := PipelineScan(cache, imagePath, scanMode, o).run;
      run.outcome.Returned? ==> Summed(run.outcome.result)
  {
  }

  /** The fast scan's checkpoints start at 10, never decrease and stay within [10, 100]. */
  lemma FastScanProgress(cache: map<string, CacheRow>, imagePath: string, o: Oracles)
    ensures var ps := FastScan(cache, imagePath, o).run.progress;
      |ps| > 0 && ps[0].percent == 10 && Nondecreasing(ps) && Within(ps, 10, 100)
  {
    match o.classify(FastModel, imagePath)
    case ReadFailed(_) =>
    case Label(text) =>
      if !IsNonFood(text) {
        FastProgressMonotone(|SplitLabels(text)|);
      }
  }

  /** The deep scan's checkpoints start at 5, never decrease and are each 5, 40 or 100. */
  lemma DeepScanProgress(cache: map<string, CacheRow>, imagePath: string, o: Oracles)
    ensures var ps := DeepScan(cache, imagePath, o).run.progress;
      && |ps| > 0 && ps[0] == Progress(StageIsolating, 5) && Nondecreasing(ps)
      && forall i :: 0 <= i < |ps| ==> ps[i].percent == 5 || ps[i].percent == 40 || ps[i].percent == 100
  {
    var ps := DeepScan(cache, imagePath, o).run.progress;
    var p5, p40, p100 := Progress(StageIsolating, 5), Progress(StageIdentifying, 40), Progress(StageDone, 100);
    assert ps == [p5] || ps == [p5] + [p100] || ps == [p5] + [p40] || ps == [p5] + [p40] + [p100];
    DeepCheckpoints(ps);
  }

  lemma DeepCheckpoints(ps: seq<Progress>)
    requires var p5, p40, p100 := Progress(StageIsolating, 5), Progress(StageIdentifying, 40), Progress(StageDone, 100);
      ps == [p5] || ps == [p5] + [p100] || ps == [p5] + [p40] || ps == [p5] + [p40] + [p100]
    ensures && |ps| > 0 && ps[0] == Progress(StageIsolating, 5) && Nondecreasing(ps)
      && forall i :: 0 <= i < |ps| ==> ps[i].percent == 5 || ps[i].percent == 40 || ps[i].percent == 100
  {
  }

  /** Either way the checkpoints never decrease and stay within [5, 100]. */
  lemma ScanProgress(cache: map<string, CacheRow>, imagePath: string, scanMode: string, o: Oracles)
    ensures var ps := PipelineScan(cache, imagePath, scanMode, o).run.progress;
      |ps| > 0 && Nondecreasing(ps) && Within(ps, 5, 100)
  {
    if scanMode == "deep" {
      DeepScanProgress(cache, imagePath, o);
    } else {
      FastScanProgress(cache, imagePath, o);
    }
  }

  /**
   * A run that raised never reported "Done"; a run that returned reported "Done"
   * at 100 last, except for the fast scan whose classifier text contains
   * NON_FOOD, which returns after the 45 checkpoint.
   */
  lemma ScanDoneLast(cache: map<string, CacheRow>, imagePath: string, scanMode: string, o: Oracles)
    ensures var run := PipelineScan(cache, imagePath, scanMode, o).run;
      var reply := o.classify(FastModel, imagePath);
      && (run.outcome.Raised? ==> forall i :: 0 <= i < |run.progress| ==> run.progress[i].stage != StageDone)
      && (run.outcome.Returned? && !(scanMode != "deep" && reply.Label? && IsNonFood(reply.text)) ==>
            |run.progress| > 0 && run.progress[|run.progress| - 1] == Progress(StageDone, 100))
  {
    if scanMode != "deep" {
      match o.classify(FastModel, imagePath)
      case ReadFailed(_) =>
      case Label(text) =>
        if !IsNonFood(text) {
          var n := |SplitLabels(text)|;
          assert |FastProgress(n)| == n + 3;
        }
    }
  }

  /** No run changes or drops a row that was in the food cache; rows are only added. */
  lemma ScanKeepsCache(cache: map<string, CacheRow>, imagePath: string, scanMode: string, o: Oracles)
    ensures var after := PipelineScan(cache, imagePath, scanMode, o).cache;
      forall k :: k in cache ==> k in after && after[k] == cache[k]
  {
    if scanMode == "deep" {
      match o.segment(imagePath)
      case SegmentUnavailable =>
      case Segmented(_, crops) =>
        if |crops| > 0 {
          CropsScanKeeps(cache, crops, o);
        }
    } else {
      match o.classify(FastModel, imagePath)
      case ReadFailed(_) =>
      case Label(text) =>
        if !IsNonFood(text) {
          LookupAllKeeps(cache, SplitLabels(text), o.usda);
        }
    }
  }

  // ---------------------------------------------------------------------------
  // Fast scan
  // ---------------------------------------------------------------------------

  /** A classifier answer containing NON_FOOD, in any case: no items, zero totals, the non-food label, no cache change. */
  lemma FastScanNonFood(cache: map<string, CacheRow>, imagePath: string, o: Oracles)
    requires o.classify(FastModel, imagePath).Label? && IsNonFood(o.classify(FastModel, imagePath).text)
    ensures var s := FastScan(cache, imagePath, o);
      && s.run.outcome.Returned? && s.run.outcome.result.items == [] && s.run.outcome.result.totals == Zero
      && s.run.outcome.result.originalLabel == NonFoodLabel && s.run.outcome.result.annotatedImagePath.None?
      && s.cache == cache
  {
  }

  /**
   * Any other answer: one item per comma-separated, stripped, non-empty label, in
   * order, none filtered out; item `i` is named by the key of label `i`, has
   * quantity 1.0 and carries the per-100 g row the cache ends up holding for that key.
   */
  lemma FastScanItems(cache: map<string, CacheRow>, imagePath: string, o: Oracles)
    requires o.classify(FastModel, imagePath).Label? && !IsNonFood(o.classify(FastModel, imagePath).text)
    ensures var text := o.classify(FastModel, imagePath).text;
      var labels := SplitLabels(text);
      var s := FastScan(cache, imagePath, o);
      && s.run.outcome.Returned? && s.run.outcome.result.originalLabel == text
      && |s.run.outcome.result.items| == |labels|
      && forall i :: 0 <= i < |labels| ==>
           && s.run.outcome.result.items[i].name == FoodKey(labels[i])
           && s.run.outcome.result.items[i].quantity == 1.0
           && FoodKey(labels[i]) in s.cache
           && s.run.outcome.result.items[i].macros == s.cache[FoodKey(labels[i])].per100
  {
    var text := o.classify(FastModel, imagePath).text;
    LookupAllFacts(cache, SplitLabels(text), o.usda);
  }

  /** Two labels with the same key are both kept, with the same macros (the second is a cache hit). */
  lemma FastScanDuplicates(cache: map<string, CacheRow>, imagePath: string, o: Oracles, i: int, j: int)
    requires o.classify(FastModel, imagePath).Label? && !IsNonFood(o.classify(FastModel, imagePath).text)
    requires var labels := SplitLabels(o.classify(FastModel, imagePath).text);
      0 <= i < |labels| && 0 <= j < |labels| && FoodKey(labels[i]) == FoodKey(labels[j])
    ensures var items := FastScan(cache, imagePath, o).run.outcome.result.items;
      0 <= i < |items| && 0 <= j < |items| && items[i].macros == items[j].macros
  {
    var text := o.classify(FastModel, imagePath).text;
    LookupAllSameKey(cache, SplitLabels(text), o.usda, i, j);
  }

  // ---------------------------------------------------------------------------
  // Deep scan: the cache
  // ---------------------------------------------------------------------------

  /** One crop never changes or drops a cached row. */
  lemma CropScanKeeps(cache: map<string, CacheRow>, crop: string, o: Oracles)
    ensures var after := CropScan(cache, crop, o).cache;
      forall k :: k in cache ==> k in after && after[k] == cache[k]
  {
    match o.classify(DeepModel, crop)
    case ReadFailed(_) =>
    case Label(text) =>
      if !IsNonFood(text) {
        LookupAllKeeps(cache, KeptLabels(SplitLabels(text)), o.usda);
      }
  }

  /** Neither do all the crops together. */
  lemma {:induction false} CropsScanKeeps(cache: map<string, CacheRow>, crops: seq<string>, o: Oracles)
    ensures var after := CropsScan(cache, crops, o).cache;
      forall k :: k in cache ==> k in after && after[k] == cache[k]
    decreases |crops|
  {
    if |crops| > 0 {
      var b := CropsScan(cache, crops[..|crops| - 1], o);
      CropsScanKeeps(cache, crops[..|crops| - 1], o);
      CropScanKeeps(b.cache, crops[|crops| - 1], o);
    }
  }

  // ---------------------------------------------------------------------------
  // Deep scan: no blocklisted item survives
  // ---------------------------------------------------------------------------

  /** No item is named by a blocklisted word. */
  predicate Allowed(items: seq<Item>) {
    forall x :: x in items ==> x.name !in NonFoodBlocklist
  }

  /** The lookups of a crop's kept labels are never named by a blocklisted word. */
  lemma LookupKeptAllowed(cache: map<string, CacheRow>, raws: seq<string>, usda: string -> UsdaAnswer)
    ensures Allowed(LookupAll(cache, KeptLabels(raws), usda).items)
  {
    var kept := KeptLabels(raws);
    var items := LookupAll(cache, kept, usda).items;
    forall x | x in items ensures x.name !in NonFoodBlocklist {
      var i :| 0 <= i < |items| && items[i] == x;
      LookupAllAt(cache, kept, usda, i);
      KeptLabelsPass(raws, i);
      TrapdoorIffBlockedKey(kept[i]);
    }
  }

  lemma CropScanAllowed(cache: map<string, CacheRow>, crop: string, o: Oracles)
    ensures var c := CropScan(cache, crop, o).outcome;
      c.CropItems? ==> Allowed(c.items)
  {
    match o.classify(DeepModel, crop)
    case ReadFailed(_) =>
    case Label(text) =>
      if !IsNonFood(text) {
        LookupKeptAllowed(cache, SplitLabels(text), o.usda);
      }
  }

  /** Every crop's items are free of blocklisted names. */
  lemma {:induction false} CropsScanAllowed(cache: map<string, CacheRow>, crops: seq<string>, o: Oracles)
    ensures forall j :: 0 <= j < |CropsScan(cache, crops, o).outcomes| && CropsScan(cache, crops, o).outcomes[j].CropItems? ==>
      Allowed(CropsScan(cache, crops, o).outcomes[j].items)
    decreases |crops|
  {
    if |crops| > 0 {
      var b := CropsScan(cache, crops[..|crops| - 1], o);
      var r := CropsScan(cache, crops, o);
      CropsScanAllowed(cache, crops[..|crops| - 1], o);
      CropScanAllowed(b.cache, crops[|crops| - 1], o);
      assert r.outcomes == b.outcomes + [CropScan(b.cache, crops[|crops| - 1], o).outcome];
      forall j | 0 <= j < |r.outcomes| && r.outcomes[j].CropItems? ensures Allowed(r.outcomes[j].items) {
        if j < |b.outcomes| {
          assert r.outcomes[j] == b.outcomes[j];
        }
      }
    }
  }

  /** Flattening allowed crops gives allowed items. */
  lemma {:induction false} FlattenAllowed(outcomes: seq<CropOutcome>)
    requires forall j :: 0 <= j < |outcomes| && outcomes[j].CropItems? ==> Allowed(outcomes[j].items)
    ensures Allowed(Flatten(outcomes))
    decreases |outcomes|
  {
    if |outcomes| > 0 {
      FlattenAllowed(outcomes[..|outcomes| - 1]);
    }
  }

  /** Deduplication only drops items. */
  lemma DedupeAllowed(items: seq<Item>, key: Item -> string)
    requires Allowed(items)
    ensures Allowed(Dedupe(items, key).items)
  {
    DedupeFromItems(items, key);
  }

  /** The deep scan's items are never named by a blocklisted word. */
  lemma DeepScanAllowed(cache: map<string, CacheRow>, imagePath: string, o: Oracles)
    ensures var run := DeepScan(cache, imagePath, o).run;
      run.outcome.Returned? ==> Allowed(run.outcome.result.items)
  {
    match o.segment(imagePath)
    case SegmentUnavailable =>
    case Segmented(_, crops) =>
      if |crops| > 0 {
        var cs := CropsScan(cache, crops, o);
        CropsScanAllowed(cache, crops, o);
        FlattenAllowed(cs.outcomes);
        DedupeAllowed(Flatten(cs.outcomes), DedupeKey);
      }
  }

  // ---------------------------------------------------------------------------
  // Deep scan: first occurrences, in crop order
  // ---------------------------------------------------------------------------

  /**
   * When no crop raised, the items are the first occurrence of each non-empty
   * name key over all crops' items in crop order, and no two of them share a key.
   */
  lemma DeepScanFirsts(cache: map<string, CacheRow>, imagePath: string, o: Oracles)
    requires o.segment(imagePath).Segmented? && |o.segment(imagePath).cropPaths| > 0
    ensures var cs := CropsScan(cache, o.segment(imagePath).cropPaths, o);
      var run := DeepScan(cache, imagePath, o).run;
      && (run.outcome.Returned? <==> FirstFailure(cs.outcomes).None?)
      && (run.outcome.Returned? ==>
            var items := run.outcome.result.items;
            && items == Firsts(Flatten(cs.outcomes), DedupeKey)
            && forall i, j :: 0 <= i < j < |items| ==> DedupeKey(items[i]) != DedupeKey(items[j]))
  {
    var cs := CropsScan(cache, o.segment(imagePath).cropPaths, o);
    DedupeIsFirsts(Flatten(cs.outcomes), DedupeKey);
    DedupeDistinct(Flatten(cs.outcomes), DedupeKey);
  }

  /** A crop that cannot be read makes the deep scan raise that crop's error, the first in crop order. */
  lemma DeepScanRaises(cache: map<string, CacheRow>, imagePath: string, o: Oracles, i: int)
    requires o.segment(imagePath).Segmented?
    requires var cs := CropsScan(cache, o.segment(imagePath).cropPaths, o);
      0 <= i < |cs.outcomes| && cs.outcomes[i].CropFailed?
      && forall j :: 0 <= j < i ==> cs.outcomes[j].CropItems?
    ensures var cs := CropsScan(cache, o.segment(imagePath).cropPaths, o);
      DeepScan(cache, imagePath, o).run.outcome == Raised(OtherError(cs.outcomes[i].message))
  {
    var cs := CropsScan(cache, o.segment(imagePath).cropPaths, o);
    FirstFailureAt(cs.outcomes, i);
  }

  // ---------------------------------------------------------------------------
  // Deep scan: the empty answers
  // ---------------------------------------------------------------------------

  /** Every crop is classified as non-food. */
  predicate AllNonFood(crops: seq<string>, o: Oracles) {
    forall i :: 0 <= i < |crops| ==>
      o.classify(DeepModel, crops[i]).Label? && IsNonFood(o.classify(DeepModel, crops[i]).text)
  }

  /** Non-food crops add no items and no cache rows. */
  lemma {:induction false} CropsScanNonFood(cache: map<string, CacheRow>, crops: seq<string>, o: Oracles)
    requires AllNonFood(crops, o)
    ensures var r := CropsScan(cache, crops, o);
      && r.cache == cache && Flatten(r.outcomes) == []
      && forall j :: 0 <= j < |r.outcomes| ==> r.outcomes[j] == CropItems([])
    decreases |crops|
  {
    if |crops| > 0 {
      var init := crops[..|crops| - 1];
      assert AllNonFood(init, o) by {
        forall i | 0 <= i < |init| ensures init[i] == crops[i] { }
      }
      CropsScanNonFood(cache, init, o);
      var b := CropsScan(cache, init, o);
      var r := CropsScan(cache, crops, o);
      assert r.outcomes == b.outcomes + [CropItems([])];
      assert r.outcomes[..|r.outcomes| - 1] == b.outcomes;
    }
  }

  /**
   * Segmentation with no crops, or with every crop non-food: no items, zero
   * totals, the annotated image still reported, and the matching label.
   */
  lemma DeepScanEmpty(cache: map<string, CacheRow>, imagePath: string, o: Oracles)
    requires o.segment(imagePath).Segmented? && AllNonFood(o.segment(imagePath).cropPaths, o)
    ensures var seg := o.segment(imagePath);
      var s := DeepScan(cache, imagePath, o);
      && s.run.outcome.Returned? && s.run.outcome.result.items == [] && s.run.outcome.result.totals == Zero
      && s.run.outcome.result.annotatedImagePath == Some(o.copyAnnotated(seg.annotatedPath))
      && s.run.outcome.result.originalLabel == (if seg.cropPaths == [] then NoSegmentsLabel else NoEdibleLabel)
      && s.cache == cache
  {
    var crops := o.segment(imagePath).cropPaths;
    if |crops| > 0 {
      CropsScanNonFood(cache, crops, o);
    }
  }
}
