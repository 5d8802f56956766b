# FoodVision backend core, modelled in Dafny

FoodVision takes a photo of a meal and works out its items and their calories, protein, carbohydrates and fat. The model covers three parts of the Python backend:

- **The store** (`backend/database.py`). It models `normalize_food_name`, which turns a free-text label into the key used for cache lookups and deduplication. It also models the three SQLite tables as in-memory state of a `Database` class: `food_cache` is a map from key to row, while `uploads` and `meal_items` are sequences in rowid order, with an AUTOINCREMENT counter.
- **The recognition pipeline** (`backend/pipeline.py`). This covers:
  - the non-food "trapdoor" (a blocklist check);
  - the USDA query with its retry on the last word of the label;
  - the cache-then-fetch lookup `get_macros_for_food`;
  - the fast scan, which makes one lookup per comma-separated label;
  - the deep scan, which segments the image into crops, classifies each crop, and keeps the first occurrence of every normalised name.

  The vision classifier, the segmentation service, the USDA search and the copy of the annotated image are oracles, passed in as the `Oracles` value.
- **The job side of the API** (`backend/main.py`):
  - the `_jobs` registry of `{status, events}`, modelled as the class `JobRegistry`;
  - the background job `_run_job`;
  - the validation of an upload;
  - the server-sent-event stream of a job's events;
  - the correction endpoint.

## How it is organised

- `wrappers.dfy`: `Option` and `Result`.
- `pystr.dfy`: the parts of Python's `str` that the backend relies on, written out:
  - `strip()` with Python's notion of whitespace, and `strip("_")`;
  - ASCII `lower()` and `upper()`;
  - `replace` of one character;
  - `re.sub("_+", "_", s)`;
  - `split(",")`, `split()`, `join`, `in`, and `str(int)`.
- `meals.dfy`: macros, items, and the element-wise totals.
- `database.dfy`: `normalize_food_name` and the `Database` class.
- `pipeline.dfy`: the pipeline. Each operation comes in two forms:
  - a specification function of the cache it starts from (`LookupFood`, `FastScan`, `CropScan`, `DeepScan`);
  - an imperative method with the source's loops, proved equal to that function (`GetMacrosForFood`, `RunFastScan`, `ProcessSingleCrop`, `CollectItems`, `RunDeepScan`).
- `pipeline_props.dfy`: what the two scans promise, proved about the specification functions.
- `jobs.dfy`: the job registry, `_build_upload_payload`, `_run_job` and `upload_and_analyze`.
- `stream.dfy`: the `event_stream` loop of `job_progress_sse`, against a specification function of the event log and the sequence of polls.
- `correction.dfy`: `correct_meal`.

### Modelling choices

- **Outside calls.** I/O and outside services are parameters:
  - the classifier answer per image and model;
  - the segmentation answer;
  - the USDA answer per query;
  - whether saving the upload failed;
  - the value of `DEEP_SCAN_API_URL`;
  - what each poll of the stream sees.
- **Progress reports.** `run_pipeline`'s progress callback is modelled as the sequence of reports it makes. `RunJob` appends those reports to the job's log in order, followed by the terminal event.
- **The stream's timer.** The stream sleeps 0.2 s and adds 0.2 to `waited` while `waited < 150`. In IEEE doubles that sum first reaches 150 on the 750th addition, so the loop makes at most `PollBudget = 750` polls. Each poll is a `Poll(present, seen, stopped)`:
  - whether the job is still registered;
  - how long a prefix of the log it sees;
  - whether the status check after forwarding finds the job no longer running.

  The polls are assumed to see a growing log (`Growing`).
- **Behaviour kept as the code has it.**
  - The deep scan reports progress at 5, 40 and 100 only (backend/pipeline.py:352, 380, 370/410/422).
  - `regions` is `[]` in every answer of the pipeline (backend/pipeline.py:308, 339, 375, 415, 435).
  - The fast scan's non-food answer returns right after the 45 checkpoint, with no "Done" report (backend/pipeline.py:301-311).
  - A crop whose image cannot be read makes the whole deep scan raise that crop's error. The earliest failing crop wins, because `executor.map` yields in input order (backend/pipeline.py:400-402).

## Model

| member | source | states |
|---|---|---|
| Database.NormalizeFoodName | backend/database.py:8-14 | the key is empty exactly when there is no text or the text is empty |
| Database.NormalizeFoodNameIsKey | backend/database.py:12-14 | a non-empty key is lower case, has no blank, no hyphen, no `__` and no `_` at either end |
| Database.SeparatorsOnlyIsUnknown | backend/database.py:12-14 | a non-empty text of blanks, hyphens and underscores only normalises to `"unknown"` |
| Database.NormalizeKey | backend/database.py:12-14 | a key with no surrounding whitespace normalises to itself |
| Database.NormalizeIdempotent | backend/database.py:12-14 | normalising a key again (as the deep-scan dedupe does) returns it unchanged, provided it has no surrounding whitespace |
| Database.RowItem | backend/database.py:160-173 | a missing name is stored as `""`, a missing quantity as 1, missing macros as 0, and fields that are given are stored as given |
| Database.Fields | backend/database.py:160-173 | the complete item dictionary built by the pipeline is stored as exactly that item |
| Database.RowItemsOfFields | backend/database.py:183-196 | storing complete item dictionaries and reading them back gives the items unchanged, in order |
| Database.ItemsOfAppend | backend/database.py:204-207 | a meal's items in rowid order over appended rows are its items in the first rows followed by those in the second |
| Database.ItemsOfWithoutMeal | backend/database.py:159 | after deleting one meal's item rows that meal has no items and every other meal keeps its items |
| Database.ItemsOfItemRows | backend/database.py:160-173 | the rows inserted for one meal read back as the given items for that meal and as nothing for any other |
| Database.FindUpload | backend/database.py:134-140 | the lookup by id finds a row exactly when some row has that id, and the row it finds has that id |
| Database.FindUploadAppended | backend/database.py:124-131 | a row appended under an id no other row has is the one the lookup finds |
| Database.SetCorrection | backend/database.py:154-158 | the update sets label and totals on the rows with that id and leaves every other row unchanged |
| Database.WithoutUpload | backend/database.py:264 | the rows left are exactly the old rows without that id |
| Database.WithoutUploadIncreasing | backend/database.py:264 | deleting rows keeps the ids increasing in rowid order |
| Database.ImagePaths | backend/database.py:273-275 | a path is returned exactly when it is some row's non-empty image path, and never an empty one |
| Database.ImagePathsAppend | backend/database.py:275 | the paths come in row order: those of earlier rows before those of later ones |
| Database.HistoryRows | backend/database.py:228-231 | at most `limit` rows (all of them for a negative limit), newest first |
| Database.Database.constructor | backend/database.py:23-70 | a fresh store has three empty tables and the id counter at 1 |
| Database.Database.InsertFoodCache | backend/database.py:85-109 | upsert: the key then gives exactly the new row and every other key is unchanged |
| Database.Database.InsertUpload | backend/database.py:112-131 | the row is appended under the next id, which is returned, and the lookup by that id finds it |
| Database.Database.GetMeal | backend/database.py:134-140 | a meal is found exactly when an upload row has that id |
| Database.Database.UpdateMealCorrection | backend/database.py:143-175 | label and totals of the meal are set, its items are exactly the given ones in order, and every other meal's items are untouched |
| Database.Database.InsertMealItems | backend/database.py:178-198 | an empty list changes nothing; otherwise the meal's items gain the given ones at the end and other meals are untouched |
| Database.Database.GetHistory | backend/database.py:225-252 | at most `limit` entries, newest first, each carrying its meal's row and its items in insertion order |
| Database.Database.DeleteMeal | backend/database.py:255-267 | the upload and all its items are removed and at most one (non-empty) image path is returned |
| Database.Database.ClearHistory | backend/database.py:270-280 | both tables become empty and every non-empty image path is returned |
| Meals.TotalsAppend | backend/pipeline.py:328-333 | the totals of two item lists together are the element-wise sum of their totals |
| Meals.TotalsSingle | backend/main.py:229-234 | the totals of a single item are its macros |
| Meals.TotalsPair | backend/pipeline.py:313-333 | two items with the same macros (a duplicated fast-scan label) count twice in the totals |
| Pipeline.FoodKey | backend/pipeline.py:238-240 | the lookup key is never empty: the normalised label, or `"unknown"` when that is empty |
| Pipeline.FoodKeyIsKey | backend/pipeline.py:238-240 | every lookup key has the normalised shape |
| Pipeline.TrapdoorIffBlockedKey | backend/pipeline.py:37-41 | the trapdoor fires exactly when the label's lookup key is in the blocklist, which makes an empty normalised label fire too |
| Pipeline.TrapdoorOnSeparators | backend/pipeline.py:37-41 | a label made only of blanks, hyphens and underscores is always trapped |
| Pipeline.HumanLabel | backend/pipeline.py:219 | the human-readable query is empty only for an empty label |
| Pipeline.FallbackQuery | backend/pipeline.py:223-225 | the second query, when there is one, is a single whitespace-free word |
| Pipeline.FetchMacrosFromUsda | backend/pipeline.py:185-234 | when the first answer is all zero and the last-word query gives a non-zero one, the label, values and raw response all come from that second answer and the result is complete; otherwise all three come from the first answer, incomplete exactly when it is all zero |
| Pipeline.FetchIncompleteIff | backend/pipeline.py:222-232 | incomplete exactly when the first answer is all zero and there is no second word or its answer is all zero too |
| Pipeline.LookupFood | backend/pipeline.py:237-280 | the item is named by the lookup key with the given quantity; on a hit its macros are the cached per-100 g values times the quantity, with no raw text and not incomplete; on a miss they are the fetched values times the quantity |
| Pipeline.CacheAfter | backend/pipeline.py:242-267 | a hit leaves the cache as it is; a miss stores the fetched row, even an all-zero one, under the key |
| Pipeline.PutKeeps | backend/database.py:96-107 | inserting a new key keeps every other row and adds only that key |
| Pipeline.CacheAfterKeeps | backend/pipeline.py:258-267 | a lookup never changes or drops a cached row and adds at most the label's key |
| Pipeline.SecondLookupHits | backend/pipeline.py:242-256 | a second lookup of a label with the same key is a hit that gives the same item as the first |
| Pipeline.GetMacrosForFood | backend/pipeline.py:237-280 | the method answers `LookupFood` of the cache it started from and leaves the cache `CacheAfter` says |
| Pipeline.LookupAll | backend/pipeline.py:316-324 | one item per label |
| Pipeline.LookupAllKeeps | backend/pipeline.py:316-324 | a run of lookups keeps every cached row and adds only the labels' keys |
| Pipeline.LookupAllAt | backend/pipeline.py:317-324 | item `i` is named by label `i`'s key at quantity 1 with the macros the final cache holds for that key |
| Pipeline.LookupAllFacts | backend/pipeline.py:317-324 | the same, for every item at once |
| Pipeline.LookupStep | backend/pipeline.py:319 | after a lookup the cache holds the key, with the macros just returned |
| Pipeline.LookupAllSameKey | backend/pipeline.py:313-324 | two labels with the same key give items with the same macros |
| Pipeline.StrippedNonEmpty | backend/pipeline.py:313 | the kept pieces are non-empty and stripped, and there are no more of them than pieces |
| Pipeline.StrippedNonEmptyNoComma | backend/pipeline.py:313 | stripping pieces that contain no comma leaves pieces that contain no comma |
| Pipeline.SplitLabels | backend/pipeline.py:313 | every fast-scan label is non-empty, stripped and contains no comma |
| Pipeline.LookupPercentBounds | backend/pipeline.py:318 | the per-label percentages start at 50, never decrease and stay at or below 94 |
| Pipeline.LookupProgress | backend/pipeline.py:317-318 | one "Looking up nutrition" report per label, `50 + floor(j*45/n)` for label `j` |
| Pipeline.FastProgressMonotone | backend/pipeline.py:298-326 | the fast scan's checkpoints 10, 45, the per-label ones and 100 never decrease and stay within [10, 100] |
| Pipeline.EmptyResult | backend/pipeline.py:304-311 | an empty answer has no items and zero totals, which are the sum over its items |
| Pipeline.LookupLabels | backend/pipeline.py:316-324 | the loop's items and cache are those of `LookupAll`, with one progress report per label |
| Pipeline.RunFastScan | backend/pipeline.py:298-342 | the method's reports, answer and cache are those of `FastScan` |
| Pipeline.KeptLabels | backend/pipeline.py:386-389 | no more labels are kept than given |
| Pipeline.KeptLabelsExact | backend/pipeline.py:386-389 | a label is kept exactly when it is one of the crop's labels with a non-empty key that does not trip the trapdoor |
| Pipeline.KeptLabelsPass | backend/pipeline.py:386-389 | no kept label trips the trapdoor |
| Pipeline.LookupKeptLabels | backend/pipeline.py:386-395 | the crop loop's items and cache are those of looking up the kept labels in order |
| Pipeline.ProcessSingleCrop | backend/pipeline.py:382-396 | the method's answer and cache are those of `CropScan` |
| Pipeline.CropsScan | backend/pipeline.py:400-402 | one outcome per crop, in crop order |
| Pipeline.ProcessCrops | backend/pipeline.py:400-402 | the crops are processed in input order, with the outcomes and cache of `CropsScan` |
| Pipeline.FirstFailure | backend/pipeline.py:401-402 | there is no failure exactly when every crop gave items |
| Pipeline.FirstFailureAt | backend/pipeline.py:401-402 | the failure reported is the earliest crop's error |
| Pipeline.DedupeSeen | backend/pipeline.py:403-407 | a key is seen exactly when it is non-empty and some item has it |
| Pipeline.DedupeIsFirsts | backend/pipeline.py:398-407 | the dedupe loop keeps exactly the first item of each key, in order |
| Pipeline.DedupeDistinct | backend/pipeline.py:403-407 | the kept items have pairwise distinct, non-empty, seen keys |
| Pipeline.DedupeFromItems | backend/pipeline.py:403-407 | every kept item comes from the input |
| Pipeline.DedupeAppend | backend/pipeline.py:402-407 | deduplicating crop after crop is deduplicating the concatenated items |
| Pipeline.CollectCrop | backend/pipeline.py:403-407 | the inner loop continues the dedupe over one crop's items |
| Pipeline.CollectItems | backend/pipeline.py:398-407 | the collection raises the first failing crop's error, and otherwise gives the dedupe of all items in crop order |
| Pipeline.Names | backend/pipeline.py:420 | the names of the items, in order |
| Pipeline.DeepResult | backend/pipeline.py:409-438 | no items gives the "No edible food" answer; otherwise the label is the names joined by ", "; the totals are always the sum and the annotated path is kept |
| Pipeline.RunDeepScan | backend/pipeline.py:345-438 | the method's reports, answer and cache are those of `DeepScan` |
| Pipeline.RunPipeline | backend/pipeline.py:283-296 | the mode `"deep"` runs the deep scan and any other mode the fast scan |
| PipelineProps.ScanSummed | backend/pipeline.py:328-333 | every returned answer of either scan has totals equal to the element-wise sum of its items |
| PipelineProps.FastScanProgress | backend/pipeline.py:298-326 | the fast scan reports at least once, first 10, never decreasing, within [10, 100] |
| PipelineProps.DeepScanProgress | backend/pipeline.py:352-422 | the deep scan reports 5 first, never decreases, and reports only 5, 40 and 100 |
| PipelineProps.DeepCheckpoints | backend/pipeline.py:352-422 | each of the four report sequences the deep scan can make has those properties |
| PipelineProps.ScanProgress | backend/pipeline.py:283-422 | both scans report at least once, never decreasing, within [5, 100] |
| PipelineProps.ScanDoneLast | backend/pipeline.py:283-422 | a raising run reports no "Done"; every returned answer ends with ("Done", 100), except a fast scan whose classifier text contains NON_FOOD in any case |
| PipelineProps.ScanKeepsCache | backend/pipeline.py:258-267 | no scan changes or drops a cached row |
| PipelineProps.FastScanNonFood | backend/pipeline.py:303-311 | a classifier answer containing NON_FOOD in any case gives no items, zero totals, the label "Non-Food Item Detected", and no cache change |
| PipelineProps.FastScanItems | backend/pipeline.py:313-342 | one item per label, in order, named by its key at quantity 1 with the cached per-100 g macros; no blocklist is applied |
| PipelineProps.FastScanDuplicates | backend/pipeline.py:313-324 | duplicate labels are kept and get the same macros |
| PipelineProps.CropScanKeeps | backend/pipeline.py:382-396 | a crop never changes or drops a cached row |
| PipelineProps.CropsScanKeeps | backend/pipeline.py:400-402 | neither does a run over all crops |
| PipelineProps.LookupKeptAllowed | backend/pipeline.py:386-395 | no item of a crop is named by a blocklisted key |
| PipelineProps.CropScanAllowed | backend/pipeline.py:382-396 | every crop's items avoid the blocklist |
| PipelineProps.CropsScanAllowed | backend/pipeline.py:400-402 | so do the items of every crop of a run |
| PipelineProps.FlattenAllowed | backend/pipeline.py:402-403 | and their concatenation |
| PipelineProps.DedupeAllowed | backend/pipeline.py:403-407 | and what the dedupe keeps |
| PipelineProps.DeepScanAllowed | backend/pipeline.py:345-438 | no item of a deep-scan answer is named by a blocklisted key |
| PipelineProps.DeepScanFirsts | backend/pipeline.py:398-407 | a deep scan over crops returns exactly when no crop failed; its items are the first occurrences by normalised name in crop order, pairwise distinct |
| PipelineProps.DeepScanRaises | backend/pipeline.py:400-402 | the deep scan raises the first failing crop's error |
| PipelineProps.CropsScanNonFood | backend/pipeline.py:385 | crops all answered NON_FOOD add no items and leave the cache alone |
| PipelineProps.DeepScanEmpty | backend/pipeline.py:369-418 | no crops, or only non-food crops, give empty items, zero totals, the copied annotated image and the matching label, with the cache unchanged |
| Jobs.LastTerminal | backend/main.py:37-38 | the last terminal event of a log, absent exactly when the log has none |
| Jobs.StatusFollowsLastTerminal | backend/main.py:37-38 | the status is set by the last result or error event, `"done"` or `"error"`; later events are not rejected and progress events leave it alone |
| Jobs.AddEventFacts | backend/main.py:33-38 | an unknown id changes nothing; otherwise the event goes at the end of that job's log, its status follows it, and no other job changes |
| Jobs.AddEventsFacts | backend/main.py:33-38 | appending several events: the log gains them in order and the status follows the log |
| Jobs.JobRegistry.constructor | backend/main.py:29 | the registry starts empty |
| Jobs.JobRegistry.AddJobEvent | backend/main.py:33-38 | the registry becomes `AddEvent` of the old one |
| Jobs.JobRegistry.CreateJob | backend/main.py:154-156 | a new job is `"running"` with no events |
| Jobs.UploadSelection | backend/main.py:61-106 | the stored image is the annotated one if any, else the upload; the corrected label is the first item's name or `""`; the original label falls back to it |
| Jobs.BuildUploadPayload | backend/main.py:61-106 | one uploads row under the next id, the next id advanced by one, the result's items stored as that meal's items and read back unchanged, and the payload of that id |
| Jobs.ProgressEvents | backend/main.py:113-114 | one progress event per report, in order |
| Jobs.JobEventsShape | backend/main.py:112-123 | a job appends its reports, then exactly one terminal event, last: a result exactly when the pipeline returned; the fixed message for an unavailable segmenter, else the exception's text |
| Jobs.RunJobStatus | backend/main.py:112-123 | after the job its status is `"done"` or `"error"` as the pipeline returned or raised, and no other job changes |
| Jobs.ReportProgress | backend/main.py:113-117 | the reports are appended to the job's log in order |
| Jobs.StoreOutcome | backend/main.py:116-123 | a returned result adds one uploads row and its item rows under the next id, advances the id and becomes the result event; an exception stores nothing and becomes the error event with the fixed or the exception's message |
| Jobs.RunJob | backend/main.py:112-123 | the registry gains exactly the job's events for the pipeline run and the cache is the pipeline's; a returned run stores its uploads row and items under the next id, a raising one stores nothing |
| Jobs.NormalizeScanMode | backend/main.py:134-136 | the mode is always `"fast"` or `"deep"` |
| Jobs.ModesNormal | backend/main.py:134 | `"fast"`, `"deep"` and `""` are unchanged by strip and lower |
| Jobs.NormalizeScanModeFacts | backend/main.py:134-136 | deep exactly when the stripped lower-cased mode is `"deep"`; normalising twice changes nothing |
| Jobs.UploadCheckFacts | backend/main.py:131-152 | a non-image is a 400; a deep scan without a service URL is a 503; any other success carries the normalised mode |
| Jobs.UploadAndAnalyze | backend/main.py:126-161 | a rejected upload creates no job; an accepted one creates one `"running"` job with no events and returns its id and mode |
| Stream.Visible | backend/main.py:181-182 | a poll sees a prefix of the log |
| Stream.Pending | backend/main.py:183 | the unsent events are those from the cursor on |
| Stream.UpToTerminal | backend/main.py:183-188 | forwarding stops right after the first terminal event, or sends everything when there is none |
| Stream.Forward | backend/main.py:183-189 | the inner loop sends the unsent events up to and including the first terminal one, and says whether it met one |
| Stream.EventStream | backend/main.py:170-193 | the loop sends exactly `StreamOf` of the log and the polls |
| Stream.StreamFromShaped | backend/main.py:175-193 | from any poll on, the stream is a prefix of the log from the cursor, ending at its first terminal event or followed by the timeout error |
| Stream.StreamPrefixOfLog | backend/main.py:171-193 | a subscriber gets the log's events from index 0 in order, none twice, stopping right after the first terminal event or ending with "Request timed out" |
| Stream.StreamTimesOut | backend/main.py:175-193 | a log without a terminal event always ends the stream with the timeout error |
| Stream.LateSubscriber | backend/main.py:171-186 | every event already buffered at the first poll is sent, from index 0, up to the first terminal one |
| Stream.OpenStream | backend/main.py:164-168 | an unknown job is a 404 |
| Correction.CorrectionShape | backend/main.py:221-234 | the corrected meal has exactly one item, named by the label's key at quantity 1, and its totals are that item's macros |
| Correction.SetCorrectionFound | backend/database.py:154-158 | after the update, the meal the lookup finds carries the new label and totals |
| Correction.StoreCorrection | backend/main.py:236-244 | the meal's label and totals become the item's name and macros, its items exactly that item, and other meals keep theirs |
| Correction.ApplyCorrection | backend/main.py:221-244 | one lookup, then the meal's label, totals and items replaced by the single item |
| Correction.CorrectMeal | backend/main.py:211-250 | 400 for a label that is blank once stripped, 404 for an unknown meal, nothing written on an error; a non-blank label on an existing meal always succeeds, and then the meal's items are exactly the one looked-up item |
| Correction.CorrectedRow | backend/main.py:236-244 | the stored meal keeps its image and original label and gets the new label and totals |

## Left out

- **Concurrency.** Threads, `_jobs_lock`, the `ThreadPoolExecutor`, `asyncio.sleep` and daemon workers are not modelled. The model is one sequential run. The progress events of a job are appended in report order; the moment at which they interleave with a subscriber's polls is what `Poll.seen` describes.
- **Cancelled crops.** `Pipeline.CropsScan` runs every crop to the end. In the source, once a crop raises, the iterator of `executor.map` cancels the crops that have not started (at most 10 run at a time). After a failing deep scan with more than 10 crops, the real food cache may therefore hold fewer rows than the model's. The raised error and the job's events are the same.
- **The live-list race.** `events_list` is the live list, so `last_sent = len(events_list)` can skip an event appended during a yield. A sequential model cannot show this, and the model's poll takes a snapshot.
- **Shallow oracles.** The classifier (`get_food_label_from_image`), the segmenter (`segment_image_via_hf`), the USDA search (`_query_usda`) and the HTTP requests behind them are oracles. Their own failure handling is part of the oracle's answer.
- **Image helpers.** The image and drawing helpers `segment_food`, `draw_segmentation_on_image` and `image_to_base64` contain no decision logic.
- **File handling.** The copying, the random `uuid` file names and the unlinking of files are not modelled. A crop copy is identified with its original. The annotated copy is the oracle `copyAnnotated`, which always succeeds: a segmenter answer with a missing or `None` annotated path, which makes `Path(...)` or `shutil.copy2` raise and the job end with an error event, is not modelled. The paths that `delete_meal` and `clear_history` return are modelled but not unlinked.
- **Web framing.** The URL strings `image_url`, `annotated_image_url` and `segment_image_url`, the SSE and JSON framing, FastAPI routing, CORS and the SQLite connection handling are not modelled.
- **Other endpoints.** The endpoints `history`, `delete_history_item`, `clear_history_endpoint` and `health` are not modelled. They only wrap the store operations modelled here, add URL strings and unlink files.
- **`regions`.** `regions` is `[]` on every path and is not carried in the result.
- **`created_at`.** It is not modelled. `get_history` orders by insertion, newest first, which agrees with `created_at DESC` except for rows inserted within the same second.
- **Store errors.** Database errors inside `_run_job` (a failing insert turning into an error event) are not modelled. The store operations always succeed.
- **Number precision.** Macros are exact reals, so floating-point rounding is not modelled. The `int` in `int((i / max(1, n)) * 45)` is modelled as the exact floor of `i*45/n`. For a few inputs the float product rounds just below the integer it should be (i = 13, n = 45 gives 12, not 13).
- **NormalizeIdempotent:** stated only for keys with no surrounding whitespace. `strip()` runs before `strip("_")`, so a tab or newline next to a stripped underscore survives into the key, and normalising that key again removes it.
- **PyStr.Lower, PyStr.Upper:** only ASCII letters change case. This is exact for ASCII labels and scan modes. It is not exact for non-ASCII text: Python upper-cases `'ŉon_food'` to `'ʼNON_FOOD'`, which contains `NON_FOOD`, while the model leaves `ŉ` unchanged. Keys of non-ASCII labels can also differ.
- **Stream.EventStream:** what each poll sees is an oracle (`Poll`). The properties assume only that later polls see at least as much of the log (`Growing`).
- **Pipeline.KeptLabels:** its own contract states only the bound on the number of labels. Which labels are kept is proved by `Pipeline.KeptLabelsExact`, and that none trips the trapdoor by `Pipeline.KeptLabelsPass`.
- **Pipeline.LookupAll:** its own contract states only the count. The per-item facts are proved by `Pipeline.LookupAllAt` and `Pipeline.LookupAllFacts`.
