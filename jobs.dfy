/**
 * The job side of backend/main.py: the in-memory job registry with its event
 * logs, the background job that runs the pipeline and stores the meal, and the
 * validation of an upload before its job is created.
 */
module Jobs {
  import opened Wrappers
  import opened PyStr
  import opened Meals
  import opened Database
  import opened Pipeline

  const DeepScanUnavailableMsg := "Deep Scan engine is currently unavailable. Please use Fast Scan."

  // ---------------------------------------------------------------------------
  // Events and jobs
  // ---------------------------------------------------------------------------

  /** A job's `status`: `"running"`, `"done"` or `"error"`. */
  datatype Status = Running | Done | Errored

  /**
   * The dictionary _build_upload_payload returns. `annotatedImagePath` is the
   * path behind `annotated_image_url`, present only when the result had a
   * non-empty annotated path; the URL strings and `regions` are not carried.
   */
  datatype Payload = Payload(
    mealId: int,
    imagePath: string,
    totals: Macros,
    items: seq<Item>,
    originalLabel: string,
    annotatedImagePath: Option<string>)

  /** The `{"type", "data"}` entries of a job's `events` list. */
  datatype Event =
    | ProgressEvent(stage: string, progress: int)
    | ResultEvent(payload: Payload)
    | ErrorEvent(message: string)

  /** `event_type in ("result", "error")` */
  predicate Terminal(e: Event) {
    e.ResultEvent? || e.ErrorEvent?
  }

  /** The status after _add_job_event appends `e`. */
  function StatusAfter(s: Status, e: Event): Status {
    match e
    case ResultEvent(_) => Done
    case ErrorEvent(_) => Errored
    case ProgressEvent(_, _) => s
  }

  datatype Job = Job(status: Status, events: seq<Event>)

  /** The status after appending each of `events` in turn. */
  function StatusOfLog(s: Status, events: seq<Event>): Status
    decreases |events|
  {
    if |events| == 0 then s else StatusAfter(StatusOfLog(s, events[..|events| - 1]), events[|events| - 1])
  }

  /** The last terminal event of a log, if there is one. */
  function LastTerminal(events: seq<Event>): (r: Option<Event>)
    ensures r.Some? ==> Terminal(r.value) && r.value in events
    ensures r.None? <==> forall i :: 0 <= i < |events| ==> !Terminal(events[i])
    decreases |events|
  {
    if |events| == 0 then None
    else if Terminal(events[|events| - 1]) then Some(events[|events| - 1])
    else
      var r := LastTerminal(events[..|events| - 1]);
      assert forall i :: 0 <= i < |events| - 1 ==> events[..|events| - 1][i] == events[i];
      r
  }

  /**
   * A job's status is decided by its last terminal event alone: `"done"` for a
   * result, `"error"` for an error, and the starting status when there is none.
   * Appending after a terminal event is not refused, so a later terminal event
   * overrides an earlier one.
   */
  lemma {:induction false} StatusFollowsLastTerminal(s: Status, events: seq<Event>)
    ensures StatusOfLog(s, events) ==
      match LastTerminal(events)
      case None => s
      case Some(t) => if t.ResultEvent? then Done else Errored
    decreases |events|
  {
    if |events| > 0 {
      StatusFollowsLastTerminal(s, events[..|events| - 1]);
    }
  }

  /**
   * _add_job_event on the registry's map: nothing for an unknown id; otherwise
   * the event goes at the end of that job's log and the status follows it.
   */
  function AddEvent(jobs: map<string, Job>, jobId: string, e: Event): map<string, Job> {
    if jobId in jobs then
      var job := jobs[jobId];
      jobs[jobId := Job(StatusAfter(job.status, e), job.events + [e])]
    else jobs
  }

  /**
   * _add_job_event changes nothing for an unknown id; otherwise it appends the
   * event to that job's log, updates its status, and leaves every other job alone.
   */
  lemma AddEventFacts(jobs: map<string, Job>, jobId: string, e: Event)
    ensures var r := AddEvent(jobs, jobId, e);
      && r.Keys == jobs.Keys
      && (jobId !in jobs ==> r == jobs)
      && (jobId in jobs ==> r[jobId] == Job(StatusAfter(jobs[jobId].status, e), jobs[jobId].events + [e]))
      && (forall id :: id in jobs && id != jobId ==> r[id] == jobs[id])
  {
  }

  /** _add_job_event for each of `events` in turn. */
  function AddEvents(jobs: map<string, Job>, jobId: string, events: seq<Event>): map<string, Job>
    decreases |events|
  {
    if |events| == 0 then jobs
    else AddEvent(AddEvents(jobs, jobId, events[..|events| - 1]), jobId, events[|events| - 1])
  }

  /** A run of appends extends one job's log by exactly those events and touches no other job. */
  lemma {:induction false} AddEventsFacts(jobs: map<string, Job>, jobId: string, events: seq<Event>)
    ensures AddEvents(jobs, jobId, events).Keys == jobs.Keys
    ensures jobId !in jobs ==> AddEvents(jobs, jobId, events) == jobs
    ensures jobId in jobs ==>
      AddEvents(jobs, jobId, events)[jobId] == Job(StatusOfLog(jobs[jobId].status, events), jobs[jobId].events + events)
    ensures forall id :: id in jobs && id != jobId ==> AddEvents(jobs, jobId, events)[id] == jobs[id]
    decreases |events|
  {
    if |events| > 0 {
      var init := events[..|events| - 1];
      AddEventsFacts(jobs, jobId, init);
      AddEventFacts(AddEvents(jobs, jobId, init), jobId, events[|events| - 1]);
      if jobId in jobs {
        assert jobs[jobId].events + init + [events[|events| - 1]] == jobs[jobId].events + events;
      }
    }
  }

  lemma AddEventsSnoc(jobs: map<string, Job>, jobId: string, events: seq<Event>, e: Event)
    ensures AddEvents(jobs, jobId, events + [e]) == AddEvent(AddEvents(jobs, jobId, events), jobId, e)
  {
    assert (events + [e])[..|events|] == events;
  }

  /** The `_jobs` dictionary. */
  class JobRegistry {
    var jobs: map<string, Job>

    constructor ()
      ensures jobs == map[]
    {
      jobs := map[];
    }

    /** _add_job_event */
    method AddJobEvent(jobId: string, e: Event)
      modifies this
      ensures jobs == AddEvent(old(jobs), jobId, e)
    {
      if jobId in jobs {
        var job := jobs[jobId];
        var status := job.status;
        if Terminal(e) {
          status := if e.ResultEvent? then Done else Errored;
        }
        jobs := jobs[jobId := Job(status, job.events + [e])];
      }
    }

    /** `_jobs[job_id] = {"status": "running", "events": []}` */
    method CreateJob(jobId: string)
      modifies this
      ensures jobs == old(jobs)[jobId := Job(Running, [])]
    {
      jobs := jobs[jobId := Job(Running, [])];
    }
  }

  // ---------------------------------------------------------------------------
  // _build_upload_payload
  // ---------------------------------------------------------------------------

  /** `annotated_path_str or str(path)`: the annotated image when there is one, else the upload. */
  function ImageForDb(path: string, res: PipelineResult): string {
    if Truthy(res.annotatedImagePath) then res.annotatedImagePath.value else path
  }

  /** `result.get("original_label") or (items[0]["name"] if items else "")` */
  function FirstLabel(res: PipelineResult): string {
    if res.originalLabel != "" then res.originalLabel
    else if |res.items| > 0 then res.items[0].name
    else ""
  }

  /** `items[0]["name"] if items else ""` */
  function CorrectedLabel(res: PipelineResult): string {
    if |res.items| > 0 then res.items[0].name else ""
  }

  /** The `uploads` row that _build_upload_payload inserts for a result. */
  function UploadFor(path: string, res: PipelineResult, mealId: int): Upload {
    Upload(mealId, Some(ImageForDb(path, res)), Some(FirstLabel(res)), Some(CorrectedLabel(res)),
           res.totals, Some(res.rawResponse))
  }

  /** The payload for a result stored under `mealId`. */
  function PayloadFor(path: string, res: PipelineResult, mealId: int): Payload {
    Payload(mealId, ImageForDb(path, res), res.totals, res.items, res.originalLabel,
            if Truthy(res.annotatedImagePath) then res.annotatedImagePath else None)
  }

  /**
   * The choices _build_upload_payload makes: the stored image is the annotated
   * one when there is one; the corrected label is the first item's name, or
   * empty without items; the original label falls back to that name only when
   * the result's own label is empty; the payload repeats the stored image, the
   * totals and the items.
   */
  lemma UploadSelection(path: string, res: PipelineResult, mealId: int)
    ensures var u := UploadFor(path, res, mealId);
      && u.id == mealId && u.totals == res.totals && u.rawResponse == Some(res.rawResponse)
      && u.imagePath == Some(if Truthy(res.annotatedImagePath) then res.annotatedImagePath.value else path)
      && (res.items == [] ==> u.correctedLabel == Some(""))
      && (res.items != [] ==> u.correctedLabel == Some(res.items[0].name))
      && (res.originalLabel != "" ==> u.originalLabel == Some(res.originalLabel))
      && (res.originalLabel == "" ==> u.originalLabel == u.correctedLabel)
    ensures var p := PayloadFor(path, res, mealId);
      && p.mealId == mealId && Some(p.imagePath) == UploadFor(path, res, mealId).imagePath
      && p.totals == res.totals && p.items == res.items && p.originalLabel == res.originalLabel
      && (p.annotatedImagePath.Some? <==> Truthy(res.annotatedImagePath))
  {
  }

  /**
   * _build_upload_payload: one `uploads` row under the next id, then the
   * result's items as that meal's item rows, which read back unchanged.
   */
  method BuildUploadPayload(db: Database, path: string, res: PipelineResult) returns (payload: Payload)
    requires db.Valid()
    modifies db`uploads, db`nextUploadId, db`mealItems
    ensures db.Valid()
    ensures payload == PayloadFor(path, res, old(db.nextUploadId))
    ensures db.nextUploadId == old(db.nextUploadId) + 1
    ensures db.uploads == old(db.uploads) + [UploadFor(path, res, payload.mealId)]
    ensures FindUpload(db.uploads, payload.mealId) == Some(UploadFor(path, res, payload.mealId))
    ensures db.mealItems == old(db.mealItems) + ItemRows(payload.mealId, AllFields(res.items))
    ensures db.GetMealItems(payload.mealId) == old(db.GetMealItems(payload.mealId)) + res.items
  {
    var imagePath := ImageForDb(path, res);
    var firstLabel := FirstLabel(res);
    var correctedLabel := CorrectedLabel(res);
    var mealId := db.InsertUpload(Some(imagePath), Some(firstLabel), Some(correctedLabel), res.totals, Some(res.rawResponse));
    ghost var before := db.GetMealItems(mealId);
    db.InsertMealItems(mealId, AllFields(res.items));
    RowItemsOfFields(res.items);
    var annotated := if Truthy(res.annotatedImagePath) then res.annotatedImagePath else None;
    payload := Payload(mealId, imagePath, res.totals, res.items, res.originalLabel, annotated);
  }

  // ---------------------------------------------------------------------------
  // _run_job
  // ---------------------------------------------------------------------------

  function ProgressEvents(ps: seq<Progress>): (r: seq<Event>)
    ensures |r| == |ps|
    ensures forall i :: 0 <= i < |ps| ==> r[i] == ProgressEvent(ps[i].stage, ps[i].percent)
    decreases |ps|
  {
    if |ps| == 0 then []
    else ProgressEvents(ps[..|ps| - 1]) + [ProgressEvent(ps[|ps| - 1].stage, ps[|ps| - 1].percent)]
  }

  lemma ProgressEventsPrefix(ps: seq<Progress>, i: int)
    requires 0 <= i < |ps|
    ensures ProgressEvents(ps[..i + 1]) == ProgressEvents(ps[..i]) + [ProgressEvent(ps[i].stage, ps[i].percent)]
  {
    assert ps[..i + 1][..i] == ps[..i];
  }

  /** The event that ends a job: the payload on success, the fixed message for an unavailable segmenter, else the exception's text. */
  function TerminalEvent(outcome: Outcome, path: string, mealId: int): Event {
    match outcome
    case Returned(res) => ResultEvent(PayloadFor(path, res, mealId))
    case Raised(SegmentServiceUnavailable) => ErrorEvent(DeepScanUnavailableMsg)
    case Raised(OtherError(message)) => ErrorEvent(message)
  }

  /** Everything _run_job appends: the pipeline's progress reports, then one terminal event. */
  function JobEvents(run: PipelineRun, path: string, mealId: int): seq<Event> {
    ProgressEvents(run.progress) + [TerminalEvent(run.outcome, path, mealId)]
  }

  /**
   * A job's events are the progress reports in order and exactly one terminal
   * event, last: a result exactly when the pipeline returned.
   */
  lemma JobEventsShape(run: PipelineRun, path: string, mealId: int)
    ensures var evs := JobEvents(run, path, mealId);
      && |evs| == |run.progress| + 1
      && (forall i :: 0 <= i < |run.progress| ==> evs[i] == ProgressEvent(run.progress[i].stage, run.progress[i].percent))
      && (forall i :: 0 <= i < |evs| - 1 ==> !Terminal(evs[i]))
      && Terminal(evs[|evs| - 1])
      && (evs[|evs| - 1].ResultEvent? <==> run.outcome.Returned?)
      && (run.outcome == Raised(SegmentServiceUnavailable) ==> evs[|evs| - 1] == ErrorEvent(DeepScanUnavailableMsg))
      && (forall m :: run.outcome == Raised(OtherError(m)) ==> evs[|evs| - 1] == ErrorEvent(m))
  {
  }

  /**
   * After _run_job, a job that was registered has its old events, the new ones,
   * and the status its terminal event gives; every other job is as it was.
   */
  lemma RunJobStatus(jobs: map<string, Job>, jobId: string, run: PipelineRun, path: string, mealId: int)
    requires jobId in jobs
    ensures var r := AddEvents(jobs, jobId, JobEvents(run, path, mealId));
      && jobId in r
      && r[jobId].events == jobs[jobId].events + JobEvents(run, path, mealId)
      && r[jobId].status == (if run.outcome.Returned? then Done else Errored)
      && forall id :: id in jobs && id != jobId ==> id in r && r[id] == jobs[id]
  {
    var evs := JobEvents(run, path, mealId);
    AddEventsFacts(jobs, jobId, evs);
    JobEventsShape(run, path, mealId);
    StatusFollowsLastTerminal(jobs[jobId].status, evs);
  }

  /** The progress callback: one progress event per report, in order. */
  method ReportProgress(reg: JobRegistry, jobId: string, ps: seq<Progress>)
    modifies reg
    ensures reg.jobs == AddEvents(old(reg.jobs), jobId, ProgressEvents(ps))
  {
    ghost var jobs0 := reg.jobs;
    var evs := ProgressEvents(ps);
    for i := 0 to |evs|
      invariant reg.jobs == AddEvents(jobs0, jobId, evs[..i])
    {
      assert evs[..i + 1] == evs[..i] + [evs[i]];
      AddEventsSnoc(jobs0, jobId, evs[..i], evs[i]);
      reg.AddJobEvent(jobId, evs[i]);
    }
    assert evs[..|evs|] == evs;
  }

  /**
   * The end of _run_job's `try`: a returned result is stored and becomes the
   * result event; an exception becomes the error event and nothing is stored.
   */
  method StoreOutcome(db: Database, path: string, outcome: Outcome) returns (e: Event)
    requires db.Valid()
    modifies db`uploads, db`nextUploadId, db`mealItems
    ensures db.Valid()
    ensures e == TerminalEvent(outcome, path, old(db.nextUploadId))
    ensures outcome.Returned? ==>
      && db.uploads == old(db.uploads) + [UploadFor(path, outcome.result, old(db.nextUploadId))]
      && db.mealItems == old(db.mealItems) + ItemRows(old(db.nextUploadId), AllFields(outcome.result.items))
      && db.GetMealItems(old(db.nextUploadId)) == old(db.GetMealItems(db.nextUploadId)) + outcome.result.items
      && db.nextUploadId == old(db.nextUploadId) + 1
    ensures outcome.Raised? ==>
      db.uploads == old(db.uploads) && db.mealItems == old(db.mealItems) && db.nextUploadId == old(db.nextUploadId)
  {
    match outcome {
      case Returned(res) =>
        var payload := BuildUploadPayload(db, path, res);
        e := ResultEvent(payload);
      case Raised(SegmentServiceUnavailable) =>
        e := ErrorEvent(DeepScanUnavailableMsg);
      case Raised(OtherError(message)) =>
        e := ErrorEvent(message);
    }
  }

  /**
   * _run_job: the pipeline's reports become progress events, then the result is
   * stored and reported, or the exception becomes the one error event.
   */
  method RunJob(reg: JobRegistry, db: Database, jobId: string, path: string, scanMode: string, o: Oracles)
    requires db.Valid()
    modifies reg, db
    ensures db.Valid()
    ensures db.foodCache == PipelineScan(old(db.foodCache), path, scanMode, o).cache
    ensures reg.jobs ==
      AddEvents(old(reg.jobs), jobId, JobEvents(PipelineScan(old(db.foodCache), path, scanMode, o).run, path, old(db.nextUploadId)))
    ensures var outcome := PipelineScan(old(db.foodCache), path, scanMode, o).run.outcome;
      outcome.Returned? ==>
        && db.uploads == old(db.uploads) + [UploadFor(path, outcome.result, old(db.nextUploadId))]
        && db.mealItems == old(db.mealItems) + ItemRows(old(db.nextUploadId), AllFields(outcome.result.items))
        && db.GetMealItems(old(db.nextUploadId)) == old(db.GetMealItems(db.nextUploadId)) + outcome.result.items
        && db.nextUploadId == old(db.nextUploadId) + 1
    ensures PipelineScan(old(db.foodCache), path, scanMode, o).run.outcome.Raised? ==>
      db.uploads == old(db.uploads) && db.mealItems == old(db.mealItems) && db.nextUploadId == old(db.nextUploadId)
  {
    ghost var jobs0 := reg.jobs;
    ghost var ups, n, rows := db.uploads, db.nextUploadId, db.mealItems;
    assert ValidStore(ups, n);
    var run := RunPipeline(db, path, scanMode, o);
    assert db.uploads == ups && db.nextUploadId == n && db.mealItems == rows;
    ReportProgress(reg, jobId, run.progress);
    var e := StoreOutcome(db, path, run.outcome);
    AddEventsSnoc(jobs0, jobId, ProgressEvents(run.progress), e);
    reg.AddJobEvent(jobId, e);
  }

  // ---------------------------------------------------------------------------
  // upload_and_analyze: validation and job creation
  // ---------------------------------------------------------------------------

  /** An `HTTPException`: status code and detail. */
  datatype HttpError = HttpError(status: int, detail: string)

  /** `(scan_mode or "fast").strip().lower()`, with anything but fast or deep becoming fast. */
  function NormalizeScanMode(scanMode: string): (r: string)
    ensures r == "fast" || r == "deep"
  {
    var m := Lower(Strip(if scanMode == "" then "fast" else scanMode));
    if m == "deep" then "deep" else "fast"
  }

  /** A mode name, and the empty string, is already trimmed and lower-case. */
  lemma ModeNormal(s: string)
    requires s == "fast" || s == "deep" || s == ""
    ensures Lower(Strip(s)) == s
  {
    assert Stripped(s);
    StripNoop(s);
    assert forall i :: 0 <= i < |s| ==> !('A' <= s[i] <= 'Z');
    LowerNoop(s);
  }

  /** The two modes are already trimmed and lower-case, and so is the empty string. */
  lemma ModesNormal()
    ensures Lower(Strip("fast")) == "fast" && Lower(Strip("deep")) == "deep" && Lower(Strip("")) == ""
  {
    ModeNormal("fast");
    ModeNormal("deep");
    ModeNormal("");
  }

  /** Only a mode that reads "deep" once trimmed and lower-cased selects the deep scan; normalising twice changes nothing. */
  lemma NormalizeScanModeFacts(scanMode: string)
    ensures NormalizeScanMode(scanMode) == "deep" <==> Lower(Strip(scanMode)) == "deep"
    ensures NormalizeScanMode(NormalizeScanMode(scanMode)) == NormalizeScanMode(scanMode)
  {
    ModesNormal();
    var m := NormalizeScanMode(scanMode);
    if scanMode == "" {
      assert m == "fast";
    }
    if m == "deep" {
      assert NormalizeScanMode(m) == "deep";
    } else {
      assert m == "fast";
      assert NormalizeScanMode(m) == "fast";
    }
  }

  /** A started job: its id and the scan mode its thread runs with. */
  datatype Started = Started(jobId: string, scanMode: string)

  /** `file.content_type and file.content_type.startswith("image/")` */
  predicate IsImageType(contentType: Option<string>) {
    Truthy(contentType) && StartsWith(contentType.value, "image/")
  }

  /**
   * The checks of upload_and_analyze in their order: the content type must
   * start with "image/"; a deep scan needs a non-blank DEEP_SCAN_API_URL; the
   * file must be saved. `deepUrl` is the variable's value ("" when unset),
   * `saveError` the text of the exception saving raised, if any.
   */
  function UploadCheck(contentType: Option<string>, scanMode: string, deepUrl: string, saveError: Option<string>): Result<string, HttpError> {
    if !IsImageType(contentType) then Failure(HttpError(400, "File must be an image"))
    else
      var mode := NormalizeScanMode(scanMode);
      if mode == "deep" && Strip(deepUrl) == "" then Failure(HttpError(503, DeepScanUnavailableMsg))
      else if saveError.Some? then Failure(HttpError(500, "Failed to save file: " + saveError.value))
      else Success(mode)
  }

  /**
   * What the checks promise: a non-image is refused with 400 whatever else holds;
   * an image sent for a deep scan without the service URL is refused with 503;
   * an accepted upload runs in fast or deep mode, deep only when asked for.
   */
  lemma UploadCheckFacts(contentType: Option<string>, scanMode: string, deepUrl: string, saveError: Option<string>)
    ensures var r := UploadCheck(contentType, scanMode, deepUrl, saveError);
      && (!(contentType.Some? && StartsWith(contentType.value, "image/")) ==> r == Failure(HttpError(400, "File must be an image")))
      && (contentType.Some? && StartsWith(contentType.value, "image/") && Lower(Strip(scanMode)) == "deep" && Strip(deepUrl) == "" ==>
            r == Failure(HttpError(503, DeepScanUnavailableMsg)))
      && (r.Success? ==> (r.value == "deep" <==> Lower(Strip(scanMode)) == "deep") && (r.value == "fast" || r.value == "deep"))
      && (r.Success? <==>
            contentType.Some? && StartsWith(contentType.value, "image/") && saveError.None?
            && !(Lower(Strip(scanMode)) == "deep" && Strip(deepUrl) == ""))
  {
    NormalizeScanModeFacts(scanMode);
    var image := contentType.Some? && StartsWith(contentType.value, "image/");
    if image {
      assert |contentType.value| >= 6;
      assert Truthy(contentType);
    }
    var deepNoUrl := Lower(Strip(scanMode)) == "deep" && Strip(deepUrl) == "";
    var r := UploadCheck(contentType, scanMode, deepUrl, saveError);
    if !image {
      assert r == Failure(HttpError(400, "File must be an image"));
    } else if deepNoUrl {
      assert r == Failure(HttpError(503, DeepScanUnavailableMsg));
    } else {
      assert r.Success? <==> saveError.None?;
    }
  }

  /**
   * upload_and_analyze up to starting the thread: a new job, running with no
   * events, only when every check passed. `jobId` is the fresh `uuid4().hex`.
   */
  method UploadAndAnalyze(reg: JobRegistry, contentType: Option<string>, scanMode: string, deepUrl: string,
                          saveError: Option<string>, jobId: string) returns (r: Result<Started, HttpError>)
    modifies reg
    ensures r == match UploadCheck(contentType, scanMode, deepUrl, saveError)
      case Success(mode) => Success(Started(jobId, mode))
      case Failure(e) => Failure(e)
    ensures reg.jobs == if r.Success? then old(reg.jobs)[jobId := Job(Running, [])] else old(reg.jobs)
  {
    if !IsImageType(contentType) {
      return Failure(HttpError(400, "File must be an image"));
    }
    var mode := NormalizeScanMode(scanMode);
    if mode == "deep" {
      var apiUrl := Strip(deepUrl);
      if apiUrl == "" {
        return Failure(HttpError(503, DeepScanUnavailableMsg));
      }
    }
    if saveError.Some? {
      return Failure(HttpError(500, "Failed to save file: " + saveError.value));
    }
    reg.CreateJob(jobId);
    r := Success(Started(jobId, mode));
  }
}
