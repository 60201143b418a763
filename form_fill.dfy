/**
 * The Datalab form fill worker: the file checks, the polling budget, the
 * request it sends, and the record it builds from the SDK's answer or the
 * error it raises instead.
 *
 * The SDK client and its `fill` call are oracles.
 */
module FormFill {
  import opened Wrappers
  import opened PyStr
  import opened PyPath
  import opened Datalab

  const Prefix: string := "FORM_FILL"
  const TimeoutCategory: string := "FORM_FILL_TIMEOUT"
  const UnknownFillError: string := "Unknown form fill error"

  /** The suffixes a form can have, in sorted order (the order the error message lists them in). */
  const SupportedExtensions: seq<string> := [".docx", ".jpeg", ".jpg", ".pdf", ".png", ".tif", ".tiff"]

  /** `", ".join(xs)`. */
  function JoinComma(xs: seq<string>): string {
    if |xs| == 0 then ""
    else if |xs| == 1 then xs[0]
    else xs[0] + ", " + JoinComma(xs[1..])
  }

  /**
   * `validate_file`: an existing regular file whose lowered suffix is a
   * supported one, checked in that order; every failure names the resolved path.
   */
  function ValidateFile(filePath: string, f: LocalFile): (r: Result<string, WorkerError>)
    ensures r.Ok? <==> f.status.Regular? && Lower(Suffix(f.resolved)) in SupportedExtensions
    ensures r.Ok? ==> r.value == f.resolved
    ensures r.Err? ==> r.error.FileFailure? && r.error.filePath == f.resolved
    ensures !f.status.Regular? ==> r.Err? && Some(r.error) == CheckExists(filePath, f.resolved, f.status)
  {
    match CheckExists(filePath, f.resolved, f.status)
    case Some(e) => Err(e)
    case None =>
      var ext := Suffix(f.resolved);
      if Lower(ext) !in SupportedExtensions then
        Err(FileFailure("Unsupported file type for form filling: " + ext + ". Supported: " + JoinComma(SupportedExtensions), f.resolved))
      else Ok(f.resolved)
  }

  /** The SDK polls every this many seconds. */
  const PollInterval: int := 3
  const MinPolls: int := 30

  /**
   * `max(timeout // 3, 30)`: never fewer than 30 polls, and never fewer than
   * the polls that fit in the timeout.
   */
  function MaxPolls(timeout: int): (r: int)
    ensures r >= MinPolls
    ensures r * PollInterval > timeout - PollInterval
    ensures r == MinPolls || r * PollInterval <= timeout
  {
    var q := timeout / PollInterval;
    if q > MinPolls then q else MinPolls
  }

  /** The request handed to `client.fill`. */
  datatype FillRequest = FillRequest(
    filePath: string, fields: seq<string>, confidenceThreshold: real,
    context: Option<string>, pageRange: Option<string>, maxPolls: int, pollInterval: int)

  /** An optional CLI string is passed on only when it is non-empty. */
  function IfSet(s: Option<string>): (r: Option<string>)
    ensures r.Some? <==> s.Some? && s.value != ""
    ensures r.Some? ==> r == s
  {
    if s.Some? && s.value != "" then s else None
  }

  function Request(path: string, fields: seq<string>, threshold: real, context: Option<string>,
                   pageRange: Option<string>, timeout: int): FillRequest {
    FillRequest(path, fields, threshold, IfSet(context), IfSet(pageRange), MaxPolls(timeout), PollInterval)
  }

  /** The SDK's answer; an attribute it lacks is `None`. `success` is `None` when it is not a boolean. */
  datatype FillResponse = FillResponse(
    success: Option<bool>, error: Option<string>, outputBase64: Option<string>,
    fieldsFilled: Option<seq<string>>, fieldsNotFound: Option<seq<string>>, pageCount: Option<int>,
    costBreakdown: Option<map<string, Option<real>>>)

  datatype FormFillResult = FormFillResult(
    id: string, sourceFilePath: string, sourceFileHash: string, outputBase64: Option<string>,
    fieldsFilled: seq<string>, fieldsNotFound: seq<string>, pageCount: Option<int>,
    costCents: Option<real>, status: string, error: Option<string>)

  /** `d.get(k)` where a stored `None` reads as absent. */
  function Lookup(d: map<string, Option<real>>, k: string): Option<real> {
    if k in d then d[k] else None
  }

  /** The cost: `final_cost_cents` when set, otherwise `total_cost_cents`, otherwise none. */
  function CostCents(breakdown: Option<map<string, Option<real>>>): (r: Option<real>)
    ensures var d := breakdown.GetOr(map[]);
      (Lookup(d, "final_cost_cents").Some? ==> r == Lookup(d, "final_cost_cents"))
      && (Lookup(d, "final_cost_cents").None? ==> r == Lookup(d, "total_cost_cents"))
    ensures breakdown.None? ==> r.None?
  {
    var d := breakdown.GetOr(map[]);
    var cost := Lookup(d, "final_cost_cents");
    if cost.None? then Lookup(d, "total_cost_cents") else cost
  }

  /** The record built from the SDK's answer once the call returned. */
  function Record(id: string, path: string, hash: string, fields: seq<string>, res: FillResponse): FormFillResult {
    if res.success != Some(true) then
      var message := if res.error.None? || res.error.value == "" then UnknownFillError else res.error.value;
      FormFillResult(id, path, hash, None, [], fields, None, None, "failed", Some(message))
    else
      FormFillResult(id, path, hash, res.outputBase64, res.fieldsFilled.GetOr([]), res.fieldsNotFound.GetOr([]),
                     res.pageCount, CostCents(res.costBreakdown), "complete", None)
  }

  /**
   * Anything but an explicit `success` of true is a failure record: nothing
   * filled, every requested field not found, no output, pages or cost, and a
   * non-empty error; a complete record carries no error.
   */
  lemma RecordOutcome(id: string, path: string, hash: string, fields: seq<string>, res: FillResponse)
    ensures var r := Record(id, path, hash, fields, res);
      (r.status == "failed" <==> res.success != Some(true))
      && (r.status == "failed" || r.status == "complete")
      && (r.error.Some? <==> r.status == "failed")
      && (r.status == "failed" ==>
            r.fieldsFilled == [] && r.fieldsNotFound == fields && r.outputBase64.None?
            && r.pageCount.None? && r.costCents.None? && r.error.value != ""
            && (res.error.Some? && res.error.value != "" ==> r.error == res.error))
      && (r.status == "complete" ==> r.costCents == CostCents(res.costBreakdown))
      && r.id == id && r.sourceFilePath == path && r.sourceFileHash == hash
  {
  }

  /** The worker error raised for an SDK exception inside the `try`, naming the validated path for file errors. */
  function MapException(e: SdkError, path: string): (r: WorkerError)
    ensures e.TimeoutError? <==> r.Categorized?
    ensures e.FileError? <==> r.FileFailure?
    ensures r.FileFailure? ==> r.filePath == path
    ensures r.ApiFailure? || r.FileFailure? || r.Categorized?
  {
    match e
    case ApiError(st, m) => ApiFailure(m, StatusOf(st))
    case TimeoutError(m) => Categorized(m, TimeoutCategory)
    case FileError(m) => FileFailure(m, path)
    case ValidationError(m) => ApiFailure("Invalid input: " + m, 400)
    case Unexpected(_, m) => ApiFailure(m, 500)
  }

  /**
   * The reported category of each mapped exception: an API error keeps its
   * status (500 when it has none), a timeout is `FORM_FILL_TIMEOUT`, a
   * validation error is a 400 API error, anything unexpected a server error.
   */
  lemma ExceptionCategories(e: SdkError, path: string)
    ensures var r := MapException(e, path);
      (e.ApiError? ==> r.ApiFailure? && r.status == StatusOf(e.status))
      && (e.ApiError? && e.status.None? ==> Category(Prefix, r) == "FORM_FILL_SERVER_ERROR")
      && (e.TimeoutError? ==> Category(Prefix, r) == TimeoutCategory)
      && (e.FileError? ==> Category(Prefix, r) == "FORM_FILL_FILE_ERROR")
      && (e.ValidationError? ==> r.ApiFailure? && r.status == 400 && Category(Prefix, r) == "FORM_FILL_API_ERROR")
      && (e.Unexpected? ==> Category(Prefix, r) == "FORM_FILL_SERVER_ERROR")
  {
  }

  /**
   * `fill_form`: validate the file and the key (their errors propagate as
   * they are), then create the client, call `fill` and build the record,
   * mapping any SDK exception.
   */
  function FillForm(filePath: string, fields: seq<string>, context: Option<string>, threshold: real,
                    pageRange: Option<string>, timeout: int, f: LocalFile, env: Option<string>, resultId: string,
                    clientError: Option<SdkError>, fill: FillRequest -> Result<FillResponse, SdkError>)
    : (r: Result<FormFillResult, WorkerError>)
    ensures !f.status.Regular? ==> r.Err? && r.error.FileFailure? && r.error.filePath == f.resolved
    ensures ValidateFile(filePath, f).Err? ==> r == Err(ValidateFile(filePath, f).error)
    ensures ValidateFile(filePath, f).Ok? && ApiKey(env).Err? ==> r == Err(ApiKey(env).error)
    ensures r.Ok? ==> (r.value.sourceFilePath == f.resolved && r.value.sourceFileHash == FileHash(f.hexDigest)
      && r.value.id == resultId)
    ensures var q := Request(f.resolved, fields, threshold, context, pageRange, timeout);
      r.Ok? ==> clientError.None? && fill(q).Ok? && r.value == Record(resultId, f.resolved, FileHash(f.hexDigest), fields, fill(q).value)
    ensures ValidateFile(filePath, f).Ok? && ApiKey(env).Ok? && clientError.Some? ==> r == Err(MapException(clientError.value, f.resolved))
    ensures var q := Request(f.resolved, fields, threshold, context, pageRange, timeout);
      ValidateFile(filePath, f).Ok? && ApiKey(env).Ok? && clientError.None? && fill(q).Err? ==> r == Err(MapException(fill(q).error, f.resolved))
  {
    match ValidateFile(filePath, f)
    case Err(e) => Err(e)
    case Ok(path) =>
      match ApiKey(env)
      case Err(e) => Err(e)
      case Ok(_) =>
        if clientError.Some? then Err(MapException(clientError.value, path))
        else match fill(Request(path, fields, threshold, context, pageRange, timeout))
          case Err(e) => Err(MapException(e, path))
          case Ok(res) => Ok(Record(resultId, path, FileHash(f.hexDigest), fields, res))
  }

  /** The request sent for a valid file carries the polling budget and only the non-empty options. */
  lemma RequestSent(path: string, fields: seq<string>, threshold: real, context: Option<string>,
                    pageRange: Option<string>, timeout: int)
    ensures var q := Request(path, fields, threshold, context, pageRange, timeout);
      q.maxPolls >= MinPolls && q.pollInterval == PollInterval
      && (q.context.Some? <==> context.Some? && context.value != "")
      && (q.pageRange.Some? <==> pageRange.Some? && pageRange.value != "")
      && q.filePath == path && q.fields == fields
  {
  }
}
