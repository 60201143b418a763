/**
 * What the two Datalab client workers (the file manager and the form filler)
 * have in common: the SDK's exception kinds, the worker's own error classes
 * with their categories, the API key check, and the file checks made before
 * any request.
 */
module Datalab {
  import opened Wrappers
  import opened PyStr

  /**
   * An exception out of the SDK, by class. `ApiError.status` is `None` when
   * the exception carries no `status_code` attribute.
   */
  datatype SdkError =
    | ApiError(status: Option<int>, message: string)
    | TimeoutError(message: string)
    | FileError(message: string)
    | ValidationError(message: string)
    | Unexpected(typeName: string, message: string)

  /** `str(e)`. */
  function Text(e: SdkError): string {
    e.message
  }

  /** `getattr(e, "status_code", 500)`. */
  function StatusOf(status: Option<int>): int {
    status.GetOr(500)
  }

  /**
   * The errors a worker raises: its `...APIError(message, status_code)`, its
   * `...FileError(message, file_path)`, its base error with an explicit
   * category, a plain `ValueError`, and any other Python exception that
   * propagates unchanged; the last two have no category of their own.
   */
  datatype WorkerError =
    | ApiFailure(message: string, status: int)
    | FileFailure(message: string, filePath: string)
    | Categorized(message: string, category: string)
    | ValueError(message: string)
    | OtherError(typeName: string, message: string)

  /**
   * The category the CLI reports for an error of the worker whose category
   * prefix is `prefix` (`FILE_MANAGER` or `FORM_FILL`): API errors split at
   * status 500, and an error without a category gets the default `..._API_ERROR`.
   */
  function Category(prefix: string, e: WorkerError): string {
    match e
    case ApiFailure(_, status) => if status >= 500 then prefix + "_SERVER_ERROR" else prefix + "_API_ERROR"
    case FileFailure(_, _) => prefix + "_FILE_ERROR"
    case Categorized(_, category) => category
    case ValueError(_) => prefix + "_API_ERROR"
    case OtherError(_, _) => prefix + "_API_ERROR"
  }

  /** An API error is a server error exactly when its status is at least 500. */
  lemma ServerErrorIff(prefix: string, message: string, status: int)
    ensures Category(prefix, ApiFailure(message, status)) == prefix + "_SERVER_ERROR" <==> status >= 500
    ensures Category(prefix, ApiFailure(message, status)) == prefix + "_API_ERROR" <==> status < 500
  {
    // the two category texts differ right after the prefix and its underscore
    assert (prefix + "_SERVER_ERROR")[|prefix| + 1] == 'S';
    assert (prefix + "_API_ERROR")[|prefix| + 1] == 'A';
  }

  const PlaceholderKey: string := "your_api_key_here"
  const MissingKeyMessage: string :=
    "DATALAB_API_KEY environment variable is required. Get your key from https://www.datalab.to/settings"
  const PlaceholderKeyMessage: string :=
    "DATALAB_API_KEY is set to placeholder value. Update .env with your actual API key."

  /**
   * The `DATALAB_API_KEY` check made before any client is created: the key
   * must be present, non-empty and not the placeholder.
   */
  function ApiKey(env: Option<string>): (r: Result<string, WorkerError>)
    ensures r.Ok? <==> env.Some? && env.value != "" && env.value != PlaceholderKey
    ensures r.Ok? ==> r.value == env.value
    ensures r.Err? ==> r.error.ValueError?
    ensures r.Err? ==> (r.error.message == PlaceholderKeyMessage <==> env == Some(PlaceholderKey))
  {
    if env.None? || env.value == "" then Err(ValueError(MissingKeyMessage))
    else if env.value == PlaceholderKey then
      assert |MissingKeyMessage| != |PlaceholderKeyMessage|;
      Err(ValueError(PlaceholderKeyMessage))
    else Ok(env.value)
  }

  /** What the file system says about a resolved path. */
  datatype FileStatus = Missing | NotRegular | Regular(size: nat)

  /** The file named on the command line: its resolved path, its status, and its SHA-256 hex digest. */
  datatype LocalFile = LocalFile(resolved: string, status: FileStatus, hexDigest: string)

  /**
   * The first two checks of `validate_file`, reported against the resolved
   * path: the path must exist and must be a regular file.
   */
  function CheckExists(filePath: string, resolved: string, status: FileStatus): (r: Option<WorkerError>)
    ensures r.None? <==> status.Regular?
    ensures r.Some? ==> r.value.FileFailure? && r.value.filePath == resolved
  {
    match status
    case Missing => Some(FileFailure("File not found: " + filePath, resolved))
    case NotRegular => Some(FileFailure("Not a file: " + filePath, resolved))
    case Regular(_) => None
  }

  /** `compute_file_hash`: the SHA-256 hex digest (computed elsewhere) under its `sha256:` tag. */
  function FileHash(hexDigest: string): (r: string)
    ensures StartsWith(r, "sha256:") && r[|"sha256:"|..] == hexDigest
  {
    "sha256:" + hexDigest
  }
}
