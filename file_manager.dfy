/**
 * The Datalab file manager worker: the mapping of SDK exceptions to the
 * worker's errors, the content-type table, the serialisation of the SDK's
 * file metadata, and the checks each action makes around its SDK call.
 *
 * Every SDK call is an oracle: a `Result` carrying either the response or the
 * exception the SDK raised.
 */
module FileManager {
  import opened Wrappers
  import opened PyStr
  import opened PyPath
  import opened Datalab

  const Prefix: string := "FILE_MANAGER"

  /** A value found in an SDK response or on an SDK object. */
  datatype Value = VNone | VBool(b: bool) | VInt(i: int) | VStr(s: string)

  /** `str(v)`. */
  function Str(v: Value): string {
    match v
    case VNone => "None"
    case VBool(b) => if b then "True" else "False"
    case VInt(i) => IntToDecimal(i)
    case VStr(s) => s
  }

  /** Python truthiness. */
  predicate Truthy(v: Value) {
    match v
    case VNone => false
    case VBool(b) => b
    case VInt(i) => i != 0
    case VStr(s) => s != ""
  }

  /** A dict, as its entries in insertion order. */
  type Dict = seq<(string, Value)>

  /** `d.get(k)`: the value stored under `k`, if any. */
  function Get(d: Dict, k: string): (r: Option<Value>)
    ensures r.Some? <==> exists i :: 0 <= i < |d| && d[i].0 == k
    ensures r.Some? ==> exists i :: 0 <= i < |d| && d[i] == (k, r.value)
  {
    if |d| == 0 then None
    else if d[0].0 == k then Some(d[0].1)
    else
      var r := Get(d[1..], k);
      assert forall i :: 0 <= i < |d| - 1 ==> d[1..][i] == d[i + 1];
      r
  }

  function Keys(d: Dict): (r: seq<string>)
    ensures |r| == |d| && forall i :: 0 <= i < |d| ==> r[i] == d[i].0
  {
    seq(|d|, i requires 0 <= i < |d| => d[i].0)
  }

  /** Appending an entry under a new key leaves every other lookup as it was. */
  lemma {:induction false} GetAppend(d: Dict, x: (string, Value), k: string)
    ensures Get(d + [x], k) == if Get(d, k).Some? then Get(d, k) else if x.0 == k then Some(x.1) else None
  {
    if |d| > 0 {
      assert (d + [x])[1..] == d[1..] + [x];
      GetAppend(d[1..], x, k);
    }
  }

  // ---------------------------------------------------------------------------
  // Exception mapping

  /**
   * `_handle_sdk_exception`: the worker error raised for an SDK exception
   * during `operation`. It always raises; here it returns what it raises.
   */
  function HandleSdkException(e: SdkError, operation: string, context: string): (r: WorkerError)
    ensures r.ApiFailure? || r.FileFailure?
    ensures r.FileFailure? <==> e.FileError?
    ensures r.FileFailure? ==> r.filePath != "" && (context != "" ==> r.filePath == context)
    ensures e.ValidationError? ==> r.status == 400
    ensures e.TimeoutError? ==> r.status == 504
    ensures e.Unexpected? ==> r.status == 500
  {
    match e
    case ValidationError(m) => ApiFailure("Invalid input for " + operation + ": " + m, 400)
    case TimeoutError(m) => ApiFailure(operation + " timeout: " + m, 504)
    case FileError(m) => FileFailure(operation + " file error: " + m, if context == "" then "unknown" else context)
    case ApiError(st, m) =>
      var status := StatusOf(st);
      var lowered := Lower(m);
      if status == 429 || Contains(lowered, "rate limit") then
        ApiFailure("Rate limit exceeded during " + operation + ": " + m, 429)
      else if status == 401 || status == 403 then
        ApiFailure("Authentication error during " + operation + " (" + IntToDecimal(status) + "): " + m, status)
      else if status == 404 || Contains(lowered, "not found") then
        ApiFailure("Not found during " + operation + ": " + m, 404)
      else
        ApiFailure("API error during " + operation + " (" + IntToDecimal(status) + "): " + m, status)
    case Unexpected(_, m) => ApiFailure("SDK " + operation + " failed: " + m, 500)
  }

  /**
   * For an SDK API error the checks run in order: a rate limit (by status or
   * by message) wins, 401 and 403 are kept, then a not-found (by status or by
   * message), and any other status, 500 when the exception has none, is kept.
   */
  lemma ApiErrorStatus(st: Option<int>, m: string, operation: string, context: string)
    ensures var r := HandleSdkException(ApiError(st, m), operation, context);
      var s := StatusOf(st);
      var rateLimited := s == 429 || Contains(Lower(m), "rate limit");
      r.ApiFailure?
      && (r.status == 429 <==> rateLimited)
      && (r.status == 404 <==> !rateLimited && (s == 404 || (Contains(Lower(m), "not found") && s != 401 && s != 403)))
      && (r.status != 429 && r.status != 404 ==> r.status == s)
      && (st.None? && !rateLimited && !Contains(Lower(m), "not found") ==> r.status == 500)
  {
  }

  /** The category of a mapped exception is the server-error one exactly for statuses of 500 and above. */
  lemma HandledCategory(e: SdkError, operation: string, context: string)
    ensures var r := HandleSdkException(e, operation, context);
      (Category(Prefix, r) == "FILE_MANAGER_SERVER_ERROR" <==> r.ApiFailure? && r.status >= 500)
      && (e.FileError? ==> Category(Prefix, r) == "FILE_MANAGER_FILE_ERROR")
  {
    ServerCategoryIff(HandleSdkException(e, operation, context));
  }

  /** Among API and file errors, only an API error of status 500 or more is a server error. */
  lemma ServerCategoryIff(r: WorkerError)
    requires r.ApiFailure? || r.FileFailure?
    ensures Category(Prefix, r) == "FILE_MANAGER_SERVER_ERROR" <==> r.ApiFailure? && r.status >= 500
  {
    if r.ApiFailure? {
      ServerErrorIff(Prefix, r.message, r.status);
    } else {
      assert Category(Prefix, r)[13] != "FILE_MANAGER_SERVER_ERROR"[13];
    }
  }

  /** `get_client`: a client exists only for a usable API key. */
  function GetClient(env: Option<string>): (r: Result<(), WorkerError>)
    ensures r.Ok? <==> ApiKey(env).Ok?
    ensures r.Err? ==> r.error == ApiKey(env).error
  {
    match ApiKey(env)
    case Err(e) => Err(e)
    case Ok(_) => Ok(())
  }

  // ---------------------------------------------------------------------------
  // Content types

  const OctetStream: string := "application/octet-stream"

  /** The suffix-to-content-type table; the suffixes are lower case. */
  const ContentTypes: map<string, string> := map[
    ".pdf" := "application/pdf",
    ".docx" := "application/vnd.openxmlformats-officedocument.wordprocessingml.document",
    ".doc" := "application/msword",
    ".pptx" := "application/vnd.openxmlformats-officedocument.presentationml.presentation",
    ".ppt" := "application/vnd.ms-powerpoint",
    ".xlsx" := "application/vnd.openxmlformats-officedocument.spreadsheetml.sheet",
    ".xls" := "application/vnd.ms-excel",
    ".png" := "image/png",
    ".jpg" := "image/jpeg",
    ".jpeg" := "image/jpeg",
    ".tiff" := "image/tiff",
    ".tif" := "image/tiff",
    ".bmp" := "image/bmp",
    ".gif" := "image/gif",
    ".webp" := "image/webp",
    ".txt" := "text/plain",
    ".csv" := "text/csv",
    ".md" := "text/markdown"
  ]

  /**
   * `get_content_type`: the table entry for the lowered suffix; the generic
   * binary type is given exactly to the suffixes the table lacks.
   */
  function ContentType(path: string): (r: string)
    ensures Lower(Suffix(path)) in ContentTypes ==> r == ContentTypes[Lower(Suffix(path))]
    ensures r == OctetStream <==> Lower(Suffix(path)) !in ContentTypes
  {
    var ext := Lower(Suffix(path));
    TableLacksOctetStream();
    if ext in ContentTypes then ContentTypes[ext] else OctetStream
  }

  /** No suffix in the table is mapped to the generic binary type. */
  lemma TableLacksOctetStream()
    ensures forall k | k in ContentTypes :: ContentTypes[k] != OctetStream
  {
    forall k | k in ContentTypes ensures ContentTypes[k] != OctetStream {
      var v := ContentTypes[k];
      assert |v| != |OctetStream| || v[12] != OctetStream[12];
    }
  }

  // ---------------------------------------------------------------------------
  // File metadata serialisation

  /** An SDK file-metadata item as `list_files` hands it over. */
  datatype SdkObject =
    | DictObject(entries: Dict)
    /** A dataclass: its `asdict` entries, or the `TypeError` `asdict` raises. */
    | DataclassObject(fields: Dict, asdictError: Option<string>)
    /** Anything else: its attributes by name. */
    | PlainObject(attrs: map<string, Value>)

  /** The attributes the fallback copies, in this order. */
  const KnownAttributes: seq<string> :=
    ["file_id", "original_filename", "content_type", "reference", "upload_status", "file_size", "created", "error"]

  /** `getattr(obj, attr, None)`. */
  function Attr(attrs: map<string, Value>, name: string): Value {
    if name in attrs then attrs[name] else VNone
  }

  /** The stored form of an attribute: `file_id` as a string, the rest unchanged. */
  function Stored(name: string, v: Value): Value {
    if name == "file_id" then VStr(Str(v)) else v
  }

  /** The fallback dict after the first `n` known attributes. */
  function Fallback(attrs: map<string, Value>, n: nat): Dict
    requires n <= |KnownAttributes|
  {
    if n == 0 then []
    else
      var d := Fallback(attrs, n - 1);
      var name := KnownAttributes[n - 1];
      var v := Attr(attrs, name);
      if v == VNone then d else d + [(name, Stored(name, v))]
  }

  /**
   * The fallback holds exactly the known attributes that are not `None`,
   * `file_id` stringified and the others as found.
   */
  lemma {:induction false} FallbackMeaning(attrs: map<string, Value>, n: nat, k: string)
    requires n <= |KnownAttributes|
    ensures Get(Fallback(attrs, n), k) ==
      if k in KnownAttributes[..n] && Attr(attrs, k) != VNone then Some(Stored(k, Attr(attrs, k))) else None
  {
    if n > 0 {
      FallbackMeaning(attrs, n - 1, k);
      var name := KnownAttributes[n - 1];
      assert KnownAttributes[..n] == KnownAttributes[..n - 1] + [name];
      if Attr(attrs, name) != VNone {
        GetAppend(Fallback(attrs, n - 1), (name, Stored(name, Attr(attrs, name))), k);
        if k == name {
          NotListedEarlier(n - 1);
        }
      }
    }
  }

  /** A known attribute does not occur again before its own position. */
  lemma NotListedEarlier(i: nat)
    requires i < |KnownAttributes|
    ensures KnownAttributes[i] !in KnownAttributes[..i]
  {
  }

  /** The fallback loop of `_serialize_file_metadata`. */
  method SerializeFallback(attrs: map<string, Value>) returns (d: Dict)
    ensures d == Fallback(attrs, |KnownAttributes|)
  {
    d := [];
    for i := 0 to |KnownAttributes|
      invariant d == Fallback(attrs, i)
    {
      var name := KnownAttributes[i];
      var v := Attr(attrs, name);
      if v != VNone {
        d := d + [(name, Stored(name, v))];
      }
    }
  }

  /** `asdict` followed by `result["file_id"] = str(result["file_id"])` when the key is there. */
  function StringifyFileId(d: Dict): (r: Dict)
    ensures Keys(r) == Keys(d)
    ensures forall i :: 0 <= i < |d| ==> r[i].1 == Stored(d[i].0, d[i].1)
  {
    seq(|d|, i requires 0 <= i < |d| => (d[i].0, Stored(d[i].0, d[i].1)))
  }

  /** Every lookup in the stringified dict is the stored form of the original lookup. */
  lemma {:induction false} StringifyGet(d: Dict, k: string)
    ensures Get(StringifyFileId(d), k) == match Get(d, k) case None => None case Some(v) => Some(Stored(k, v))
  {
    if |d| > 0 {
      StringifyGet(d[1..], k);
      assert StringifyFileId(d)[1..] == StringifyFileId(d[1..]);
    }
  }

  /** `_serialize_file_metadata`: dicts as they are, dataclasses by `asdict`, anything else by the fallback. */
  function Serialize(obj: SdkObject): Result<Dict, WorkerError> {
    match obj
    case DictObject(d) => Ok(d)
    case DataclassObject(fields, err) =>
      if err.Some? then Err(OtherError("TypeError", err.value)) else Ok(StringifyFileId(fields))
    case PlainObject(attrs) => Ok(Fallback(attrs, |KnownAttributes|))
  }

  method SerializeFileMetadata(obj: SdkObject) returns (r: Result<Dict, WorkerError>)
    ensures r == Serialize(obj)
  {
    match obj
    case DictObject(d) =>
      r := Ok(d);
    case DataclassObject(fields, err) =>
      if err.Some? {
        r := Err(OtherError("TypeError", err.value));
      } else {
        r := Ok(StringifyFileId(fields));
      }
    case PlainObject(attrs) =>
      var d := SerializeFallback(attrs);
      r := Ok(d);
  }

  /**
   * A dict passes through untouched; for anything else a serialised
   * `file_id` is always a string, and the fallback never stores `None`.
   */
  lemma SerializedFileId(obj: SdkObject, k: string)
    ensures obj.DictObject? ==> Serialize(obj) == Ok(obj.entries)
    ensures var r := Serialize(obj);
      !obj.DictObject? && r.Ok? && Get(r.value, "file_id").Some? ==> Get(r.value, "file_id").value.VStr?
    ensures var r := Serialize(obj);
      obj.PlainObject? ==> r.Ok? && (Get(r.value, k).Some? <==> k in KnownAttributes && Attr(obj.attrs, k) != VNone)
  {
    match obj
    case DictObject(_) =>
    case DataclassObject(fields, err) =>
      StringifyGet(fields, "file_id");
    case PlainObject(attrs) =>
      FallbackMeaning(attrs, |KnownAttributes|, "file_id");
      FallbackMeaning(attrs, |KnownAttributes|, k);
      assert KnownAttributes[..|KnownAttributes|] == KnownAttributes;
  }

  // ---------------------------------------------------------------------------
  // Actions

  /** `validate_file`: the resolved path of an existing regular file. */
  function ValidateFile(filePath: string, f: LocalFile): (r: Result<string, WorkerError>)
    ensures r.Ok? <==> f.status.Regular?
    ensures r.Ok? ==> r.value == f.resolved
    ensures r.Err? ==> r.error.FileFailure? && r.error.filePath == f.resolved
  {
    match CheckExists(filePath, f.resolved, f.status)
    case Some(e) => Err(e)
    case None => Ok(f.resolved)
  }

  /** The SDK's answer to an upload: its `file_id` and `reference` attributes. */
  datatype UploadResponse = UploadResponse(fileId: Value, reference: Option<string>)

  datatype UploadResult = UploadResult(
    fileId: string, reference: Option<string>, fileName: string, fileHash: string,
    fileSize: nat, contentType: string, status: string, error: Option<string>)

  /**
   * `upload_file`: validate the path, check the key, upload, and reject an
   * empty `file_id`.
   */
  function UploadFile(filePath: string, f: LocalFile, env: Option<string>, upload: Result<UploadResponse, SdkError>)
    : (r: Result<UploadResult, WorkerError>)
    ensures !f.status.Regular? ==> r.Err? && r.error.FileFailure?
    ensures f.status.Regular? && ApiKey(env).Err? ==> r == Err(ApiKey(env).error)
    ensures r.Ok? ==> (r.value.fileId != "" && r.value.status == "complete" && r.value.error.None?
      && r.value.fileName == Name(f.resolved) && r.value.contentType == ContentType(f.resolved)
      && r.value.fileHash == FileHash(f.hexDigest) && r.value.fileSize == f.status.size
      && upload.Ok? && r.value.fileId == Str(upload.value.fileId) && r.value.reference == upload.value.reference)
    ensures f.status.Regular? && ApiKey(env).Ok? && upload.Err? ==>
      r == Err(HandleSdkException(upload.error, "upload", f.resolved))
  {
    match ValidateFile(filePath, f)
    case Err(e) => Err(e)
    case Ok(path) =>
      match GetClient(env)
      case Err(e) => Err(e)
      case Ok(_) =>
        match upload
        case Err(e) => Err(HandleSdkException(e, "upload", path))
        case Ok(resp) =>
          var fileId := Str(resp.fileId);
          if fileId == "" then Err(ApiFailure("SDK returned empty file_id", 500))
          else Ok(UploadResult(fileId, resp.reference, Name(path), FileHash(f.hexDigest),
                               f.status.size, ContentType(path), "complete", None))
  }

  /** The only upload the worker rejects after the SDK accepted it is one with an empty `file_id`. */
  lemma UploadEmptyId(filePath: string, f: LocalFile, env: Option<string>, resp: UploadResponse)
    requires f.status.Regular? && ApiKey(env).Ok?
    ensures UploadFile(filePath, f, env, Ok(resp)).Err? <==> Str(resp.fileId) == ""
    ensures Str(resp.fileId) == "" ==> UploadFile(filePath, f, env, Ok(resp)) == Err(ApiFailure("SDK returned empty file_id", 500))
  {
  }

  /** The SDK's answer to a listing: its `files` and `total` keys, when present. */
  datatype ListResponse = ListResponse(files: Option<seq<SdkObject>>, total: Option<int>)

  datatype FileListResult = FileListResult(files: seq<Dict>, total: int)

  /** The serialised items, or the first serialisation error. */
  function SerializeAll(objs: seq<SdkObject>): (r: Result<seq<Dict>, WorkerError>)
    ensures r.Ok? <==> forall i :: 0 <= i < |objs| ==> Serialize(objs[i]).Ok?
    ensures r.Ok? ==> |r.value| == |objs| && forall i :: 0 <= i < |objs| ==> r.value[i] == Serialize(objs[i]).value
  {
    if |objs| == 0 then Ok([])
    else match Serialize(objs[0])
      case Err(e) => Err(e)
      case Ok(d) =>
        match SerializeAll(objs[1..])
        case Err(e) => Err(e)
        case Ok(rest) => Ok([d] + rest)
  }

  /** `list_files`: serialise every item; `total` defaults to the number of items. */
  function ListFiles(env: Option<string>, call: Result<ListResponse, SdkError>): (r: Result<FileListResult, WorkerError>)
    ensures ApiKey(env).Err? ==> r == Err(ApiKey(env).error)
    ensures r.Ok? ==> (call.Ok? && |r.value.files| == |call.value.files.GetOr([])|
      && r.value.total == call.value.total.GetOr(|r.value.files|)
      && SerializeAll(call.value.files.GetOr([])).Ok? && r.value.files == SerializeAll(call.value.files.GetOr([])).value)
    ensures ApiKey(env).Ok? && call.Err? ==> r == Err(HandleSdkException(call.error, "list_files", ""))
    ensures ApiKey(env).Ok? && call.Ok? && SerializeAll(call.value.files.GetOr([])).Err? ==>
      r == Err(SerializeAll(call.value.files.GetOr([])).error)
  {
    match GetClient(env)
    case Err(e) => Err(e)
    case Ok(_) =>
      match call
      case Err(e) => Err(HandleSdkException(e, "list_files", ""))
      case Ok(data) =>
        match SerializeAll(data.files.GetOr([]))
        case Err(e) => Err(e)
        case Ok(files) => Ok(FileListResult(files, data.total.GetOr(|files|)))
  }

  /** The SDK's file metadata object. */
  datatype FileMeta = FileMeta(
    fileId: Value, originalFilename: Option<string>, fileSize: Option<int>, contentType: Option<string>,
    created: Value, reference: Option<string>, uploadStatus: Option<string>)

  datatype FileInfo = FileInfo(
    fileId: string, fileName: Option<string>, fileSize: Option<int>, contentType: Option<string>,
    createdAt: Option<string>, reference: Option<string>, status: Option<string>)

  /** `get_file`: the metadata with a string `file_id`, and a creation time only when one is set. */
  function GetFile(env: Option<string>, call: Result<FileMeta, SdkError>): (r: Result<FileInfo, WorkerError>)
    ensures ApiKey(env).Err? ==> r == Err(ApiKey(env).error)
    ensures r.Ok? ==> (call.Ok? && r.value.fileId == Str(call.value.fileId)
      && (r.value.createdAt.Some? <==> Truthy(call.value.created))
      && r.value.fileName == call.value.originalFilename && r.value.status == call.value.uploadStatus
      && r.value.fileSize == call.value.fileSize && r.value.contentType == call.value.contentType
      && r.value.reference == call.value.reference
      && (r.value.createdAt.Some? ==> r.value.createdAt.value == Str(call.value.created)))
    ensures ApiKey(env).Ok? ==> (r.Ok? <==> call.Ok?)
    ensures ApiKey(env).Ok? && call.Err? ==> r == Err(HandleSdkException(call.error, "get_file_metadata", ""))
  {
    match GetClient(env)
    case Err(e) => Err(e)
    case Ok(_) =>
      match call
      case Err(e) => Err(HandleSdkException(e, "get_file_metadata", ""))
      case Ok(meta) =>
        Ok(FileInfo(Str(meta.fileId), meta.originalFilename, meta.fileSize, meta.contentType,
                    if Truthy(meta.created) then Some(Str(meta.created)) else None,
                    meta.reference, meta.uploadStatus))
  }

  const MinExpiry: int := 60
  const MaxExpiry: int := 86400

  datatype DownloadUrlResult = DownloadUrlResult(downloadUrl: Value, expiresIn: int, fileId: string)

  /**
   * `get_download_url`: the expiry bounds are checked before any client is
   * made; a response without a usable `download_url` is a server error.
   */
  function GetDownloadUrl(fileId: string, expiresIn: int, env: Option<string>, call: Result<Dict, SdkError>)
    : (r: Result<DownloadUrlResult, WorkerError>)
    ensures r.Ok? ==> MinExpiry <= expiresIn <= MaxExpiry && r.value.expiresIn == expiresIn
    ensures r.Ok? ==> call.Ok? && Get(call.value, "download_url") == Some(r.value.downloadUrl) && Truthy(r.value.downloadUrl)
    ensures r.Ok? ==> r.value.fileId == Str(Get(call.value, "file_id").GetOr(VStr(fileId)))
    ensures MinExpiry <= expiresIn <= MaxExpiry && ApiKey(env).Err? ==> r == Err(ApiKey(env).error)
    ensures MinExpiry <= expiresIn <= MaxExpiry && ApiKey(env).Ok? && call.Err? ==>
      r == Err(HandleSdkException(call.error, "get_download_url", ""))
  {
    if expiresIn < MinExpiry || expiresIn > MaxExpiry then
      Err(ApiFailure("expires_in must be between 60 and 86400 seconds, got " + IntToDecimal(expiresIn), 400))
    else match GetClient(env)
      case Err(e) => Err(e)
      case Ok(_) =>
        match call
        case Err(e) => Err(HandleSdkException(e, "get_download_url", ""))
        case Ok(data) =>
          var url := Get(data, "download_url");
          if url.None? || !Truthy(url.value) then
            Err(ApiFailure("No download_url in SDK response. Keys: " + ListRepr(Keys(data)), 500))
          else
            Ok(DownloadUrlResult(url.value, expiresIn, Str(Get(data, "file_id").GetOr(VStr(fileId)))))
  }

  /** An expiry out of bounds is a 400 whatever the key and the SDK would have done. */
  lemma ExpiryCheckedFirst(fileId: string, expiresIn: int, env1: Option<string>, env2: Option<string>,
                           call1: Result<Dict, SdkError>, call2: Result<Dict, SdkError>)
    requires expiresIn < MinExpiry || expiresIn > MaxExpiry
    ensures GetDownloadUrl(fileId, expiresIn, env1, call1) == GetDownloadUrl(fileId, expiresIn, env2, call2)
    ensures var r := GetDownloadUrl(fileId, expiresIn, env1, call1); r.Err? && r.error.ApiFailure? && r.error.status == 400
  {
  }

  /** A response without a usable `download_url` is a 500, and the file id falls back to the requested one. */
  lemma DownloadUrlResponse(fileId: string, expiresIn: int, env: Option<string>, data: Dict)
    requires MinExpiry <= expiresIn <= MaxExpiry && ApiKey(env).Ok?
    ensures var r := GetDownloadUrl(fileId, expiresIn, env, Ok(data));
      var url := Get(data, "download_url");
      (r.Err? <==> url.None? || !Truthy(url.value))
      && (r.Err? ==> r.error.ApiFailure? && r.error.status == 500)
      && (r.Ok? && Get(data, "file_id").None? ==> r.value.fileId == fileId)
  {
  }

  /** `delete_file`: true, unless the response reports `success` false (a 500). */
  function DeleteFile(env: Option<string>, call: Result<Dict, SdkError>): (r: Result<bool, WorkerError>)
    ensures r.Ok? ==> r.value
    ensures ApiKey(env).Err? ==> r == Err(ApiKey(env).error)
    ensures ApiKey(env).Ok? && call.Ok? ==>
      (r.Err? <==> !Truthy(Get(call.value, "success").GetOr(VBool(true))))
      && (r.Err? ==> r.error.ApiFailure? && r.error.status == 500)
    ensures ApiKey(env).Ok? && call.Err? ==> r == Err(HandleSdkException(call.error, "delete_file", ""))
  {
    match GetClient(env)
    case Err(e) => Err(e)
    case Ok(_) =>
      match call
      case Err(e) => Err(HandleSdkException(e, "delete_file", ""))
      case Ok(result) =>
        if !Truthy(Get(result, "success").GetOr(VBool(true))) then
          Err(ApiFailure("SDK delete returned failure: " + Str(Get(result, "message").GetOr(VStr("unknown"))), 500))
        else Ok(true)
  }
}
