/**
 * The embedding worker: device resolution, the one-slot model cache, batch
 * embedding with out-of-memory backoff, and the fail-soft result records.
 *
 * The sentence-transformers model is an oracle: constructing it on a device gives a
 * model or an error, and encoding a list of texts with a batch size either succeeds
 * (one row per text, as wide as the model's dimension) or raises a tagged error.
 * A row is represented by the text it embeds; vector values are not modelled.
 */
module Embedding {
  import opened Wrappers
  import opened PyStr
  import opened GpuUtils

  const EmbeddingDim := 768
  const ModelName := "nomic-embed-text-v1.5"
  const ModelVersion := "1.5.0"
  const PrefixDocument := "search_document: "
  const PrefixQuery := "search_query: "
  const DefaultBatchSize := 512
  const MinBatchSize := 1
  const DefaultDevice := "auto"
  /** The batch size sentence-transformers uses when none is passed (query embedding). */
  const LibraryBatchSize := 32

  // ---------------------------------------------------------------------------
  // Device resolution
  // ---------------------------------------------------------------------------

  /**
   * `resolve_device`: "auto" picks CUDA over MPS over CPU; a CUDA or MPS request
   * falls back to "auto" when that accelerator is absent; anything else is kept.
   */
  function ResolveDevice(requested: string, cuda: bool, mps: bool): string
    decreases if requested == "auto" then 0 else 1
  {
    if requested == "auto" then
      if cuda then "cuda:0" else if mps then "mps" else "cpu"
    else if StartsWith(requested, "cuda") then
      if cuda then requested else ResolveDevice("auto", cuda, mps)
    else if requested == "mps" then
      if mps then "mps" else ResolveDevice("auto", cuda, mps)
    else requested
  }

  /** Automatic selection agrees with the diagnostics' best-device choice when torch is present. */
  lemma ResolveAutoIsBestDevice(cuda: bool, mps: bool, stInstalled: bool)
    ensures ResolveDevice("auto", cuda, mps) == DetectBestDevice(Host(true, stInstalled, cuda, mps))
    ensures ResolveDevice("auto", cuda, mps) == (if cuda then "cuda:0" else if mps then "mps" else "cpu")
  {
  }

  /** A CUDA request is honoured verbatim when CUDA is present, else it becomes automatic selection. */
  lemma ResolveCudaRequest(requested: string, cuda: bool, mps: bool)
    requires StartsWith(requested, "cuda")
    ensures cuda ==> ResolveDevice(requested, cuda, mps) == requested
    ensures !cuda ==> ResolveDevice(requested, cuda, mps) == ResolveDevice("auto", cuda, mps)
    ensures !cuda ==> ResolveDevice(requested, cuda, mps) in {"mps", "cpu"}
  {
    assert requested[0] == 'c' != "auto"[0];
  }

  /** An MPS request is honoured when MPS is present, else it becomes automatic selection. */
  lemma ResolveMpsRequest(cuda: bool, mps: bool)
    ensures mps ==> ResolveDevice("mps", cuda, mps) == "mps"
    ensures !mps ==> ResolveDevice("mps", cuda, mps) == ResolveDevice("auto", cuda, mps)
    ensures !mps ==> ResolveDevice("mps", cuda, mps) in {"cuda:0", "cpu"}
  {
  }

  /** Any other request, such as "cpu" or "xpu:0", is passed through unchanged. */
  lemma ResolveOtherRequest(requested: string, cuda: bool, mps: bool)
    requires requested != "auto" && requested != "mps" && !StartsWith(requested, "cuda")
    ensures ResolveDevice(requested, cuda, mps) == requested
  {
  }

  /**
   * A resolved device is never "auto" and never names an accelerator the host lacks:
   * a CUDA name only when CUDA is present, "mps" only when MPS is present.
   */
  lemma ResolvedDeviceIsUsable(requested: string, cuda: bool, mps: bool)
    ensures ResolveDevice(requested, cuda, mps) != "auto"
    ensures StartsWith(ResolveDevice(requested, cuda, mps), "cuda") ==> cuda
    ensures ResolveDevice(requested, cuda, mps) == "mps" ==> mps
  {
  }

  /** Resolving an already resolved device changes nothing. */
  lemma ResolveIdempotent(requested: string, cuda: bool, mps: bool)
    ensures ResolveDevice(ResolveDevice(requested, cuda, mps), cuda, mps) == ResolveDevice(requested, cuda, mps)
  {
    ResolvedDeviceIsUsable(requested, cuda, mps);
  }

  // ---------------------------------------------------------------------------
  // The model oracle and the cache
  // ---------------------------------------------------------------------------

  /** A loaded model, as far as the worker can tell: an identity and its embedding dimension. */
  datatype Model = Model(id: nat, dimension: int)

  /** One embedding row, represented by the text it embeds and its width. */
  datatype Vector = Vector(input: string, width: int)

  /**
   * The world the worker runs in: the accelerator flags, the model directory
   * (`MODEL_PATH`), the model constructor and the encoder. `encode(m, texts, batch, device)`
   * is None when encoding succeeds and the raised error otherwise.
   */
  datatype Runtime = Runtime(
    cuda: bool,
    mps: bool,
    modelDir: ModelDir,
    construct: string -> Result<Model, Error>,
    encode: (Model, seq<string>, int, string) -> Option<Error>)

  /** The module globals `_model` and `_device`. */
  datatype Cache = Cache(model: Option<Model>, device: Option<string>)

  function Resolve(requested: string, rt: Runtime): string {
    ResolveDevice(requested, rt.cuda, rt.mps)
  }

  /** The text of the not-found error for the model directory. */
  function ModelNotFoundMessage(path: string): string {
    "Model not found at " + path + ". Download with: "
    + "huggingface-cli download nomic-ai/nomic-embed-text-v1.5 "
    + "--local-dir models/nomic-embed-text-v1.5"
  }

  /** `load_model` as a state transition: the new cache and the model or the error. */
  function LoadStep(c: Cache, requested: string, rt: Runtime): (Cache, Result<Model, Error>) {
    var device := Resolve(requested, rt);
    var path := rt.modelDir.path;
    var missing := MissingModelFiles(rt.modelDir.present);
    if c.model.Some? && c.device == Some(device) then (c, Ok(c.model.value))
    else if !rt.modelDir.found then
      (c, Err(EmbeddingModelError(ModelNotFoundMessage(path), Some(path))))
    else if missing != [] then
      (c, Err(EmbeddingModelError("Missing model files: " + ListRepr(missing), Some(path))))
    else
      match rt.construct(device)
      case Err(e) =>
        if e.GpuNotAvailableError? || e.EmbeddingModelError? then (c, Err(e))
        else (c, Err(EmbeddingModelError("Failed to load model: " + e.message, Some(path))))
      case Ok(m) =>
        var c' := Cache(Some(m), Some(device));
        if m.dimension != EmbeddingDim then
          (c', Err(EmbeddingModelError(
            "Wrong embedding dimension: " + IntToDecimal(m.dimension) + ", expected 768", Some(path))))
        else (c', Ok(m))
  }

  /** A model cached for the resolved device is returned as is, whatever the filesystem holds. */
  lemma LoadCacheHit(c: Cache, requested: string, rt: Runtime)
    requires c.model.Some? && c.device == Some(Resolve(requested, rt))
    ensures LoadStep(c, requested, rt) == (c, Ok(c.model.value))
  {
  }

  /**
   * On a cache miss the directory is checked first and the files second; either
   * failure is a model error naming the directory, and the cache is left alone.
   */
  lemma LoadChecksBeforeConstructing(c: Cache, requested: string, rt: Runtime)
    requires !(c.model.Some? && c.device == Some(Resolve(requested, rt)))
    requires !rt.modelDir.found || MissingModelFiles(rt.modelDir.present) != []
    ensures LoadStep(c, requested, rt).0 == c
    ensures LoadStep(c, requested, rt).1.Err?
    ensures LoadStep(c, requested, rt).1.error.EmbeddingModelError?
    ensures LoadStep(c, requested, rt).1.error.modelPath == Some(rt.modelDir.path)
    ensures rt.modelDir.found ==>
      LoadStep(c, requested, rt).1.error.message ==
        "Missing model files: " + ListRepr(MissingModelFiles(rt.modelDir.present))
  {
  }

  /** A failing constructor leaves the previous cache entry in place; only two error kinds escape. */
  lemma LoadConstructorFailureKeepsCache(c: Cache, requested: string, rt: Runtime)
    requires !(c.model.Some? && c.device == Some(Resolve(requested, rt)))
    requires rt.modelDir.found && MissingModelFiles(rt.modelDir.present) == []
    requires rt.construct(Resolve(requested, rt)).Err?
    ensures LoadStep(c, requested, rt).0 == c
    ensures LoadStep(c, requested, rt).1.Err?
    ensures LoadStep(c, requested, rt).1.error.EmbeddingModelError? ||
            LoadStep(c, requested, rt).1.error.GpuNotAvailableError?
  {
  }

  /**
   * A model of the wrong dimension is cached before it is checked: the first load
   * raises, and the next load for the same device returns that model without raising.
   */
  lemma LoadWrongDimensionStaysCached(c: Cache, requested: string, rt: Runtime, m: Model)
    requires !(c.model.Some? && c.device == Some(Resolve(requested, rt)))
    requires rt.modelDir.found && MissingModelFiles(rt.modelDir.present) == []
    requires rt.construct(Resolve(requested, rt)) == Ok(m) && m.dimension != EmbeddingDim
    ensures LoadStep(c, requested, rt).1.Err?
    ensures LoadStep(c, requested, rt).0 == Cache(Some(m), Some(Resolve(requested, rt)))
    ensures LoadStep(LoadStep(c, requested, rt).0, requested, rt).1 == Ok(m)
  {
  }

  /** The cache holds only models of the expected dimension. */
  predicate WellDimensioned(c: Cache) {
    c.model.Some? ==> c.model.value.dimension == EmbeddingDim
  }

  /**
   * From a well-dimensioned cache, a successful load yields a 768-wide model and
   * caches it for the resolved device, so the next load for that device is a hit.
   */
  lemma LoadSuccessIsCached(c: Cache, requested: string, rt: Runtime)
    requires WellDimensioned(c)
    requires LoadStep(c, requested, rt).1.Ok?
    ensures LoadStep(c, requested, rt).1.value.dimension == EmbeddingDim
    ensures WellDimensioned(LoadStep(c, requested, rt).0)
    ensures LoadStep(c, requested, rt).0 ==
      Cache(Some(LoadStep(c, requested, rt).1.value), Some(Resolve(requested, rt)))
  {
  }

  // ---------------------------------------------------------------------------
  // Encoding
  // ---------------------------------------------------------------------------

  /** Each text with the task prefix in front. */
  function Prefixed(prefix: string, texts: seq<string>): (r: seq<string>)
    ensures |r| == |texts|
    ensures forall i :: 0 <= i < |texts| ==> r[i] == prefix + texts[i]
  {
    seq(|texts|, i requires 0 <= i < |texts| => prefix + texts[i])
  }

  /** The rows a successful encoding returns: one per text, as wide as the model. */
  function Rows(m: Model, texts: seq<string>): (r: seq<Vector>)
    ensures |r| == |texts|
    ensures forall i :: 0 <= i < |texts| ==> r[i] == Vector(texts[i], m.dimension)
  {
    seq(|texts|, i requires 0 <= i < |texts| => Vector(texts[i], m.dimension))
  }

  /** `embed_chunks` as a state transition. */
  function EmbedChunksStep(c: Cache, chunks: seq<string>, batchSize: int, requested: string, rt: Runtime)
    : (Cache, Result<seq<Vector>, Error>)
  {
    if |chunks| == 0 then (c, Ok([]))
    else
      var (c', loaded) := LoadStep(c, requested, rt);
      match loaded
      case Err(e) => (c', Err(e))
      case Ok(m) =>
        var texts := Prefixed(PrefixDocument, chunks);
        match rt.encode(m, texts, batchSize, Resolve(requested, rt))
        case None => (c', Ok(Rows(m, texts)))
        case Some(e) => (c', Err(e))
  }

  /**
   * Embedding no chunks touches nothing; otherwise a success has one row per chunk,
   * each embedding the chunk behind the document prefix.
   */
  lemma EmbedChunksRows(c: Cache, chunks: seq<string>, batchSize: int, requested: string, rt: Runtime)
    ensures |chunks| == 0 ==> EmbedChunksStep(c, chunks, batchSize, requested, rt) == (c, Ok([]))
    ensures EmbedChunksStep(c, chunks, batchSize, requested, rt).1.Ok? ==>
      var rows := EmbedChunksStep(c, chunks, batchSize, requested, rt).1.value;
      && |rows| == |chunks|
      && forall i :: 0 <= i < |chunks| ==> rows[i].input == PrefixDocument + chunks[i]
  {
  }

  /** `embed_query` as a state transition. */
  function EmbedQueryStep(c: Cache, query: string, requested: string, rt: Runtime): (Cache, Result<Vector, Error>) {
    var (c', loaded) := LoadStep(c, requested, rt);
    match loaded
    case Err(e) => (c', Err(e))
    case Ok(m) =>
      var text := PrefixQuery + query;
      match rt.encode(m, [text], LibraryBatchSize, Resolve(requested, rt))
      case None => (c', Ok(Rows(m, [text])[0]))
      case Some(e) => (c', Err(e))
  }

  /** A query embedding is the single row of the query behind the query prefix. */
  lemma EmbedQueryRow(c: Cache, query: string, requested: string, rt: Runtime)
    ensures EmbedQueryStep(c, query, requested, rt).1.Ok? ==>
      EmbedQueryStep(c, query, requested, rt).1.value.input == PrefixQuery + query
    ensures EmbedQueryStep(c, query, requested, rt).1.Ok? && WellDimensioned(c) ==>
      EmbedQueryStep(c, query, requested, rt).1.value.width == EmbeddingDim
  {
    var (c', loaded) := LoadStep(c, requested, rt);
    if loaded.Ok? && WellDimensioned(c) {
      LoadSuccessIsCached(c, requested, rt);
    }
  }

  // ---------------------------------------------------------------------------
  // Out-of-memory backoff
  // ---------------------------------------------------------------------------

  /**
   * The errors the backoff retries: `MemoryError`, and any `RuntimeError` (the CUDA
   * out-of-memory error is one) whose lowered message mentions running out of memory.
   */
  predicate IsOomShaped(e: Error) {
    e.MemoryError? || (e.IsRuntimeError() && Contains(Lower(e.message), "out of memory"))
  }

  function OomExhaustedMessage(chunkCount: nat, requested: string, initial: int): string {
    "OOM with " + IntToDecimal(chunkCount) + " chunks on " + requested + ". "
    + "Tried batch sizes " + IntToDecimal(initial) + " down to 1."
  }

  /** `initial` halved `k` times with floor division. */
  function Halved(initial: int, k: nat): int {
    if k == 0 then initial else Halved(initial, k - 1) / 2
  }

  /** The batch sizes the backoff may try from `initial`: `initial`, `initial // 2`, ... */
  ghost predicate InHalvings(initial: int, b: int) {
    exists k: nat :: Halved(initial, k) == b
  }

  /**
   * `embed_with_oom_recovery` from the current batch size `batchSize` on, as a state
   * transition; `initial` is only quoted in the final error.
   */
  function Recover(c: Cache, chunks: seq<string>, batchSize: int, initial: int, requested: string, rt: Runtime)
    : (Cache, Result<(seq<Vector>, int), Error>)
    decreases if batchSize < MinBatchSize then 0 else batchSize
  {
    if batchSize < MinBatchSize then
      (c, Err(GpuOutOfMemoryError(OomExhaustedMessage(|chunks|, requested, initial))))
    else
      var (c', attempt) := EmbedChunksStep(c, chunks, batchSize, requested, rt);
      match attempt
      case Ok(rows) => (c', Ok((rows, batchSize)))
      case Err(e) =>
        if IsOomShaped(e) then Recover(c', chunks, batchSize / 2, initial, requested, rt)
        else (c', Err(e))
  }

  /**
   * What the backoff promises: a success embeds every chunk behind the document
   * prefix with a batch size between 1 and the starting size that the halving
   * reaches; a failure is either the final out-of-memory error or an error that is
   * not out-of-memory shaped, passed through at once.
   */
  lemma {:induction false} RecoverOutcome(c: Cache, chunks: seq<string>, k: nat, initial: int, requested: string, rt: Runtime)
    ensures
      var r := Recover(c, chunks, Halved(initial, k), initial, requested, rt).1;
      && (r.Ok? ==>
        && |r.value.0| == |chunks|
        && (forall i :: 0 <= i < |chunks| ==> r.value.0[i].input == PrefixDocument + chunks[i])
        && MinBatchSize <= r.value.1 <= Halved(initial, k)
        && InHalvings(initial, r.value.1))
      && (r.Err? ==> r.error.GpuOutOfMemoryError? || !IsOomShaped(r.error))
    decreases if Halved(initial, k) < MinBatchSize then 0 else Halved(initial, k)
  {
    var b := Halved(initial, k);
    if b >= MinBatchSize {
      var (c', attempt) := EmbedChunksStep(c, chunks, b, requested, rt);
      EmbedChunksRows(c, chunks, b, requested, rt);
      if attempt.Err? && IsOomShaped(attempt.error) {
        assert Halved(initial, k + 1) == b / 2;
        RecoverOutcome(c', chunks, k + 1, initial, requested, rt);
      }
    }
  }

  /** A starting batch size below 1 fails at once with the out-of-memory error, even for no chunks. */
  lemma RecoverBelowMinimum(c: Cache, chunks: seq<string>, initial: int, requested: string, rt: Runtime)
    requires initial < MinBatchSize
    ensures Recover(c, chunks, initial, initial, requested, rt) ==
      (c, Err(GpuOutOfMemoryError(OomExhaustedMessage(|chunks|, requested, initial))))
  {
  }

  /** No chunks and a usable batch size: nothing is loaded and the starting size is reported. */
  lemma RecoverNoChunks(c: Cache, initial: int, requested: string, rt: Runtime)
    requires initial >= MinBatchSize
    ensures Recover(c, [], initial, initial, requested, rt) == (c, Ok(([], initial)))
  {
  }

  /**
   * With a model already cached for the device, out-of-memory at sizes 512 and 256
   * and success at 128 gives the rows together with the size 128.
   */
  lemma RecoverHalvesTwice(c: Cache, chunks: seq<string>, requested: string, rt: Runtime, m: Model)
    requires |chunks| > 0
    requires c == Cache(Some(m), Some(Resolve(requested, rt)))
    requires var texts := Prefixed(PrefixDocument, chunks);
      var d := Resolve(requested, rt);
      && rt.encode(m, texts, 512, d).Some? && IsOomShaped(rt.encode(m, texts, 512, d).value)
      && rt.encode(m, texts, 256, d).Some? && IsOomShaped(rt.encode(m, texts, 256, d).value)
      && rt.encode(m, texts, 128, d).None?
    ensures Recover(c, chunks, 512, 512, requested, rt) == (c, Ok((Rows(m, Prefixed(PrefixDocument, chunks)), 128)))
  {
    assert 512 / 2 == 256 && 256 / 2 == 128;
  }

  /**
   * When every encoding attempt with the cached model runs out of memory, the backoff
   * ends with the out-of-memory error quoting the chunk count and the starting size.
   */
  lemma {:induction false} RecoverExhausts(c: Cache, chunks: seq<string>, b: int, initial: int, requested: string, rt: Runtime, m: Model)
    requires |chunks| > 0
    requires c == Cache(Some(m), Some(Resolve(requested, rt)))
    requires forall b' :: rt.encode(m, Prefixed(PrefixDocument, chunks), b', Resolve(requested, rt)).Some?
    requires forall b' :: IsOomShaped(rt.encode(m, Prefixed(PrefixDocument, chunks), b', Resolve(requested, rt)).value)
    ensures Recover(c, chunks, b, initial, requested, rt) ==
      (c, Err(GpuOutOfMemoryError(OomExhaustedMessage(|chunks|, requested, initial))))
    decreases if b < MinBatchSize then 0 else b
  {
    if b >= MinBatchSize {
      RecoverExhausts(c, chunks, b / 2, initial, requested, rt, m);
    }
  }

  // ---------------------------------------------------------------------------
  // Result records
  // ---------------------------------------------------------------------------

  /** `EmbeddingResult`. */
  datatype EmbeddingResult = EmbeddingResult(
    success: bool,
    embeddings: seq<Vector>,
    count: int,
    elapsedMs: real,
    msPerChunk: real,
    device: string,
    batchSize: int,
    model: string,
    modelVersion: string,
    vramUsedGb: real,
    error: Option<string>)

  /** `QueryEmbeddingResult`; `embedding` None stands for the empty list. */
  datatype QueryEmbeddingResult = QueryEmbeddingResult(
    success: bool,
    embedding: Option<Vector>,
    elapsedMs: real,
    device: string,
    model: string,
    error: Option<string>)

  /** Clock and memory readings, which are inputs here: elapsed time and peak VRAM. */
  datatype Telemetry = Telemetry(elapsedMs: real, peakVramGb: real)

  /** `generate_embeddings` as a state transition. Rounding is not modelled. */
  function GenerateEmbeddingsStep(c: Cache, chunks: seq<string>, batchSize: int, requested: string, rt: Runtime, t: Telemetry)
    : (Cache, EmbeddingResult)
  {
    var device := Resolve(requested, rt);
    var (c', r) := Recover(c, chunks, batchSize, batchSize, requested, rt);
    match r
    case Ok((rows, finalBatch)) =>
      var perChunk := if |chunks| == 0 then 0.0 else t.elapsedMs / (|chunks| as real);
      var vram := if StartsWith(device, "cuda") then t.peakVramGb else 0.0;
      (c', EmbeddingResult(true, rows, |chunks|, t.elapsedMs, perChunk, device, finalBatch,
                           ModelName, ModelVersion, vram, None))
    case Err(e) =>
      (c', EmbeddingResult(false, [], 0, t.elapsedMs, 0.0, device, batchSize,
                           ModelName, ModelVersion, 0.0, Some(e.message)))
  }

  /**
   * The batch record: a success counts and embeds every chunk, reports the resolved
   * device and the batch size that worked; a failure carries no rows, a zero count and
   * rate, the requested batch size and the error text.
   */
  lemma GenerateEmbeddingsRecord(c: Cache, chunks: seq<string>, batchSize: int, requested: string, rt: Runtime, t: Telemetry)
    ensures
      var res := GenerateEmbeddingsStep(c, chunks, batchSize, requested, rt, t).1;
      && res.device == Resolve(requested, rt)
      && res.device != "auto"
      && (res.success <==> res.error.None?)
      && res.model == ModelName && res.modelVersion == ModelVersion
      && (res.success ==>
        && res.count == |chunks| == |res.embeddings|
        && (forall i :: 0 <= i < |chunks| ==> res.embeddings[i].input == PrefixDocument + chunks[i])
        && (|chunks| == 0 ==> res.msPerChunk == 0.0)
        && MinBatchSize <= res.batchSize <= batchSize
        && InHalvings(batchSize, res.batchSize))
      && (!res.success ==>
        && res.embeddings == [] && res.count == 0 && res.msPerChunk == 0.0
        && res.batchSize == batchSize)
  {
    RecoverOutcome(c, chunks, 0, batchSize, requested, rt);
    ResolvedDeviceIsUsable(requested, rt.cuda, rt.mps);
  }

  /** `generate_query_embedding` as a state transition. */
  function GenerateQueryEmbeddingStep(c: Cache, query: string, requested: string, rt: Runtime, t: Telemetry)
    : (Cache, QueryEmbeddingResult)
  {
    var device := Resolve(requested, rt);
    var (c', r) := EmbedQueryStep(c, query, requested, rt);
    match r
    case Ok(v) => (c', QueryEmbeddingResult(true, Some(v), t.elapsedMs, device, ModelName, None))
    case Err(e) => (c', QueryEmbeddingResult(false, None, t.elapsedMs, device, ModelName, Some(e.message)))
  }

  /** The query record mirrors the batch record: a row exactly on success, the error text otherwise. */
  lemma GenerateQueryEmbeddingRecord(c: Cache, query: string, requested: string, rt: Runtime, t: Telemetry)
    ensures
      var res := GenerateQueryEmbeddingStep(c, query, requested, rt, t).1;
      && res.device == Resolve(requested, rt)
      && (res.success <==> res.embedding.Some?)
      && (res.success <==> res.error.None?)
      && (res.success ==> res.embedding.value.input == PrefixQuery + query)
  {
    EmbedQueryRow(c, query, requested, rt);
  }

  // ---------------------------------------------------------------------------
  // The worker and its global cache
  // ---------------------------------------------------------------------------

  /** The worker's module state: the cached model and the device it was loaded for. */
  class EmbeddingWorker {
    var model: Option<Model>
    var device: Option<string>

    function State(): Cache
      reads this
    {
      Cache(model, device)
    }

    /** A fresh worker has nothing cached. */
    constructor ()
      ensures State() == Cache(None, None)
    {
      model := None;
      device := None;
    }

    /** `load_model`: serves the cache, or checks the directory, constructs and caches the model. */
    method LoadModel(requested: string, rt: Runtime) returns (r: Result<Model, Error>)
      modifies this
      ensures (State(), r) == LoadStep(old(State()), requested, rt)
    {
      var resolved := Resolve(requested, rt);
      if model.Some? && device == Some(resolved) {
        return Ok(model.value);
      }
      var path := rt.modelDir.path;
      if !rt.modelDir.found {
        return Err(EmbeddingModelError(ModelNotFoundMessage(path), Some(path)));
      }
      var missing := MissingModelFiles(rt.modelDir.present);
      if missing != [] {
        return Err(EmbeddingModelError("Missing model files: " + ListRepr(missing), Some(path)));
      }
      var built := rt.construct(resolved);
      if built.Err? {
        var e := built.error;
        if e.GpuNotAvailableError? || e.EmbeddingModelError? {
          return Err(e);
        }
        return Err(EmbeddingModelError("Failed to load model: " + e.message, Some(path)));
      }
      model := Some(built.value);
      device := Some(resolved);
      if built.value.dimension != EmbeddingDim {
        return Err(EmbeddingModelError(
          "Wrong embedding dimension: " + IntToDecimal(built.value.dimension) + ", expected 768", Some(path)));
      }
      return Ok(built.value);
    }

    /** `embed_chunks`: prefixes every chunk and encodes them with the given batch size. */
    method EmbedChunks(chunks: seq<string>, batchSize: int, requested: string, rt: Runtime)
      returns (r: Result<seq<Vector>, Error>)
      modifies this
      ensures (State(), r) == EmbedChunksStep(old(State()), chunks, batchSize, requested, rt)
    {
      if |chunks| == 0 {
        return Ok([]);
      }
      var loaded := LoadModel(requested, rt);
      if loaded.Err? {
        return Err(loaded.error);
      }
      var texts := Prefixed(PrefixDocument, chunks);
      var raised := rt.encode(loaded.value, texts, batchSize, Resolve(requested, rt));
      if raised.Some? {
        return Err(raised.value);
      }
      return Ok(Rows(loaded.value, texts));
    }

    /** `embed_query`: encodes the prefixed query and returns its single row. */
    method EmbedQuery(query: string, requested: string, rt: Runtime) returns (r: Result<Vector, Error>)
      modifies this
      ensures (State(), r) == EmbedQueryStep(old(State()), query, requested, rt)
    {
      var loaded := LoadModel(requested, rt);
      if loaded.Err? {
        return Err(loaded.error);
      }
      var text := PrefixQuery + query;
      var raised := rt.encode(loaded.value, [text], LibraryBatchSize, Resolve(requested, rt));
      if raised.Some? {
        return Err(raised.value);
      }
      return Ok(Rows(loaded.value, [text])[0]);
    }

    /** `embed_with_oom_recovery`: halves the batch size after each out-of-memory failure. */
    method EmbedWithOomRecovery(chunks: seq<string>, initialBatchSize: int, requested: string, rt: Runtime)
      returns (r: Result<(seq<Vector>, int), Error>)
      modifies this
      ensures (State(), r) == Recover(old(State()), chunks, initialBatchSize, initialBatchSize, requested, rt)
    {
      var batchSize := initialBatchSize;
      while batchSize >= MinBatchSize
        invariant Recover(State(), chunks, batchSize, initialBatchSize, requested, rt) ==
                  Recover(old(State()), chunks, initialBatchSize, initialBatchSize, requested, rt)
        decreases batchSize
      {
        var attempt := EmbedChunks(chunks, batchSize, requested, rt);
        if attempt.Ok? {
          return Ok((attempt.value, batchSize));
        }
        if !IsOomShaped(attempt.error) {
          return Err(attempt.error);
        }
        batchSize := batchSize / 2;
      }
      return Err(GpuOutOfMemoryError(OomExhaustedMessage(|chunks|, requested, initialBatchSize)));
    }

    /** `generate_embeddings`: never raises; wraps the outcome in a result record. */
    method GenerateEmbeddings(chunks: seq<string>, batchSize: int, requested: string, rt: Runtime, t: Telemetry)
      returns (res: EmbeddingResult)
      modifies this
      ensures (State(), res) == GenerateEmbeddingsStep(old(State()), chunks, batchSize, requested, rt, t)
    {
      var resolved := Resolve(requested, rt);
      var r := EmbedWithOomRecovery(chunks, batchSize, requested, rt);
      if r.Ok? {
        var perChunk := if |chunks| == 0 then 0.0 else t.elapsedMs / (|chunks| as real);
        var vram := if StartsWith(resolved, "cuda") then t.peakVramGb else 0.0;
        res := EmbeddingResult(true, r.value.0, |chunks|, t.elapsedMs, perChunk, resolved, r.value.1,
                               ModelName, ModelVersion, vram, None);
      } else {
        res := EmbeddingResult(false, [], 0, t.elapsedMs, 0.0, resolved, batchSize,
                               ModelName, ModelVersion, 0.0, Some(r.error.message));
      }
    }

    /** `generate_query_embedding`: never raises; wraps the outcome in a result record. */
    method GenerateQueryEmbedding(query: string, requested: string, rt: Runtime, t: Telemetry)
      returns (res: QueryEmbeddingResult)
      modifies this
      ensures (State(), res) == GenerateQueryEmbeddingStep(old(State()), query, requested, rt, t)
    {
      var resolved := Resolve(requested, rt);
      var r := EmbedQuery(query, requested, rt);
      if r.Ok? {
        res := QueryEmbeddingResult(true, Some(r.value), t.elapsedMs, resolved, ModelName, None);
      } else {
        res := QueryEmbeddingResult(false, None, t.elapsedMs, resolved, ModelName, Some(r.error.message));
      }
    }
  }
}
