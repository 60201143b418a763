/**
 * GPU diagnostics: best-device detection, the GPU report, the CUDA guards of the
 * memory helpers, the checks around loading the embedding model, and the error table
 * of the command-line entry point. torch and sentence-transformers are oracles.
 */
module GpuUtils {
  import opened Wrappers
  import opened PyStr

  /** The exceptions raised or let through by the GPU and embedding code. */
  datatype Error =
    | GpuError(message: string)                 // GPUError, the base of the two below
    | GpuNotAvailableError(message: string)
    | GpuOutOfMemoryError(message: string)
    | EmbeddingModelError(message: string, modelPath: Option<string>)
    | ImportError(message: string)
    | CudaOutOfMemoryError(message: string)     // torch.cuda.OutOfMemoryError, a RuntimeError subclass
    | MemoryError(message: string)
    | RuntimeError(message: string)
    | OtherError(typeName: string, message: string)
  {
    /** `isinstance(e, GPUError)` */
    predicate IsGpuError() {
      GpuError? || GpuNotAvailableError? || GpuOutOfMemoryError?
    }

    /** `isinstance(e, RuntimeError)` */
    predicate IsRuntimeError() {
      RuntimeError? || CudaOutOfMemoryError?
    }
  }

  /** What the Python process can see: whether the libraries import and which accelerators answer. */
  datatype Host = Host(
    torchInstalled: bool,
    sentenceTransformersInstalled: bool,
    cudaAvailable: bool,
    mpsAvailable: bool)

  /** The message Python gives when `import torch` fails. */
  const NoTorchMessage := "No module named 'torch'"

  /** The best device: CUDA over Apple MPS over CPU, and CPU when torch is missing. */
  function DetectBestDevice(host: Host): (d: string)
    ensures d == "cuda:0" <==> host.torchInstalled && host.cudaAvailable
    ensures d == "mps" <==> host.torchInstalled && !host.cudaAvailable && host.mpsAvailable
    ensures d == "cpu" <==> !host.torchInstalled || (!host.cudaAvailable && !host.mpsAvailable)
  {
    if !host.torchInstalled then "cpu"
    else if host.cudaAvailable then "cuda:0"
    else if host.mpsAvailable then "mps"
    else "cpu"
  }

  /** The GPU report (`GPUInfo`). Sizes are in GiB; rounding is not modelled. */
  datatype GpuInfo = GpuInfo(
    available: bool,
    name: string,
    vramGb: real,
    vramUsedGb: real,
    vramFreeGb: real,
    cudaVersion: string,
    computeCapability: string,
    driverVersion: string)

  /** What torch reports about the current CUDA device. */
  datatype CudaProps = CudaProps(
    name: string,
    totalGb: real,
    allocatedGb: real,
    cudaVersion: Option<string>,
    major: nat,
    minor: nat,
    capabilityRepr: string)

  /**
   * `verify_gpu`: fails only when torch is missing; without CUDA it reports the
   * absence instead of raising, naming the device the system will fall back to.
   */
  function VerifyGpu(host: Host, props: CudaProps): (r: Result<GpuInfo, Error>)
    ensures r.Err? <==> !host.torchInstalled
    ensures r.Err? ==> r.error.ImportError?
    ensures r.Ok? ==> (r.value.available <==> host.cudaAvailable)
    ensures r.Ok? && !host.cudaAvailable ==>
      && Contains(r.value.name, DetectBestDevice(host))
      && r.value.vramGb == 0.0 && r.value.vramUsedGb == 0.0 && r.value.vramFreeGb == 0.0
      && r.value.cudaVersion == "N/A" && r.value.computeCapability == "N/A"
      && r.value.driverVersion == "N/A"
    ensures r.Ok? && host.cudaAvailable ==>
      r.value.vramFreeGb == r.value.vramGb - r.value.vramUsedGb
  {
    if !host.torchInstalled then
      Err(ImportError("PyTorch is not installed. Install with: pip install torch"))
    else if !host.cudaAvailable then
      var prefix := "No CUDA GPU (best device: ";
      var best := DetectBestDevice(host);
      var name := prefix + best + ")";
      assert name[|prefix|..|prefix| + |best|] == best;
      assert OccursAt(name, best, |prefix|);
      Ok(GpuInfo(false, name, 0.0, 0.0, 0.0, "N/A", "N/A", "N/A"))
    else
      Ok(GpuInfo(
        true, props.name, props.totalGb, props.allocatedGb, props.totalGb - props.allocatedGb,
        props.cudaVersion.GetOr("unknown"),
        NatToDecimal(props.major) + "." + NatToDecimal(props.minor),
        props.capabilityRepr))
  }

  /** A GPU report without CUDA never names a CUDA device as the fallback. */
  lemma NoCudaReportNamesFallback(host: Host, props: CudaProps)
    requires host.torchInstalled && !host.cudaAvailable
    ensures VerifyGpu(host, props).Ok?
    ensures !VerifyGpu(host, props).value.available
    ensures DetectBestDevice(host) == "mps" || DetectBestDevice(host) == "cpu"
  {
  }

  /** VRAM figures (`VRAMUsage`), in GiB; rounding is not modelled. */
  datatype VramUsage = VramUsage(allocatedGb: real, reservedGb: real, freeGb: real, totalGb: real)

  /** `get_vram_usage`: raises unless torch imports and CUDA answers. */
  function GetVramUsage(host: Host, allocatedGb: real, reservedGb: real, totalGb: real): (r: Result<VramUsage, Error>)
    ensures r.Ok? <==> host.torchInstalled && host.cudaAvailable
    ensures !host.torchInstalled ==> r.Err? && r.error.ImportError?
    ensures host.torchInstalled && !host.cudaAvailable ==> r.Err? && r.error.GpuNotAvailableError?
    ensures r.Ok? ==> r.value.freeGb == r.value.totalGb - r.value.reservedGb
  {
    if !host.torchInstalled then Err(ImportError("PyTorch not installed"))
    else if !host.cudaAvailable then Err(GpuNotAvailableError("CUDA not available for VRAM usage query"))
    else Ok(VramUsage(allocatedGb, reservedGb, totalGb - reservedGb, totalGb))
  }

  /**
   * `clear_gpu_memory`: None when it returns normally. `cacheFailure` is what
   * `empty_cache`/`synchronize` raise, if anything.
   */
  function ClearGpuMemory(host: Host, cacheFailure: Option<Error>): (r: Option<Error>)
    ensures r.None? <==> host.torchInstalled && host.cudaAvailable && cacheFailure.None?
    ensures r.Some? ==> r.value.IsGpuError()
    ensures host.torchInstalled && !host.cudaAvailable ==> r.Some? && r.value.GpuNotAvailableError?
    ensures host.torchInstalled && host.cudaAvailable && cacheFailure.Some? ==>
      (r.value.GpuNotAvailableError? <==> cacheFailure.value.GpuNotAvailableError?)
  {
    if !host.torchInstalled then Some(GpuError("Failed to clear GPU memory: " + NoTorchMessage))
    else if !host.cudaAvailable then Some(GpuNotAvailableError("Cannot clear GPU memory: CUDA not available"))
    else
      match cacheFailure
      case None => None
      case Some(e) =>
        if e.GpuNotAvailableError? then Some(e)
        else Some(GpuError("Failed to clear GPU memory: " + e.message))
  }

  /** The files a model directory must hold, in the order they are checked. */
  const RequiredModelFiles: seq<string> := ["config.json", "model.safetensors", "tokenizer.json"]

  /** A model directory as the filesystem shows it: its path, whether it is there, which files it holds. */
  datatype ModelDir = ModelDir(path: string, found: bool, present: set<string>)

  /** The entries of `names` that are not in `present`, in their original order. */
  function Missing(names: seq<string>, present: set<string>): (r: seq<string>)
    ensures forall f :: f in r <==> f in names && f !in present
    ensures |r| <= |names|
  {
    if |names| == 0 then []
    else (if names[0] in present then [] else [names[0]]) + Missing(names[1..], present)
  }

  /** The required model files that are absent, in checking order. */
  function MissingModelFiles(present: set<string>): seq<string> {
    Missing(RequiredModelFiles, present)
  }

  /** The missing files are reported in the fixed order config, weights, tokenizer. */
  lemma MissingModelFilesInOrder(present: set<string>)
    ensures MissingModelFiles(present) ==
      (if "config.json" in present then [] else ["config.json"]) +
      (if "model.safetensors" in present then [] else ["model.safetensors"]) +
      (if "tokenizer.json" in present then [] else ["tokenizer.json"])
  {
    MissingOfThree("config.json", "model.safetensors", "tokenizer.json", present);
  }

  /** The missing entries of a three-name list, one name at a time. */
  lemma MissingOfThree(a: string, b: string, c: string, present: set<string>)
    ensures Missing([a, b, c], present) ==
      (if a in present then [] else [a]) + (if b in present then [] else [b]) + (if c in present then [] else [c])
  {
    var tc := if c in present then [] else [c];
    var tb := if b in present then [] else [b];
    assert [c][1..] == [];
    assert Missing([c], present) == tc + Missing([], present);
    assert [b, c][1..] == [c];
    assert Missing([b, c], present) == tb + tc;
    assert [a, b, c][1..] == [b, c];
  }

  /** The report of a successful model-loading check (`ModelInfo`). */
  datatype ModelInfo = ModelInfo(
    success: bool,
    modelPath: string,
    error: Option<string>,
    device: string,
    embeddingDimension: int,
    maxSeqLength: int)

  /** What the loaded model reports about itself. */
  datatype LoadedModel = LoadedModel(embeddingDimension: int, maxSeqLength: int)

  /**
   * `verify_model_loading`. `load` is what constructing the model on `cuda:0` gives,
   * `cleanup` what freeing the GPU cache afterwards raises, if anything.
   */
  function VerifyModelLoading(dir: ModelDir, host: Host, load: Result<LoadedModel, Error>, cleanup: Option<Error>): (r: Result<ModelInfo, Error>)
    ensures !dir.found ==> r.Err? && r.error.EmbeddingModelError?
    ensures dir.found && MissingModelFiles(dir.present) != [] ==> r.Err? && r.error.EmbeddingModelError?
    ensures r.Err? ==> r.error.EmbeddingModelError? || r.error.GpuNotAvailableError?
    ensures r.Err? && r.error.EmbeddingModelError? ==> r.error.modelPath == Some(dir.path)
    ensures r.Err? && r.error.GpuNotAvailableError? ==>
      dir.found && MissingModelFiles(dir.present) == [] && host.torchInstalled
    ensures r.Ok? ==>
      && dir.found && MissingModelFiles(dir.present) == [] && host.cudaAvailable
      && load.Ok? && cleanup.None?
      && r.value.success && r.value.modelPath == dir.path && r.value.device == "cuda:0"
      && r.value.embeddingDimension == load.value.embeddingDimension
  {
    var path := dir.path;
    var missing := MissingModelFiles(dir.present);
    if !dir.found then
      Err(EmbeddingModelError("Model directory not found: " + path, Some(path)))
    else if missing != [] then
      Err(EmbeddingModelError("Missing required model files: " + ListRepr(missing), Some(path)))
    else
      var failure :=
        if !host.torchInstalled then Some(ImportError(NoTorchMessage))
        else if !host.sentenceTransformersInstalled then Some(ImportError("No module named 'sentence_transformers'"))
        else if !host.cudaAvailable then
          Some(GpuNotAvailableError("GPU required for model loading. No CPU fallback allowed per CP-004."))
        else if load.Err? then Some(load.error)
        else cleanup;
      match failure
      case Some(e) =>
        if e.GpuNotAvailableError? then Err(e)
        else Err(EmbeddingModelError("Failed to load embedding model: " + e.message, Some(path)))
      case None =>
        Ok(ModelInfo(true, path, None, "cuda:0", load.value.embeddingDimension, load.value.maxSeqLength))
  }

  /** The action flags of the command line. */
  datatype Actions = Actions(verify: bool, vram: bool, verifyModel: bool, testEmbedding: bool)

  /** With no action flag the command runs the GPU check; otherwise the flags stand. */
  function SelectActions(a: Actions): (r: Actions)
    ensures r.verify || r.vram || r.verifyModel || r.testEmbedding
    ensures (a.verify || a.vram || a.verifyModel || a.testEmbedding) ==> r == a
    ensures r.vram == a.vram && r.verifyModel == a.verifyModel && r.testEmbedding == a.testEmbedding
  {
    if !(a.verify || a.vram || a.verifyModel || a.testEmbedding) then a.(verify := true) else a
  }

  /** The `error` entry of the command's report. */
  datatype ErrorReport = ErrorReport(kind: string, message: string, modelPath: Option<string>)

  /** The error-type table of the entry point, first matching handler wins. */
  function ReportError(e: Error): (r: ErrorReport)
    ensures r.message == e.message
    ensures r.kind == "GPU_NOT_AVAILABLE" <==> e.GpuNotAvailableError?
    ensures r.kind == "EMBEDDING_MODEL_ERROR" <==> e.EmbeddingModelError?
    ensures r.kind == "IMPORT_ERROR" <==> e.ImportError?
    ensures r.kind == "UNEXPECTED_ERROR" <==>
      !(e.GpuNotAvailableError? || e.EmbeddingModelError? || e.ImportError?)
    ensures r.modelPath.Some? ==> e.EmbeddingModelError? && r.modelPath == e.modelPath
  {
    match e
    case GpuNotAvailableError(m) => ErrorReport("GPU_NOT_AVAILABLE", m, None)
    case EmbeddingModelError(m, p) => ErrorReport("EMBEDDING_MODEL_ERROR", m, p)
    case ImportError(m) => ErrorReport("IMPORT_ERROR", m, None)
    case _ => ErrorReport("UNEXPECTED_ERROR", e.message, None)
  }

  /** What the command produced: the report keys filled in, the error entry, the exit code. */
  datatype CommandReport = CommandReport(keys: seq<string>, error: Option<ErrorReport>, exitCode: int)

  /** The oracles `main` consults besides the host. */
  datatype Probes = Probes(
    props: CudaProps,
    vram: VramUsage,
    dir: ModelDir,
    load: Result<LoadedModel, Error>,
    cleanup: Option<Error>,
    embeddingTest: Result<bool, Error>)

  /** One action of `main`: the report key it fills, or the error it raises. */
  function RunStep(enabled: bool, key: string, outcome: Option<Error>, done: CommandReport): (r: CommandReport)
    requires done.exitCode == (if done.error.Some? then 1 else 0)
    ensures r.exitCode == (if r.error.Some? then 1 else 0)
    ensures done.error.Some? || !enabled ==> r == done
    ensures r.error.Some? && done.error.None? ==> outcome.Some? && r.error == Some(ReportError(outcome.value))
  {
    if done.error.Some? || !enabled then done
    else match outcome
      case None => done.(keys := done.keys + [key])
      case Some(e) => CommandReport(done.keys, Some(ReportError(e)), 1)
  }

  function ErrorOf<T>(r: Result<T, Error>): Option<Error> {
    if r.Err? then Some(r.error) else None
  }

  /** One action of `main` as it is scheduled: whether it is selected, its report key, its error if any. */
  datatype Step = Step(enabled: bool, key: string, outcome: Option<Error>)

  /** The four actions of `main` in the order it runs them: GPU check, VRAM, model, embedding test. */
  function Steps(flags: Actions, host: Host, p: Probes): (st: seq<Step>)
    ensures |st| == 4
    ensures st[0].key == "gpu" && st[1].key == "vram" && st[2].key == "model" && st[3].key == "embedding_test"
  {
    var a := SelectActions(flags);
    var vram := GetVramUsage(host, p.vram.allocatedGb, p.vram.reservedGb, p.vram.totalGb);
    var model := VerifyModelLoading(p.dir, host, p.load, p.cleanup);
    [Step(a.verify, "gpu", ErrorOf(VerifyGpu(host, p.props))),
     Step(a.vram, "vram", ErrorOf(vram)),
     Step(a.verifyModel, "model", ErrorOf(model)),
     Step(a.testEmbedding, "embedding_test", ErrorOf(p.embeddingTest))]
  }

  /** Every selected step succeeds. */
  predicate AllPass(steps: seq<Step>) {
    forall i :: 0 <= i < |steps| && steps[i].enabled ==> steps[i].outcome.None?
  }

  /** Step `i` is the first selected step that fails. */
  predicate FailsFirstAt(steps: seq<Step>, i: int) {
    0 <= i < |steps| && steps[i].enabled && steps[i].outcome.Some? && AllPass(steps[..i])
  }

  /** The report keys of the selected steps, in order. */
  function EnabledKeys(steps: seq<Step>): seq<string> {
    if |steps| == 0 then []
    else
      var n := |steps| - 1;
      EnabledKeys(steps[..n]) + (if steps[n].enabled then [steps[n].key] else [])
  }

  /** Run the steps in order, each skipped once an earlier one has failed. */
  function RunAll(steps: seq<Step>): (r: CommandReport)
    ensures r.exitCode == (if r.error.Some? then 1 else 0)
  {
    if |steps| == 0 then CommandReport([], None, 0)
    else
      var n := |steps| - 1;
      RunStep(steps[n].enabled, steps[n].key, steps[n].outcome, RunAll(steps[..n]))
  }

  /**
   * Running the steps succeeds exactly when every selected step passes, and then reports
   * the selected keys in order; otherwise it reports the error of the first selected step
   * that fails, with the keys of the selected steps before it.
   */
  lemma {:induction false} RunAllMeaning(steps: seq<Step>)
    ensures RunAll(steps).error.None? <==> AllPass(steps)
    ensures AllPass(steps) ==> RunAll(steps).keys == EnabledKeys(steps)
    ensures var r := RunAll(steps);
      r.error.Some? ==> exists i :: (FailsFirstAt(steps, i) &&
        r.error.value == ReportError(steps[i].outcome.value) && r.keys == EnabledKeys(steps[..i]))
  {
    if |steps| > 0 {
      var n := |steps| - 1;
      var init := steps[..n];
      RunAllMeaning(init);
      var d := RunAll(init);
      assert forall k :: 0 <= k < n ==> steps[k] == init[k];
      if d.error.Some? {
        var i :| FailsFirstAt(init, i) && d.error.value == ReportError(init[i].outcome.value) && d.keys == EnabledKeys(init[..i]);
        assert steps[..i] == init[..i];
        assert FailsFirstAt(steps, i);
      } else if steps[n].enabled && steps[n].outcome.Some? {
        assert FailsFirstAt(steps, n);
      }
    }
  }

  /** The first failing step is unique. */
  lemma FirstFailureUnique(steps: seq<Step>, i: int, j: int)
    requires FailsFirstAt(steps, i) && FailsFirstAt(steps, j)
    ensures i == j
  {
  }

  /**
   * `main`: runs the selected actions in order and stops at the first error. It succeeds
   * exactly when every selected action succeeds, listing their keys in order; otherwise it
   * reports the error of the first selected action that fails.
   */
  function RunMain(flags: Actions, host: Host, p: Probes): (r: CommandReport)
    ensures r.exitCode == (if r.error.Some? then 1 else 0)
    ensures var st := Steps(flags, host, p);
      (r.error.None? <==> AllPass(st)) && (AllPass(st) ==> r.keys == EnabledKeys(st))
    ensures var st := Steps(flags, host, p);
      r.error.Some? ==> exists i :: (FailsFirstAt(st, i) &&
        r.error.value == ReportError(st[i].outcome.value) && r.keys == EnabledKeys(st[..i]))
  {
    var st := Steps(flags, host, p);
    RunAllMeaning(st);
    RunAll(st)
  }

  /** With no action flag and torch present, the command only reports the GPU and succeeds. */
  lemma MainDefaultsToVerify(flags: Actions, host: Host, p: Probes)
    requires !(flags.verify || flags.vram || flags.verifyModel || flags.testEmbedding)
    requires host.torchInstalled
    ensures RunMain(flags, host, p) == CommandReport(["gpu"], None, 0)
  {
    var st := Steps(flags, host, p);
    assert st[..3][..2] == st[..2] && st[..2][..1] == st[..1] && st[..1][..0] == [];
    assert EnabledKeys(st[..1]) == ["gpu"];
    assert EnabledKeys(st[..2]) == ["gpu"];
    assert EnabledKeys(st[..3]) == ["gpu"];
    assert EnabledKeys(st) == ["gpu"];
    assert AllPass(st);
  }

  /** A missing model directory ends the command with the model error and its path, exit code 1. */
  lemma MainMissingModelDir(flags: Actions, host: Host, p: Probes)
    requires flags.verifyModel && !flags.verify && !flags.vram
    requires !p.dir.found
    ensures RunMain(flags, host, p).exitCode == 1
    ensures RunMain(flags, host, p).error.Some?
    ensures RunMain(flags, host, p).error.value.kind == "EMBEDDING_MODEL_ERROR"
    ensures RunMain(flags, host, p).error.value.modelPath == Some(p.dir.path)
  {
  }
}
