/**
 * The clustering worker's bookkeeping: input validation with its ordered checks and
 * defaults, the dispatch to the three algorithms (with the `ward` guard and the k-means
 * default `k`), the noise and cluster counts over the label sequence, the per-cluster
 * loops for centroids and coherence, the silhouette guard, and the error table of the
 * entry point. The clustering algorithms and the metrics themselves are oracles.
 */
module Clustering {
  import opened Wrappers
  import opened PyStr

  // ---------------------------------------------------------------------------
  // Input validation
  // ---------------------------------------------------------------------------

  /** What `np.array(...)` made of a JSON value: an array of some shape, or the error it raised. */
  datatype ArrayValue = Shaped(shape: seq<nat>) | Unconvertible(message: string)

  /**
   * The fields of the parsed JSON object the worker reads; `None` is an absent key.
   * `document_ids` defaults to the empty list.
   */
  datatype Request = Request(
    embeddings: Option<ArrayValue>,
    documentIds: seq<string>,
    algorithm: Option<string>,
    nClusters: Option<int>,
    minClusterSize: Option<int>,
    distanceThreshold: Option<real>,
    linkage: Option<string>,
    distanceMatrix: Option<ArrayValue>)

  datatype Params = Params(nClusters: Option<int>, minClusterSize: int, distanceThreshold: real, linkage: string)

  datatype Validated = Validated(
    nDocs: nat, documentIds: seq<string>, algorithm: string, params: Params, hasDistanceMatrix: bool)

  /** The `ValueError`s of `validate_inputs`, in the order they are checked. */
  datatype InputError =
    | MissingEmbeddings
    | BadArray(message: string)
    | NotTwoDimensional(shape: seq<nat>)
    | TooFewDocuments(nDocs: nat)
    | IdsMismatch(nIds: nat, nDocs: nat)
    | UnknownAlgorithm(name: string)
    | MatrixShape(shape: seq<nat>, nDocs: nat)
    | BadMatrix(message: string)
  {
    function Message(): string {
      match this
      case MissingEmbeddings => "Missing required field: 'embeddings'"
      case BadArray(m) => m
      case NotTwoDimensional(shape) => "Embeddings must be 2-dimensional (N, D), got shape " + ShapeRepr(shape)
      case TooFewDocuments(n) => "At least 2 documents required for clustering, got " + NatToDecimal(n)
      case IdsMismatch(k, n) =>
        "document_ids length (" + NatToDecimal(k) + ") does not match embeddings count (" + NatToDecimal(n) + ")"
      case UnknownAlgorithm(name) =>
        "Unknown algorithm '" + name + "'. Must be one of: ('hdbscan', 'agglomerative', 'kmeans')"
      case MatrixShape(shape, n) =>
        "distance_matrix shape " + ShapeRepr(shape) + " does not match document count (" +
        NatToDecimal(n) + ", " + NatToDecimal(n) + ")"
      case BadMatrix(m) => m
    }
  }

  /** Python's repr of a shape tuple: `()`, `(3,)`, `(2, 3)`. */
  function ShapeRepr(shape: seq<nat>): string {
    "(" + JoinDims(shape) + (if |shape| == 1 then "," else "") + ")"
  }

  function JoinDims(shape: seq<nat>): string {
    if |shape| == 0 then ""
    else if |shape| == 1 then NatToDecimal(shape[0])
    else NatToDecimal(shape[0]) + ", " + JoinDims(shape[1..])
  }

  const Algorithms: seq<string> := ["hdbscan", "agglomerative", "kmeans"]

  /** The checks of `validate_inputs`, each reached only when all earlier ones passed. */
  function ValidateInputs(req: Request): (r: Result<Validated, InputError>)
    ensures r == Err(MissingEmbeddings) <==> req.embeddings.None?
    ensures r.Err? && r.error.BadArray? <==> req.embeddings.Some? && req.embeddings.value.Unconvertible?
    ensures r.Err? && r.error.NotTwoDimensional? <==>
      req.embeddings.Some? && req.embeddings.value.Shaped? && |req.embeddings.value.shape| != 2
    ensures r.Err? && r.error.TooFewDocuments? <==>
      req.embeddings.Some? && req.embeddings.value.Shaped? && |req.embeddings.value.shape| == 2 &&
      req.embeddings.value.shape[0] < 2
    ensures r.Ok? ==>
      && req.embeddings.Some? && req.embeddings.value.Shaped? && |req.embeddings.value.shape| == 2
      && r.value.nDocs == req.embeddings.value.shape[0] >= 2
      && (|req.documentIds| == 0 || |req.documentIds| == r.value.nDocs)
      && r.value.algorithm in Algorithms && r.value.algorithm == req.algorithm.GetOr("hdbscan")
      && r.value.documentIds == req.documentIds
      && (req.distanceMatrix.Some? <==> r.value.hasDistanceMatrix)
      && (req.distanceMatrix.Some? ==> req.distanceMatrix.value == Shaped([r.value.nDocs, r.value.nDocs]))
      && r.value.params == Params(req.nClusters, req.minClusterSize.GetOr(3), req.distanceThreshold.GetOr(1.0),
                                  req.linkage.GetOr("average"))
    ensures
      && req.embeddings.Some? && req.embeddings.value.Shaped? && |req.embeddings.value.shape| == 2
      && req.embeddings.value.shape[0] >= 2
      && (|req.documentIds| == 0 || |req.documentIds| == req.embeddings.value.shape[0])
      && req.algorithm.GetOr("hdbscan") in Algorithms
      && (req.distanceMatrix.None? ||
          req.distanceMatrix.value == Shaped([req.embeddings.value.shape[0], req.embeddings.value.shape[0]]))
      ==> r.Ok?
  {
    match req.embeddings
    case None => Err(MissingEmbeddings)
    case Some(Unconvertible(m)) => Err(BadArray(m))
    case Some(Shaped(shape)) =>
      if |shape| != 2 then Err(NotTwoDimensional(shape))
      else
        var n := shape[0];
        if n < 2 then Err(TooFewDocuments(n))
        else if |req.documentIds| > 0 && |req.documentIds| != n then Err(IdsMismatch(|req.documentIds|, n))
        else
          var algorithm := req.algorithm.GetOr("hdbscan");
          if algorithm !in Algorithms then Err(UnknownAlgorithm(algorithm))
          else
            var params := Params(req.nClusters, req.minClusterSize.GetOr(3), req.distanceThreshold.GetOr(1.0),
                                 req.linkage.GetOr("average"));
            match req.distanceMatrix
            case None => Ok(Validated(n, req.documentIds, algorithm, params, false))
            case Some(Unconvertible(m)) => Err(BadMatrix(m))
            case Some(Shaped(ms)) =>
              if ms != [n, n] then Err(MatrixShape(ms, n))
              else Ok(Validated(n, req.documentIds, algorithm, params, true))
  }

  /**
   * The later checks in order: a wrong-length id list wins over an unknown algorithm,
   * which wins over a bad distance matrix; an empty id list is always accepted.
   */
  lemma LaterChecksInOrder(req: Request, n: nat, d: nat)
    requires req.embeddings == Some(Shaped([n, d])) && n >= 2
    ensures |req.documentIds| > 0 && |req.documentIds| != n ==>
      ValidateInputs(req) == Err(IdsMismatch(|req.documentIds|, n))
    ensures (|req.documentIds| == 0 || |req.documentIds| == n) && req.algorithm.Some? && req.algorithm.value !in Algorithms ==>
      ValidateInputs(req) == Err(UnknownAlgorithm(req.algorithm.value))
    ensures (|req.documentIds| == 0 || |req.documentIds| == n) && req.algorithm.GetOr("hdbscan") in Algorithms &&
            req.distanceMatrix.Some? && req.distanceMatrix.value.Shaped? && req.distanceMatrix.value.shape != [n, n] ==>
      ValidateInputs(req) == Err(MatrixShape(req.distanceMatrix.value.shape, n))
  {
  }

  // ---------------------------------------------------------------------------
  // Dispatch
  // ---------------------------------------------------------------------------

  /** A raised exception, by the handler of the entry point that catches it. */
  datatype ErrorKind = ValueErr | ImportErr | OtherErr
  datatype Raised = Raised(kind: ErrorKind, typeName: string, message: string)

  /**
   * The library calls (oracles): HDBSCAN's labels and probabilities, the import of the
   * agglomerative estimator (`None` when it succeeds), agglomerative clustering's labels,
   * k-means' labels for a given `k`, and the per-cluster centroid, coherence and
   * silhouette computations. The silhouette is the library's score for inputs that pass
   * its own label-count check; that check is part of the model (`Silhouette`).
   */
  datatype Library = Library(
    hdbscan: Result<(seq<int>, seq<real>), Raised>,
    agglomerativeImport: Option<Raised>,
    agglomerative: Result<seq<int>, Raised>,
    kmeans: int -> Result<seq<int>, Raised>,
    centroid: int -> seq<real>,
    pairwiseCoherence: int -> real,
    silhouette: real)

  const WardMessage := "Ward linkage is incompatible with cosine distance. Use 'average', 'complete', or 'single' instead."

  /** `math.isqrt(n)`: the largest root whose square does not exceed `n`. */
  function Isqrt(n: nat): (r: nat)
    ensures r * r <= n < (r + 1) * (r + 1)
  {
    if n == 0 then 0
    else
      var r := Isqrt(n - 1);
      if (r + 1) * (r + 1) <= n then r + 1 else r
  }

  /** The k-means default: `max(2, min(int(sqrt(N)), N - 1))`. */
  function DefaultK(n: nat): (k: int)
    ensures k >= 2
  {
    var m := if Isqrt(n) < n - 1 then Isqrt(n) else n - 1;
    if m < 2 then 2 else m
  }

  /**
   * The default `k` is the integer square root for every `N` of at least 4, and 2
   * below that; it never exceeds `N - 1` once `N` is at least 3.
   */
  lemma DefaultKIsRoot(n: nat)
    ensures n >= 4 ==> DefaultK(n) == Isqrt(n)
    ensures n < 4 ==> DefaultK(n) == 2
    ensures n >= 3 ==> DefaultK(n) <= n - 1
  {
    IsqrtRange(n);
  }

  /** The root is 0 at 0, 1 from 1 to 3, and between 2 and `n - 2` from 4 on. */
  lemma {:induction false} IsqrtRange(n: nat)
    ensures n == 0 ==> Isqrt(n) == 0
    ensures 1 <= n < 4 ==> Isqrt(n) == 1
    ensures n >= 4 ==> 2 <= Isqrt(n) <= n - 2
  {
    if n > 0 {
      IsqrtRange(n - 1);
    }
  }

  /** One probability of 1.0 per label, for the algorithms that produce none. */
  function Ones(n: nat): (r: seq<real>)
    ensures |r| == n && forall i :: 0 <= i < n ==> r[i] == 1.0
  {
    seq(n, _ => 1.0)
  }

  /**
   * Dispatch to the chosen algorithm; agglomerative imports its estimator first and then
   * rejects `ward` before fitting.
   */
  function Cluster(v: Validated, lib: Library): (r: Result<(seq<int>, seq<real>), Raised>)
    requires v.algorithm in Algorithms
    ensures v.algorithm == "agglomerative" && lib.agglomerativeImport.Some? ==> r == Err(lib.agglomerativeImport.value)
    ensures v.algorithm == "agglomerative" && lib.agglomerativeImport.None? && v.params.linkage == "ward" ==>
      r == Err(Raised(ValueErr, "ValueError", WardMessage))
    ensures v.algorithm != "hdbscan" && r.Ok? ==>
      |r.value.1| == |r.value.0| && forall i :: 0 <= i < |r.value.1| ==> r.value.1[i] == 1.0
    ensures v.algorithm == "kmeans" && v.params.nClusters.None? ==> r == KMeansWith(lib, DefaultK(v.nDocs))
  {
    if v.algorithm == "hdbscan" then lib.hdbscan
    else if v.algorithm == "agglomerative" then
      if lib.agglomerativeImport.Some? then Err(lib.agglomerativeImport.value)
      else if v.params.linkage == "ward" then Err(Raised(ValueErr, "ValueError", WardMessage))
      else match lib.agglomerative
        case Err(e) => Err(e)
        case Ok(labels) => Ok((labels, Ones(|labels|)))
    else KMeansWith(lib, if v.params.nClusters.Some? then v.params.nClusters.value else DefaultK(v.nDocs))
  }

  function KMeansWith(lib: Library, k: int): Result<(seq<int>, seq<real>), Raised> {
    match lib.kmeans(k)
    case Err(e) => Err(e)
    case Ok(labels) => Ok((labels, Ones(|labels|)))
  }

  // ---------------------------------------------------------------------------
  // Label bookkeeping
  // ---------------------------------------------------------------------------

  const Noise := -1

  predicate StrictlyIncreasing(xs: seq<int>) {
    forall i, j :: 0 <= i < j < |xs| ==> xs[i] < xs[j]
  }

  /** `[i for i where labels[i] == -1]` */
  function NoiseIndices(labels: seq<int>): (r: seq<nat>)
    ensures forall i :: i in r <==> 0 <= i < |labels| && labels[i] == Noise
    ensures forall i, j :: 0 <= i < j < |r| ==> r[i] < r[j]
    ensures forall j :: 0 <= j < |r| ==> r[j] < |labels|
  {
    if |labels| == 0 then []
    else
      var n := |labels| - 1;
      var r := NoiseIndices(labels[..n]);
      assert forall i :: 0 <= i < n ==> labels[..n][i] == labels[i];
      r + (if labels[n] == Noise then [n] else [])
  }

  /** How often `x` occurs in `xs` (`(labels == x).sum()`). */
  function Count(xs: seq<int>, x: int): nat {
    if |xs| == 0 then 0 else Count(xs[..|xs| - 1], x) + (if xs[|xs| - 1] == x then 1 else 0)
  }

  /** `noise_count` is the number of noise indices. */
  lemma {:induction false} NoiseCountIsIndices(labels: seq<int>)
    ensures Count(labels, Noise) == |NoiseIndices(labels)|
  {
    if |labels| > 0 {
      NoiseCountIsIndices(labels[..|labels| - 1]);
    }
  }

  /** Insert `x` into a strictly increasing sequence unless present (building `sorted(set(...))`). */
  function InsertUnique(x: int, xs: seq<int>): (r: seq<int>)
    requires StrictlyIncreasing(xs)
    ensures StrictlyIncreasing(r)
    ensures forall y :: y in r <==> y == x || y in xs
  {
    if |xs| == 0 then [x]
    else if x == xs[0] then xs
    else if x < xs[0] then [x] + xs
    else
      var rest := InsertUnique(x, xs[1..]);
      assert rest[0] == x || rest[0] in xs[1..];
      [xs[0]] + rest
  }

  /** `sorted(set(labels))` */
  function SortedUnique(labels: seq<int>): (r: seq<int>)
    ensures StrictlyIncreasing(r)
    ensures forall y :: y in r <==> y in labels
  {
    if |labels| == 0 then []
    else
      var n := |labels| - 1;
      assert labels == labels[..n] + [labels[n]];
      InsertUnique(labels[n], SortedUnique(labels[..n]))
  }

  /** The list with the noise label taken out (the `if k == -1: continue` of the loops). */
  function DropNoise(ids: seq<int>): (r: seq<int>)
    ensures forall y :: y in r <==> y in ids && y != Noise
    ensures StrictlyIncreasing(ids) ==> StrictlyIncreasing(r)
  {
    if |ids| == 0 then []
    else
      var n := |ids| - 1;
      assert ids == ids[..n] + [ids[n]];
      var d := DropNoise(ids[..n]);
      DropNoiseStep(ids, d);
      d + (if ids[n] == Noise then [] else [ids[n]])
  }

  /** Keeping the last label after the filtered prefix keeps the order. */
  lemma DropNoiseStep(ids: seq<int>, d: seq<int>)
    requires |ids| > 0
    requires forall y :: y in d ==> y in ids[..|ids| - 1]
    requires StrictlyIncreasing(ids[..|ids| - 1]) ==> StrictlyIncreasing(d)
    ensures StrictlyIncreasing(ids) ==> StrictlyIncreasing(d + (if ids[|ids| - 1] == Noise then [] else [ids[|ids| - 1]]))
  {
    var n := |ids| - 1;
    if StrictlyIncreasing(ids) && ids[n] != Noise {
      assert StrictlyIncreasing(ids[..n]);
      forall i, j | 0 <= i < j < |d + [ids[n]]| ensures (d + [ids[n]])[i] < (d + [ids[n]])[j] {
        if j == |d| {
          assert d[i] in d;
        }
      }
    }
  }

  /** The cluster labels the per-cluster loops visit: ascending, noise left out. */
  function ClusterIds(labels: seq<int>): (r: seq<int>)
    ensures StrictlyIncreasing(r)
    ensures forall y :: y in r <==> y in labels && y != Noise
  {
    DropNoise(SortedUnique(labels))
  }

  /** `n_clusters`: the distinct labels other than -1. */
  function NClusters(labels: seq<int>): nat {
    |set l | l in labels && l != Noise|
  }

  lemma {:induction false} DistinctCard(xs: seq<int>)
    requires StrictlyIncreasing(xs)
    ensures |set x | x in xs| == |xs|
  {
    if |xs| > 0 {
      DistinctCard(xs[1..]);
      assert (set x | x in xs) == {xs[0]} + (set x | x in xs[1..]);
      assert xs[0] !in (set x | x in xs[1..]);
    }
  }

  /** The loops visit exactly `n_clusters` labels, so centroids and scores have that length. */
  lemma ClusterIdsCount(labels: seq<int>)
    ensures |ClusterIds(labels)| == NClusters(labels)
  {
    var ids := ClusterIds(labels);
    DistinctCard(ids);
    assert (set x | x in ids) == (set l | l in labels && l != Noise);
  }

  /** Each label is noise or a cluster: `n_clusters` plus one if any noise is the number of distinct labels. */
  lemma LabelsSplit(labels: seq<int>)
    ensures |set l | l in labels| == NClusters(labels) + (if Noise in labels then 1 else 0)
  {
    var all := set l | l in labels;
    var clusters := set l | l in labels && l != Noise;
    if Noise in labels {
      assert all == clusters + {Noise};
    } else {
      assert all == clusters;
    }
  }

  /** The coherence of cluster `k`: 1.0 for a single member, else the library's average similarity. */
  function Coherence(labels: seq<int>, k: int, lib: Library): real {
    if Count(labels, k) < 2 then 1.0 else lib.pairwiseCoherence(k)
  }

  /** `compute_centroids`: one centroid per cluster label, in ascending label order. */
  method ComputeCentroids(labels: seq<int>, lib: Library) returns (centroids: seq<seq<real>>)
    ensures |centroids| == |ClusterIds(labels)|
    ensures forall j :: 0 <= j < |centroids| ==> centroids[j] == lib.centroid(ClusterIds(labels)[j])
  {
    var uniqueLabels := SortedUnique(labels);
    centroids := [];
    for i := 0 to |uniqueLabels|
      invariant |centroids| == |DropNoise(uniqueLabels[..i])|
      invariant forall j :: 0 <= j < |centroids| ==> centroids[j] == lib.centroid(DropNoise(uniqueLabels[..i])[j])
    {
      assert uniqueLabels[..i + 1][..i] == uniqueLabels[..i];
      var k := uniqueLabels[i];
      if k == Noise {
        continue;
      }
      centroids := centroids + [lib.centroid(k)];
    }
    assert uniqueLabels[..|uniqueLabels|] == uniqueLabels;
  }

  /** `compute_coherence_scores`: one score per cluster label, in ascending label order. */
  method ComputeCoherenceScores(labels: seq<int>, lib: Library) returns (scores: seq<real>)
    ensures |scores| == |ClusterIds(labels)|
    ensures forall j :: 0 <= j < |scores| ==> scores[j] == Coherence(labels, ClusterIds(labels)[j], lib)
  {
    var uniqueLabels := SortedUnique(labels);
    scores := [];
    for i := 0 to |uniqueLabels|
      invariant |scores| == |DropNoise(uniqueLabels[..i])|
      invariant forall j :: 0 <= j < |scores| ==> scores[j] == Coherence(labels, DropNoise(uniqueLabels[..i])[j], lib)
    {
      assert uniqueLabels[..i + 1][..i] == uniqueLabels[..i];
      var k := uniqueLabels[i];
      if k == Noise {
        continue;
      }
      if Count(labels, k) < 2 {
        scores := scores + [1.0];
        continue;
      }
      scores := scores + [lib.pairwiseCoherence(k)];
    }
    assert uniqueLabels[..|uniqueLabels|] == uniqueLabels;
  }

  /** A label that occurs once scores 1.0. */
  lemma SingleMemberCoherent(labels: seq<int>, k: int, lib: Library)
    requires Count(labels, k) == 1
    ensures Coherence(labels, k, lib) == 1.0
  {
  }

  /** The non-noise labels (`labels >= 0`; labels below -1 are dropped here too). */
  function Kept(labels: seq<int>): (r: seq<int>)
    ensures |r| <= |labels|
    ensures forall y :: y in r <==> y in labels && y >= 0
  {
    if |labels| == 0 then []
    else
      var n := |labels| - 1;
      assert labels == labels[..n] + [labels[n]];
      Kept(labels[..n]) + (if labels[n] >= 0 then [labels[n]] else [])
  }

  /** No label occurs twice. */
  predicate Distinct(xs: seq<int>) {
    forall i, j :: 0 <= i < j < |xs| ==> xs[i] != xs[j]
  }

  /**
   * The message of scikit-learn's label-count check, which `silhouette_score` runs
   * before scoring: it needs between 2 and `n_samples - 1` labels.
   */
  function LabelCountMessage(nLabels: nat): string {
    "Number of labels is " + NatToDecimal(nLabels) + ". Valid values are 2 to n_samples - 1 (inclusive)"
  }

  /**
   * `compute_silhouette`: 0.0 unless two clusters and two points remain without noise;
   * otherwise the library's label-count check, then its score.
   */
  function Silhouette(labels: seq<int>, lib: Library): Result<real, Raised> {
    var kept := Kept(labels);
    var nLabels := |set l | l in kept|;
    if nLabels < 2 || |kept| < 2 then Ok(0.0)
    else if nLabels >= |kept| then Err(Raised(ValueErr, "ValueError", LabelCountMessage(nLabels)))
    else Ok(lib.silhouette)
  }

  /**
   * The sample-count guard is implied by the cluster-count guard: two clusters need two
   * points. Past the guard, the library's check fails exactly when every kept point has
   * a label of its own.
   */
  lemma SilhouetteGuard(labels: seq<int>, lib: Library)
    ensures var kept := Kept(labels);
      Silhouette(labels, lib) ==
        if |set l | l in kept| < 2 then Ok(0.0)
        else if Distinct(kept) then Err(Raised(ValueErr, "ValueError", LabelCountMessage(|kept|)))
        else Ok(lib.silhouette)
  {
    var kept := Kept(labels);
    if |kept| < 2 && |set l | l in kept| >= 2 {
      SetOfShortSeq(kept);
    }
    DistinctIffCard(kept);
  }

  /** A sequence has at most as many distinct members as entries, and as many exactly when no entry repeats. */
  lemma {:induction false} DistinctIffCard(xs: seq<int>)
    ensures |set x | x in xs| <= |xs|
    ensures |set x | x in xs| == |xs| <==> Distinct(xs)
  {
    if |xs| > 0 {
      var n := |xs| - 1;
      var init := xs[..n];
      DistinctIffCard(init);
      assert xs == init + [xs[n]];
      assert (set x | x in xs) == (set x | x in init) + {xs[n]};
      if xs[n] in init {
        assert (set x | x in xs) == (set x | x in init);
        var k :| 0 <= k < n && init[k] == xs[n];
        assert xs[k] == xs[n];
      } else {
        assert Distinct(xs) <==> Distinct(init);
      }
    }
  }

  lemma SetOfShortSeq(xs: seq<int>)
    requires |xs| < 2
    ensures |set x | x in xs| < 2
  {
    if |xs| == 1 {
      assert (set x | x in xs) == {xs[0]};
    } else {
      assert (set x | x in xs) == {};
    }
  }

  /** Every label noise: no clusters, every index is a noise index, and the silhouette is 0.0. */
  lemma AllNoise(labels: seq<int>, lib: Library)
    requires forall i :: 0 <= i < |labels| ==> labels[i] == Noise
    ensures NClusters(labels) == 0 && |ClusterIds(labels)| == 0
    ensures |NoiseIndices(labels)| == |labels|
    ensures Silhouette(labels, lib) == Ok(0.0)
  {
    ClusterIdsCount(labels);
    assert (set l | l in labels && l != Noise) == {};
    CountAll(labels, Noise);
    NoiseCountIsIndices(labels);
    var kept := Kept(labels);
    assert (set l | l in kept) == {};
  }

  lemma {:induction false} CountAll(xs: seq<int>, x: int)
    requires forall i :: 0 <= i < |xs| ==> xs[i] == x
    ensures Count(xs, x) == |xs|
  {
    if |xs| > 0 {
      CountAll(xs[..|xs| - 1], x);
    }
  }

  // ---------------------------------------------------------------------------
  // run_clustering and the entry point
  // ---------------------------------------------------------------------------

  datatype ClusteringResult = ClusteringResult(
    labels: seq<int>,
    probabilities: seq<real>,
    centroids: seq<seq<real>>,
    nClusters: nat,
    noiseCount: nat,
    noiseIndices: seq<nat>,
    silhouette: real,
    coherenceScores: seq<real>)

  /** `run_clustering` as a function of the request and the library. */
  function RunClustering(req: Request, lib: Library): Result<ClusteringResult, Raised> {
    match ValidateInputs(req)
    case Err(e) => Err(Raised(ValueErr, "ValueError", e.Message()))
    case Ok(v) =>
      match Cluster(v, lib)
      case Err(e) => Err(e)
      case Ok((labels, probabilities)) =>
        match Silhouette(labels, lib)
        case Err(e) => Err(e)
        case Ok(silhouette) =>
          var ids := ClusterIds(labels);
          Ok(ClusteringResult(
            labels, probabilities,
            seq(|ids|, j requires 0 <= j < |ids| => lib.centroid(ids[j])),
            NClusters(labels), Count(labels, Noise), NoiseIndices(labels), silhouette,
            seq(|ids|, j requires 0 <= j < |ids| => Coherence(labels, ids[j], lib))))
  }

  /**
   * What a successful run promises: one centroid and one coherence score per cluster
   * (`n_clusters` of each), the noise count equal to the number of noise indices, and,
   * for the algorithms without probabilities, one probability of 1.0 per label.
   */
  lemma RunClusteringCounts(req: Request, lib: Library)
    requires RunClustering(req, lib).Ok?
    ensures var r := RunClustering(req, lib).value;
      && |r.centroids| == r.nClusters && |r.coherenceScores| == r.nClusters
      && r.noiseCount == |r.noiseIndices|
      && (req.algorithm.Some? && req.algorithm.value != "hdbscan" ==>
            |r.probabilities| == |r.labels| && forall i :: 0 <= i < |r.probabilities| ==> r.probabilities[i] == 1.0)
  {
    var v := ValidateInputs(req).value;
    var labels := Cluster(v, lib).value.0;
    ClusterIdsCount(labels);
    NoiseCountIsIndices(labels);
  }

  /** The `ImportError` handler's message: the missing module's text with the install hint. */
  function MissingDependency(m: string): (s: string)
    ensures |s| == |MissingDependencyPrefix| + |m| + |MissingDependencyHint|
    ensures s[..|MissingDependencyPrefix|] == MissingDependencyPrefix
    ensures s[|MissingDependencyPrefix|..|MissingDependencyPrefix| + |m|] == m
    ensures s[|MissingDependencyPrefix| + |m|..] == MissingDependencyHint
  {
    MissingDependencyPrefix + m + MissingDependencyHint
  }

  const MissingDependencyPrefix := "Missing dependency: "
  const MissingDependencyHint := ". Requires scikit-learn >= 1.3 and numpy."

  /** What the entry point prints: the result, or `success=false` with the error and its type. */
  datatype Outcome = Succeeded(result: ClusteringResult) | Failed(error: string, errorType: string)

  /**
   * `main`: blank input is a `ValueError`; unparseable JSON is a `JSONDecodeError`;
   * then the run's exceptions go by handler: `ValueError`, `ImportError` with its hint,
   * and any other by its own type name.
   */
  function RunMain(stdin: string, parse: string -> Result<Request, string>, lib: Library): (o: Outcome)
    ensures IsBlank(stdin) ==> o == Failed("Empty input on stdin", "ValueError")
    ensures !IsBlank(stdin) && parse(stdin).Err? ==> o == Failed("Invalid JSON input: " + parse(stdin).error, "JSONDecodeError")
    ensures !IsBlank(stdin) && parse(stdin).Ok? ==>
      (o.Succeeded? <==> RunClustering(parse(stdin).value, lib).Ok?)
    ensures o.Succeeded? ==> !IsBlank(stdin) && parse(stdin).Ok? && o.result == RunClustering(parse(stdin).value, lib).value
    ensures !IsBlank(stdin) && parse(stdin).Ok? && RunClustering(parse(stdin).value, lib).Err? ==>
      var e := RunClustering(parse(stdin).value, lib).error;
      (e.kind == ValueErr ==> o == Failed(e.message, "ValueError"))
      && (e.kind == ImportErr ==> o == Failed(MissingDependency(e.message), "ImportError"))
      && (e.kind == OtherErr ==> o == Failed(e.message, e.typeName))
  {
    if IsBlank(stdin) then Failed("Empty input on stdin", "ValueError")
    else match parse(stdin)
      case Err(m) => Failed("Invalid JSON input: " + m, "JSONDecodeError")
      case Ok(req) =>
        match RunClustering(req, lib)
        case Ok(r) => Succeeded(r)
        case Err(Raised(ValueErr, _, m)) => Failed(m, "ValueError")
        case Err(Raised(ImportErr, _, m)) =>
          Failed(MissingDependency(m), "ImportError")
        case Err(Raised(OtherErr, t, m)) => Failed(m, t)
  }

  /** Every invalid request ends as a `ValueError` carrying the validation message. */
  lemma InvalidRequestIsValueError(stdin: string, parse: string -> Result<Request, string>, lib: Library)
    requires !IsBlank(stdin) && parse(stdin).Ok? && ValidateInputs(parse(stdin).value).Err?
    ensures RunMain(stdin, parse, lib) == Failed(ValidateInputs(parse(stdin).value).error.Message(), "ValueError")
  {
  }

  /**
   * Two documents clustered by k-means with the default `k` (2) into two clusters:
   * every kept point is its own cluster, so the silhouette's label-count check fails and
   * the entry point reports a `ValueError`.
   */
  lemma TwoSingletonsFailSilhouette(stdin: string, parse: string -> Result<Request, string>, lib: Library, d: nat)
    requires !IsBlank(stdin) && parse(stdin).Ok?
    requires parse(stdin).value == Request(Some(Shaped([2, d])), [], Some("kmeans"), None, None, None, None, None)
    requires lib.kmeans(2) == Ok([0, 1])
    ensures RunMain(stdin, parse, lib) == Failed(LabelCountMessage(2), "ValueError")
  {
    TwoSingletonsRun(parse(stdin).value, lib, d);
  }

  lemma TwoSingletonsRun(req: Request, lib: Library, d: nat)
    requires req == Request(Some(Shaped([2, d])), [], Some("kmeans"), None, None, None, None, None)
    requires lib.kmeans(2) == Ok([0, 1])
    ensures RunClustering(req, lib) == Err(Raised(ValueErr, "ValueError", LabelCountMessage(2)))
  {
    var v := Validated(2, [], "kmeans", Params(None, 3, 1.0, "average"), false);
    assert ValidateInputs(req) == Ok(v);
    assert DefaultK(2) == 2 by {
      IsqrtRange(2);
    }
    assert Cluster(v, lib) == Ok(([0, 1], Ones(2)));
    TwoSingletonsSilhouette(lib);
  }

  lemma TwoSingletonsSilhouette(lib: Library)
    ensures Silhouette([0, 1], lib) == Err(Raised(ValueErr, "ValueError", LabelCountMessage(2)))
  {
    var kept := Kept([0, 1]);
    assert kept == [0, 1] by {
      assert [0, 1][..1] == [0];
      assert [0][..0] == [];
    }
    assert (set l | l in kept) == {0, 1};
  }
}
