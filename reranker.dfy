/**
 * The local cross-encoder reranking worker: a one-slot model cache, the
 * (query, passage) pairs sent to the model, the result records built from
 * the scores, and the stable descending sort by relevance.
 *
 * The cross-encoder itself is an oracle: loading it is a `Result` handed in
 * by the caller, and `predict` is a function from the pairs to the scores.
 */
module Reranker {
  import opened Wrappers
  import PyStr

  const RerankModelName: string := "cross-encoder/ms-marco-MiniLM-L-12-v2"
  const NotInstalledMessage: string :=
    "sentence-transformers not installed. Install with: pip install sentence-transformers"
  /** Passages are cut to this many characters before scoring. */
  const MaxPassageChars: nat := 500

  /** A loaded cross-encoder; `instance` tells two loads of the same name apart. */
  datatype Model = Model(name: string, instance: nat)

  /** The two module globals `_cached_model` and `_cached_model_name`. */
  datatype Cache = Cache(model: Option<Model>, name: Option<string>)

  /** How the model is obtained: whether the library imports, and what constructing it yields. */
  datatype Loader = Loader(installed: bool, construct: Result<Model, string>)

  /** Why `get_model` gave no model: the library is missing (the process exits), or construction raised. */
  datatype LoadFailure = NotInstalled | Raised(message: string)

  function Message(f: LoadFailure): string {
    match f
    case NotInstalled => NotInstalledMessage
    case Raised(m) => m
  }

  /** `get_model`: the cached model when the name matches, otherwise a fresh load that replaces the cache. */
  function GetModelStep(c: Cache, modelName: string, loader: Loader): (Cache, Result<Model, LoadFailure>) {
    if !loader.installed then (c, Err(NotInstalled))
    else if c.model.Some? && c.name == Some(modelName) then (c, Ok(c.model.value))
    else match loader.construct
      case Err(e) => (c, Err(Raised(e)))
      case Ok(m) => (Cache(Some(m), Some(modelName)), Ok(m))
  }

  /** A hit returns the cached model and leaves the cache alone, whatever loading would have done. */
  lemma CacheHit(c: Cache, modelName: string, loader: Loader)
    requires loader.installed && c.model.Some? && c.name == Some(modelName)
    ensures GetModelStep(c, modelName, loader) == (c, Ok(c.model.value))
  {
  }

  /**
   * After a successful call the cache holds exactly the returned model under
   * the requested name, and a failed call leaves the cache as it was.
   */
  lemma CacheAfterCall(c: Cache, modelName: string, loader: Loader)
    ensures var (c', r) := GetModelStep(c, modelName, loader);
      (r.Ok? ==> c' == Cache(Some(r.value), Some(modelName)) && (c.model.Some? && c.name == Some(modelName) ==> c' == c))
      && (r.Err? ==> c' == c)
      && (r.Ok? <==> loader.installed && ((c.model.Some? && c.name == Some(modelName)) || loader.construct.Ok?))
  {
  }

  class RerankerCache {
    var model: Option<Model>
    var name: Option<string>

    function State(): Cache
      reads this
    {
      Cache(model, name)
    }

    /** The process starts with nothing cached. */
    constructor ()
      ensures State() == Cache(None, None)
    {
      model := None;
      name := None;
    }

    method GetModel(modelName: string, loader: Loader) returns (r: Result<Model, LoadFailure>)
      modifies this
      ensures (State(), r) == GetModelStep(old(State()), modelName, loader)
    {
      if !loader.installed {
        return Err(NotInstalled);
      }
      if model.Some? && name == Some(modelName) {
        return Ok(model.value);
      }
      if loader.construct.Err? {
        return Err(Raised(loader.construct.error));
      }
      model := Some(loader.construct.value);
      name := Some(modelName);
      return Ok(loader.construct.value);
    }

    /** `rerank`: obtains the model, scores the pairs, builds and sorts the results. */
    method Rerank(query: string, passages: seq<Passage>, loader: Loader, predict: seq<Pair> -> Result<seq<real>, string>)
      returns (r: Result<seq<Ranked>, LoadFailure>)
      modifies this
      ensures (State(), r) == RerankStep(old(State()), query, passages, loader, predict)
    {
      var m := GetModel(RerankModelName, loader);
      if m.Err? {
        return Err(m.error);
      }
      var pairs := Pairs(query, passages);
      if pairs.Err? {
        return Err(Raised(pairs.error));
      }
      var scores := predict(pairs.value);
      if scores.Err? {
        return Err(Raised(scores.error));
      }
      var built := BuildResults(passages, scores.value);
      if built.Err? {
        return Err(Raised(built.error));
      }
      return Ok(SortByRelevance(built.value));
    }
  }

  /** A passage as the caller sends it; a missing key is `None`. */
  datatype Passage = Passage(index: Option<int>, text: Option<string>, originalScore: Option<real>)

  type Pair = (string, string)

  /** One output record `{index, relevance_score, original_score}`. */
  datatype Ranked = Ranked(index: int, relevance: real, original: real)

  /** The `KeyError` text for a missing key, as `str(e)` shows it. */
  function KeyError(key: string): string {
    "'" + key + "'"
  }

  /** The pairs `(query, text[:500])`; the first passage without a text raises `KeyError`. */
  function Pairs(query: string, passages: seq<Passage>): (r: Result<seq<Pair>, string>)
    ensures r.Ok? <==> forall i :: 0 <= i < |passages| ==> passages[i].text.Some?
    ensures r.Err? ==> r.error == KeyError("text")
    ensures r.Ok? ==> |r.value| == |passages| && forall i :: 0 <= i < |passages| ==>
      r.value[i].0 == query && |r.value[i].1| <= MaxPassageChars
      && r.value[i].1 == PyStr.Take(passages[i].text.value, MaxPassageChars)
  {
    if |passages| == 0 then Ok([])
    else match passages[0].text
      case None => Err(KeyError("text"))
      case Some(t) =>
        match Pairs(query, passages[1..])
        case Err(e) => Err(e)
        case Ok(rest) => Ok([(query, PyStr.Take(t, MaxPassageChars))] + rest)
  }

  /** The records for the first `n` zipped (passage, score) couples. */
  function Built(passages: seq<Passage>, scores: seq<real>, n: nat): Result<seq<Ranked>, string>
    requires n <= |passages| && n <= |scores|
  {
    if n == 0 then Ok([])
    else match Built(passages, scores, n - 1)
      case Err(e) => Err(e)
      case Ok(rs) =>
        var p := passages[n - 1];
        if p.index.None? then Err(KeyError("index"))
        else Ok(rs + [Ranked(p.index.value, scores[n - 1], p.originalScore.GetOr(0.0))])
  }

  function ZipLength(passages: seq<Passage>, scores: seq<real>): nat {
    if |passages| < |scores| then |passages| else |scores|
  }

  /**
   * The built records pair the i-th passage with the i-th score, stop at the
   * shorter input, and default a missing original score to 0.
   */
  lemma {:induction false} BuiltMeaning(passages: seq<Passage>, scores: seq<real>, n: nat)
    requires n <= |passages| && n <= |scores|
    ensures var r := Built(passages, scores, n);
      (r.Ok? <==> forall i :: 0 <= i < n ==> passages[i].index.Some?)
      && (r.Err? ==> r.error == KeyError("index"))
      && (r.Ok? ==> |r.value| == n && forall i :: 0 <= i < n ==>
            r.value[i] == Ranked(passages[i].index.value, scores[i], passages[i].originalScore.GetOr(0.0)))
  {
    if n > 0 {
      BuiltMeaning(passages, scores, n - 1);
    }
  }

  /** The result-building loop over `zip(passages, scores)`. */
  method BuildResults(passages: seq<Passage>, scores: seq<real>) returns (r: Result<seq<Ranked>, string>)
    ensures r == Built(passages, scores, ZipLength(passages, scores))
  {
    var n := ZipLength(passages, scores);
    var results: seq<Ranked> := [];
    for i := 0 to n
      invariant Built(passages, scores, i) == Ok(results)
    {
      var p := passages[i];
      if p.index.None? {
        BuiltMeaning(passages, scores, n);
        return Err(KeyError("index"));
      }
      results := results + [Ranked(p.index.value, scores[i], p.originalScore.GetOr(0.0))];
    }
    return Ok(results);
  }

  /** Non-increasing relevance from left to right. */
  predicate Descending(rs: seq<Ranked>) {
    forall i, j :: 0 <= i < j < |rs| ==> rs[i].relevance >= rs[j].relevance
  }

  /** Places `x` in front of the first record whose relevance does not exceed its own. */
  function Insert(x: Ranked, rs: seq<Ranked>): (r: seq<Ranked>)
    ensures multiset(r) == multiset(rs) + multiset{x}
    ensures |r| == |rs| + 1
  {
    if |rs| == 0 || rs[0].relevance <= x.relevance then [x] + rs
    else
      assert rs == [rs[0]] + rs[1..];
      [rs[0]] + Insert(x, rs[1..])
  }

  /** `results.sort(key=relevance_score, reverse=True)`: a stable sort by descending relevance. */
  function SortByRelevance(rs: seq<Ranked>): (r: seq<Ranked>)
    ensures multiset(r) == multiset(rs)
    ensures |r| == |rs|
  {
    if |rs| == 0 then []
    else
      assert rs == [rs[0]] + rs[1..];
      Insert(rs[0], SortByRelevance(rs[1..]))
  }

  lemma {:induction false} InsertDescending(x: Ranked, rs: seq<Ranked>)
    requires Descending(rs)
    ensures Descending(Insert(x, rs))
    ensures |rs| > 0 ==> Insert(x, rs)[0].relevance == if rs[0].relevance <= x.relevance then x.relevance else rs[0].relevance
  {
    if |rs| > 0 && rs[0].relevance > x.relevance {
      InsertDescending(x, rs[1..]);
      var r := Insert(x, rs);
      assert r == [rs[0]] + Insert(x, rs[1..]);
      forall j | 0 < j < |r|
        ensures r[0].relevance >= r[j].relevance
      {
        assert r[j] in multiset(Insert(x, rs[1..]));
        assert r[j] == x || r[j] in multiset(rs[1..]);
        if r[j] != x {
          assert r[j] in rs[1..];
        }
      }
    }
  }

  /** The sorted records run from the most to the least relevant. */
  lemma {:induction false} SortedDescending(rs: seq<Ranked>)
    ensures Descending(SortByRelevance(rs))
  {
    if |rs| > 0 {
      SortedDescending(rs[1..]);
      InsertDescending(rs[0], SortByRelevance(rs[1..]));
    }
  }

  /** The records of one relevance, in their order. */
  function WithRelevance(rs: seq<Ranked>, v: real): (r: seq<Ranked>)
    ensures forall x :: x in r <==> x in rs && x.relevance == v
  {
    if |rs| == 0 then []
    else if rs[0].relevance == v then [rs[0]] + WithRelevance(rs[1..], v)
    else WithRelevance(rs[1..], v)
  }

  lemma {:induction false} InsertKeepsTies(x: Ranked, rs: seq<Ranked>, v: real)
    requires Descending(rs)
    ensures WithRelevance(Insert(x, rs), v) == if x.relevance == v then [x] + WithRelevance(rs, v) else WithRelevance(rs, v)
  {
    if |rs| > 0 && rs[0].relevance > x.relevance {
      InsertKeepsTies(x, rs[1..], v);
      assert Insert(x, rs) == [rs[0]] + Insert(x, rs[1..]);
      if x.relevance == v {
        // every record of relevance v sits after rs[0], which is strictly more relevant
        assert rs[0].relevance != v;
      }
    }
  }

  /**
   * Stability: records of equal relevance leave the sort in the order they
   * entered it, so ties keep the order of the passages.
   */
  lemma {:induction false} SortIsStable(rs: seq<Ranked>, v: real)
    ensures WithRelevance(SortByRelevance(rs), v) == WithRelevance(rs, v)
  {
    if |rs| > 0 {
      SortIsStable(rs[1..], v);
      SortedDescending(rs[1..]);
      InsertKeepsTies(rs[0], SortByRelevance(rs[1..]), v);
    }
  }

  /** The parsed stdin object; a missing key is `None`. */
  datatype Input = Input(query: Option<string>, passages: Option<seq<Passage>>)

  /** What the worker prints: the ranked array, or `{"error": message}` with exit status 1. */
  datatype Output = Printed(results: seq<Ranked>) | ErrorPrinted(message: string)

  function RerankStep(c: Cache, query: string, passages: seq<Passage>, loader: Loader,
                      predict: seq<Pair> -> Result<seq<real>, string>): (Cache, Result<seq<Ranked>, LoadFailure>) {
    var (c', m) := GetModelStep(c, RerankModelName, loader);
    if m.Err? then (c', Err(m.error))
    else match Pairs(query, passages)
      case Err(e) => (c', Err(Raised(e)))
      case Ok(pairs) =>
        match predict(pairs)
        case Err(e) => (c', Err(Raised(e)))
        case Ok(scores) =>
          match Built(passages, scores, ZipLength(passages, scores))
          case Err(e) => (c', Err(Raised(e)))
          case Ok(built) => (c', Ok(SortByRelevance(built)))
  }

  /**
   * A successful rerank returns one record per scored passage (the shorter of
   * the two lists), as a permutation of the zipped records in descending
   * relevance, with ties in passage order.
   */
  lemma RerankResult(c: Cache, query: string, passages: seq<Passage>, loader: Loader,
                     predict: seq<Pair> -> Result<seq<real>, string>, v: real)
    ensures var (_, r) := RerankStep(c, query, passages, loader, predict);
      r.Ok? ==>
        var scores := predict(Pairs(query, passages).value).value;
        var built := Built(passages, scores, ZipLength(passages, scores)).value;
        |r.value| == ZipLength(passages, scores)
        && multiset(r.value) == multiset(built)
        && Descending(r.value)
        && WithRelevance(r.value, v) == WithRelevance(built, v)
  {
    var (_, r) := RerankStep(c, query, passages, loader, predict);
    if r.Ok? {
      var scores := predict(Pairs(query, passages).value).value;
      BuiltMeaning(passages, scores, ZipLength(passages, scores));
      var built := Built(passages, scores, ZipLength(passages, scores)).value;
      SortedDescending(built);
      SortIsStable(built, v);
    }
  }

  /** The `__main__` block, run on a fresh process whose cache is empty. */
  function RunMain(stdin: Result<Input, string>, loader: Loader, predict: seq<Pair> -> Result<seq<real>, string>): (out: Output)
    ensures stdin.Err? ==> out == ErrorPrinted(stdin.error)
    ensures stdin.Ok? && stdin.value.query.None? ==> out == ErrorPrinted(KeyError("query"))
    ensures stdin.Ok? && stdin.value.query.Some? && stdin.value.passages.None? ==> out == ErrorPrinted(KeyError("passages"))
    ensures stdin.Ok? && stdin.value.query.Some? && stdin.value.passages.Some? ==>
      (stdin.value.passages.value == [] ==> out == Printed([]))
      && (stdin.value.passages.value != [] && !loader.installed ==> out == ErrorPrinted(NotInstalledMessage))
    ensures stdin.Ok? && stdin.value.query.Some? && stdin.value.passages.Some? && stdin.value.passages.value != [] ==>
      var r := RerankStep(Cache(None, None), stdin.value.query.value, stdin.value.passages.value, loader, predict).1;
      (r.Ok? ==> out == Printed(r.value)) && (r.Err? ==> out == ErrorPrinted(Message(r.error)))
  {
    match stdin
    case Err(e) => ErrorPrinted(e)
    case Ok(input) =>
      if input.query.None? then ErrorPrinted(KeyError("query"))
      else if input.passages.None? then ErrorPrinted(KeyError("passages"))
      else if input.passages.value == [] then Printed([])
      else
        var (_, r) := RerankStep(Cache(None, None), input.query.value, input.passages.value, loader, predict);
        match r
        case Err(f) => ErrorPrinted(Message(f))
        case Ok(results) => Printed(results)
  }

  /** An empty passage list prints `[]` without consulting the model at all. */
  lemma EmptyPassagesSkipModel(query: string, l1: Loader, l2: Loader,
                               p1: seq<Pair> -> Result<seq<real>, string>, p2: seq<Pair> -> Result<seq<real>, string>)
    ensures RunMain(Ok(Input(Some(query), Some([]))), l1, p1) == Printed([])
    ensures RunMain(Ok(Input(Some(query), Some([]))), l1, p1) == RunMain(Ok(Input(Some(query), Some([]))), l2, p2)
  {
  }
}
