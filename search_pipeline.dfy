/**
 * The search pipeline object: the query list (original plus expanded
 * variants), one vector search per variant, de-duplication by point id,
 * optional cross-encoder reranking and the final cut to the requested
 * limit. The embedding model, the vector store and the cross-encoder are
 * parameters.
 */
module SearchPipeline {
  import opened Wrappers
  import opened Text
  import opened Seqs
  import opened Sorting
  import opened Records

  /** The validated parameters of one search. */
  datatype SearchParams = SearchParams(
    query: string, space: Option<string>, limit: int, useReranking: bool,
    threshold: real, diversityLimit: int, expandedQueries: seq<string>, enableParallel: bool)

  /** The defaults of the parameter record: limit 5, reranking on, threshold 0.6, diversity 999, parallel on. */
  function DefaultParams(query: string): SearchParams {
    SearchParams(query, None, 5, true, 0.6, 999, [], true)
  }

  /** A point returned by the vector store: its id, payload (if any) and similarity. */
  datatype Point = Point(id: string, payload: Option<Metadata>, score: real)

  /** One result of the pipeline. */
  datatype Found = Found(id: string, text: string, metadata: Metadata, score: real,
                         rerankScore: Option<real>, boostedScore: Option<real>, queryVariant: string)

  // ---------------------------------------------------------------------
  // Query list
  // ---------------------------------------------------------------------

  predicate NonBlank(q: string) { q != "" && Strip(q) != "" }

  /**
   * The queries searched: the original followed by the expanded variants,
   * without blank strings, each kept once at its first position.
   */
  function PrepareQueries(query: string, expanded: seq<string>): (r: seq<string>)
    ensures Distinct(r)
    ensures forall q :: q in r <==> (q == query || q in expanded) && NonBlank(q)
    ensures NonBlank(query) ==> r != [] && r[0] == query
    ensures IsSubseq(r, [query] + expanded)
  {
    var all := [query] + expanded;
    var kept := Filter(all, NonBlank);
    DedupProperties(kept);
    FilterIsSubseq(all, NonBlank);
    SubseqTrans(Dedup(kept), kept, all);
    assert NonBlank(query) ==> kept[0] == query;
    Dedup(kept)
  }

  // ---------------------------------------------------------------------
  // One vector search
  // ---------------------------------------------------------------------

  /** How many candidates to ask for: three times the limit when reranking follows. */
  function SearchLimit(params: SearchParams): (r: int)
    ensures params.useReranking ==> r == 3 * params.limit
    ensures !params.useReranking ==> r == params.limit
  {
    if params.useReranking then params.limit * 3 else params.limit
  }

  /** The store's score threshold: the configured one without reranking, 0 with it. */
  function ScoreThreshold(params: SearchParams): (r: real)
    ensures params.useReranking ==> r == 0.0
    ensures !params.useReranking ==> r == params.threshold
  {
    if !params.useReranking then params.threshold else 0.0
  }

  /** The result built from one point of the store. */
  function FoundOf(p: Point, queryText: string): (r: Found)
    ensures r.id == p.id && r.score == p.score && r.queryVariant == queryText
    ensures r.rerankScore == None && r.boostedScore == None
  {
    var payload := if p.payload.Some? then p.payload.value else map[];
    Found(p.id, Get(payload, "text"), payload, p.score, None, None, queryText)
  }

  /**
   * `_single_search`. `search(embedding, space, limit, threshold)` is the
   * store's search, `None` when it fails; a failed search gives no
   * results.
   */
  function SingleSearch<E>(queryText: string, embedding: E, params: SearchParams,
                           search: (E, Option<string>, int, real) -> Option<seq<Point>>): (r: seq<Found>)
    ensures search(embedding, params.space, SearchLimit(params), ScoreThreshold(params)).None? ==> r == []
    ensures var points := search(embedding, params.space, SearchLimit(params), ScoreThreshold(params));
            points.Some? ==> |r| == |points.value|
                             && forall i :: 0 <= i < |r| ==> r[i] == FoundOf(points.value[i], queryText)
  {
    var points := search(embedding, params.space, SearchLimit(params), ScoreThreshold(params));
    if points.None? then []
    else seq(|points.value|, i requires 0 <= i < |points.value| => FoundOf(points.value[i], queryText))
  }

  /** The result lists of the variants, in query order. */
  function VariantResults<E>(queries: seq<string>, embeddings: seq<E>, params: SearchParams,
                             search: (E, Option<string>, int, real) -> Option<seq<Point>>): (r: seq<seq<Found>>)
    requires |embeddings| >= |queries|
    ensures |r| == |queries|
  {
    seq(|queries|, i requires 0 <= i < |queries| => SingleSearch(queries[i], embeddings[i], params, search))
  }

  /**
   * The sequential branch of `_parallel_search`: the variants' results
   * concatenated in query order.
   */
  method SequentialSearch<E>(queries: seq<string>, embeddings: seq<E>, params: SearchParams,
                             search: (E, Option<string>, int, real) -> Option<seq<Point>>)
    returns (results: seq<Found>)
    requires |embeddings| >= |queries|
    ensures results == Concat(VariantResults(queries, embeddings, params, search))
  {
    ghost var lists := VariantResults(queries, embeddings, params, search);
    results := [];
    var i := 0;
    while i < |queries|
      invariant 0 <= i <= |queries|
      invariant results == Concat(lists[..i])
    {
      assert lists[..i + 1][..i] == lists[..i];
      results := results + SingleSearch(queries[i], embeddings[i], params, search);
      i := i + 1;
    }
    assert lists[..i] == lists;
  }

  // ---------------------------------------------------------------------
  // De-duplication and reranking
  // ---------------------------------------------------------------------

  function IdOf(r: Found): string { r.id }

  /** `_deduplicate`: the first result of each id, in order. */
  method Deduplicate(results: seq<Found>) returns (unique: seq<Found>)
    ensures unique == DedupBy(results, IdOf)
  {
    var seen: set<string>;
    unique, seen := AppendUnseen([], {}, results, IdOf, []);
    assert [] + results == results;
  }

  /** The de-duplicated results carry distinct ids, each id of the input once, in input order. */
  lemma DeduplicateFacts(results: seq<Found>)
    ensures DistinctKeys(DedupBy(results, IdOf), IdOf)
    ensures forall k :: k in Keys(DedupBy(results, IdOf), IdOf) <==> k in Keys(results, IdOf)
    ensures IsSubseq(DedupBy(results, IdOf), results)
  {
    DedupByProperties(results, IdOf);
  }

  /** `x.get("score", 0)` ordering, descending. */
  predicate ScoreGe(a: Found, b: Found) { a.score >= b.score }

  /** `rerank_score` of a result, 0 when unset. */
  function RerankOf(r: Found): real {
    if r.rerankScore.Some? then r.rerankScore.value else 0.0
  }

  predicate RerankGe(a: Found, b: Found) { RerankOf(a) >= RerankOf(b) }

  /** The result with the cross-encoder's score written into `rerank_score` and `boosted_score`. */
  function WithScore(r: Found, s: real): (w: Found)
    ensures w.rerankScore == Some(s) && w.boostedScore == Some(s)
    ensures w.(rerankScore := r.rerankScore, boostedScore := r.boostedScore) == r
  {
    r.(rerankScore := Some(s), boostedScore := Some(s))
  }

  /** The first `n` results with the first `n` scores written in. */
  function Scored(results: seq<Found>, scores: seq<real>, n: nat): (r: seq<Found>)
    requires n <= |results| && n <= |scores|
    ensures |r| == |results|
    ensures forall i :: 0 <= i < n ==> r[i] == WithScore(results[i], scores[i])
    ensures forall i :: n <= i < |results| ==> r[i] == results[i]
  {
    seq(|results|, i requires 0 <= i < |results| => if i < n then WithScore(results[i], scores[i]) else results[i])
  }

  /** The (query, text) pairs given to the cross-encoder. */
  function Pairs(query: string, results: seq<Found>): (r: seq<(string, string)>)
    ensures |r| == |results| && forall i :: 0 <= i < |r| ==> r[i] == (query, results[i].text)
  {
    seq(|results|, i requires 0 <= i < |results| => (query, results[i].text))
  }

  /**
   * What `_rerank` returns for the scorer's answer: nothing for no
   * results; the results as they were when the scorer failed; with one
   * score per result, the scored results by descending score; otherwise
   * (the sort meets a result without a score, or writing a surplus score
   * fails) the results with the scores written so far, in input order.
   */
  function RerankOutcome(results: seq<Found>, scores: Option<seq<real>>): seq<Found> {
    if results == [] then []
    else if scores.None? then results
    else if |scores.value| == |results| then Sort(Scored(results, scores.value, |results|), RerankGe)
    else Scored(results, scores.value, Min(|scores.value|, |results|))
  }

  /**
   * `_rerank`. `scorer` is the cross-encoder over (query, text) pairs,
   * `None` when it fails. Scores are written into the results one by one,
   * then the list is sorted by descending score.
   */
  method Rerank(query: string, results: seq<Found>, scorer: seq<(string, string)> -> Option<seq<real>>)
    returns (out: seq<Found>)
    ensures out == RerankOutcome(results, scorer(Pairs(query, results)))
  {
    if results == [] {
      return [];
    }
    var scores := scorer(Pairs(query, results));
    if scores.None? {
      return results;
    }
    out := results;
    var i := 0;
    while i < |scores.value| && i < |results|
      invariant 0 <= i <= |scores.value| && i <= |results|
      invariant out == Scored(results, scores.value, i)
    {
      out := out[i := WithScore(results[i], scores.value[i])];
      i := i + 1;
    }
    if |scores.value| == |results| {
      out := Sort(out, RerankGe);
    }
  }

  /** With one score per result, the reranked list holds the scored results, best first. */
  lemma RerankOrder(results: seq<Found>, scores: seq<real>)
    requires |scores| == |results|
    ensures var out := Sort(Scored(results, scores, |results|), RerankGe);
            SortedBy(out, RerankGe) && multiset(out) == multiset(Scored(results, scores, |results|))
            && forall x :: x in out ==> x.rerankScore.Some? && x.rerankScore == x.boostedScore
  {
    var scored := Scored(results, scores, |results|);
    assert Preorder(RerankGe);
    SortSorted(scored, RerankGe);
    SortMembers(scored, RerankGe);
    SortPermutes(scored, RerankGe);
  }

  // ---------------------------------------------------------------------
  // execute
  // ---------------------------------------------------------------------

  /** The pipeline's collaborators: the batch embedder, the store and the cross-encoder (if any). */
  datatype Services<!E> = Services(
    embed: seq<string> -> seq<E>,
    search: (E, Option<string>, int, real) -> Option<seq<Point>>,
    reranker: Option<seq<(string, string)> -> Option<seq<real>>>)

  /** The order before the cut: reranked when a reranker is present and there is something to rerank, by vector score otherwise. */
  function Ordered<E>(params: SearchParams, services: Services<E>, unique: seq<Found>): seq<Found> {
    if params.useReranking && services.reranker.Some? && unique != []
    then RerankOutcome(unique, services.reranker.value(Pairs(params.query, unique)))
    else Sort(unique, ScoreGe)
  }

  /** The de-duplicated results of all variants. */
  function Unique<E>(params: SearchParams, services: Services<E>, queries: seq<string>): seq<Found>
    requires |services.embed(queries)| >= |queries|
  {
    DedupBy(Concat(VariantResults(queries, services.embed(queries), params, services.search)), IdOf)
  }

  /**
   * `execute` with the sequential search: the query list, one search per
   * variant, de-duplication, reranking (or ordering by vector score), and
   * the first `limit` results (Python's `[:limit]`). An embedder that
   * returns fewer vectors than queries makes the pipeline fail.
   */
  method Execute<E>(params: SearchParams, services: Services<E>) returns (r: Result<seq<Found>, string>)
    ensures var queries := PrepareQueries(params.query, params.expandedQueries);
            (|services.embed(queries)| < |queries| <==> r.Err?)
            && (r.Ok? ==> r.value == Take(Ordered(params, services, Unique(params, services, queries)), params.limit))
  {
    var queries := PrepareQueries(params.query, params.expandedQueries);
    var embeddings := services.embed(queries);
    if |embeddings| < |queries| {
      return Err("embedding batch shorter than the query list");
    }
    var raw := SequentialSearch(queries, embeddings, params, services.search);
    var unique := Deduplicate(raw);
    var ordered: seq<Found>;
    if params.useReranking && services.reranker.Some? && unique != [] {
      ordered := Rerank(params.query, unique, services.reranker.value);
    } else {
      ordered := Sort(unique, ScoreGe);
    }
    r := Ok(Take(ordered, params.limit));
  }

  /**
   * The pipeline's answer has distinct ids and at most `limit` results;
   * without reranking it is ordered by descending vector score.
   */
  lemma ExecuteFacts<E>(params: SearchParams, services: Services<E>, queries: seq<string>)
    requires |services.embed(queries)| >= |queries|
    ensures var out := Take(Ordered(params, services, Unique(params, services, queries)), params.limit);
            DistinctKeys(out, IdOf)
            && (params.limit >= 0 ==> |out| <= params.limit)
            && (!params.useReranking || services.reranker.None? ==> SortedBy(out, ScoreGe))
  {
    var raw := Concat(VariantResults(queries, services.embed(queries), params, services.search));
    var unique := Unique(params, services, queries);
    DedupByProperties(raw, IdOf);
    var ordered := Ordered(params, services, unique);
    if params.useReranking && services.reranker.Some? && unique != [] {
      RerankKeepsIds(unique, services.reranker.value(Pairs(params.query, unique)));
    } else {
      SortKeepsDistinct(unique, ScoreGe);
      assert Preorder(ScoreGe);
      SortSorted(unique, ScoreGe);
    }
    var out := Take(ordered, params.limit);
    assert forall i :: 0 <= i < |out| ==> out[i] == ordered[i];
  }

  /** Reranking never changes the ids of the list nor their distinctness. */
  lemma RerankKeepsIds(results: seq<Found>, scores: Option<seq<real>>)
    requires DistinctKeys(results, IdOf)
    ensures DistinctKeys(RerankOutcome(results, scores), IdOf)
  {
    if results != [] && scores.Some? {
      var n := Min(|scores.value|, |results|);
      var scored := Scored(results, scores.value, n);
      assert forall i :: 0 <= i < |scored| ==> IdOf(scored[i]) == IdOf(results[i]);
      SortKeepsDistinct(scored, RerankGe);
    }
  }

  /** Sorting keeps ids distinct. */
  lemma SortKeepsDistinct(xs: seq<Found>, ge: (Found, Found) -> bool)
    requires DistinctKeys(xs, IdOf)
    ensures DistinctKeys(Sort(xs, ge), IdOf)
  {
    SortPermutes(xs, ge);
    DistinctKeysPerm(xs, Sort(xs, ge), IdOf);
  }

}
