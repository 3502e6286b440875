/**
 * Hybrid retrieval: vector hits and BM25 hits fused by weighted
 * reciprocal rank fusion (RRF), with weights chosen from a keyword-based
 * guess of the query's intent.
 *
 * The BM25 scorer and the vector search are inputs: the scorer is a
 * function from the tokenized query to one score per corpus document.
 */
module HybridSearch {
  import opened Wrappers
  import opened Text
  import opened Seqs
  import opened Sorting
  import opened Records

  // ---------------------------------------------------------------------
  // Intent detection and adaptive weights
  // ---------------------------------------------------------------------

  datatype Intent = Navigational | Howto | Factual | Exploratory

  /** The keyword table, one list per intent. */
  function IntentKeywords(intent: Intent): seq<string> {
    match intent
    case Navigational => ["где", "url", "ссылка", "link", "find", "где найти", "найди", "покажи", "страница", "документ"]
    case Howto => ["как", "инструкция", "настроить", "установить", "запустить", "сделать"]
    case Factual => ["какой", "какая", "какие", "что", "когда", "кто", "сколько"]
    case Exploratory => ["какие", "сравни", "список", "все", "перечисли"]
  }

  /** The order in which the table is consulted (its dictionary order). */
  function Priority(intent: Intent): nat {
    match intent
    case Navigational => 0
    case Howto => 1
    case Factual => 2
    case Exploratory => 3
  }

  /** Some keyword of the list is a substring of `text`. */
  predicate Mentions(text: string, keywords: seq<string>) {
    exists kw :: kw in keywords && Contains(text, kw)
  }

  /**
   * The first intent, in table order, one of whose keywords occurs in the
   * lower-cased query; factual when none does.
   */
  function DetectQueryIntent(query: string): (r: Intent)
    ensures forall i: Intent :: Priority(i) < Priority(r) ==> !Mentions(Lower(query), IntentKeywords(i))
    ensures Mentions(Lower(query), IntentKeywords(r))
            || (r == Factual && forall i: Intent :: !Mentions(Lower(query), IntentKeywords(i)))
  {
    var q := Lower(query);
    if Mentions(q, IntentKeywords(Navigational)) then Navigational
    else if Mentions(q, IntentKeywords(Howto)) then Howto
    else if Mentions(q, IntentKeywords(Factual)) then Factual
    else if Mentions(q, IntentKeywords(Exploratory)) then Exploratory
    else Factual
  }

  /**
   * Substring matching lets the how-to keyword "как" fire inside the
   * factual question words "какой", "какая" and "какие", so a query holding
   * one of them is never classified factual.
   */
  lemma QuestionWordsReadAsHowto(query: string, word: string)
    requires word in ["какой", "какая", "какие"]
    requires Contains(Lower(query), word)
    ensures DetectQueryIntent(query) != Factual
  {
    var q := Lower(query);
    assert word == "как" + word[3..];
    ContainsPrefixOf(q, "как", word[3..]);
    assert Mentions(q, IntentKeywords(Howto));
  }

  datatype WeightPair = WeightPair(vector: real, bm25: real)

  /** The per-intent (vector, BM25) weight settings. */
  datatype WeightSettings = WeightSettings(
    navigational: WeightPair, exploratory: WeightPair, factual: WeightPair, howto: WeightPair)

  const DefaultWeights: WeightSettings := WeightSettings(
    WeightPair(0.7, 0.3), WeightPair(0.5, 0.5), WeightPair(0.6, 0.4), WeightPair(0.55, 0.45))

  const RrfK: nat := 60

  function Configured(intent: Intent, settings: WeightSettings): WeightPair {
    match intent
    case Navigational => settings.navigational
    case Exploratory => settings.exploratory
    case Factual => settings.factual
    case Howto => settings.howto
  }

  /**
   * The configured pair for the intent, scaled to sum to 1 when its sum is
   * positive and returned unchanged otherwise.
   */
  function AdaptiveWeights(intent: Intent, settings: WeightSettings): (r: WeightPair)
    ensures var c := Configured(intent, settings);
            c.vector + c.bm25 > 0.0 ==>
              r.vector + r.bm25 == 1.0
              && r.vector * (c.vector + c.bm25) == c.vector
              && r.bm25 * (c.vector + c.bm25) == c.bm25
    ensures var c := Configured(intent, settings);
            c.vector >= 0.0 && c.bm25 >= 0.0 && c.vector + c.bm25 > 0.0 ==> r.vector >= 0.0 && r.bm25 >= 0.0
    ensures var c := Configured(intent, settings);
            c.vector + c.bm25 <= 0.0 ==> r == c
  {
    var c := Configured(intent, settings);
    var total := c.vector + c.bm25;
    if total > 0.0 then WeightPair(c.vector / total, c.bm25 / total) else c
  }

  /** With the default settings every intent's weights are already normalised. */
  lemma DefaultWeightsNormalised(intent: Intent)
    ensures AdaptiveWeights(intent, DefaultWeights) == Configured(intent, DefaultWeights)
    ensures AdaptiveWeights(intent, DefaultWeights).bm25 > 0.01
  {
  }

  // ---------------------------------------------------------------------
  // BM25 corpus and top-k selection
  // ---------------------------------------------------------------------

  /** `text.lower().split()`. */
  function SimpleTokenize(text: string): seq<string> {
    Split(Lower(text))
  }

  /** Tokens are non-empty, lower-case and contain no whitespace. */
  lemma TokensAreLowerWords(text: string)
    ensures forall t :: t in SimpleTokenize(text) ==>
              |t| > 0 && IsLower(t) && forall c :: c in t ==> !IsSpace(c)
  {
    LowerWords(text);
  }

  /** A corpus document kept for BM25: its id, metadata and text. */
  datatype Node = Node(id: string, payload: Metadata, text: string)

  datatype Corpus = Corpus(tokens: seq<seq<string>>, nodes: seq<Node>)

  /** The documents with non-empty text, as nodes, in collection order. */
  function TextNodes(ids: seq<string>, docs: seq<string>, metas: seq<Metadata>): seq<Node>
    requires |docs| == |ids| && |metas| == |ids|
  {
    if ids == [] then []
    else
      var n := |ids| - 1;
      TextNodes(ids[..n], docs[..n], metas[..n]) + (if docs[n] != "" then [Node(ids[n], metas[n], docs[n])] else [])
  }

  lemma {:induction false} TextNodesEmpty(ids: seq<string>, docs: seq<string>, metas: seq<Metadata>)
    requires |docs| == |ids| && |metas| == |ids|
    ensures TextNodes(ids, docs, metas) == [] <==> forall i :: 0 <= i < |docs| ==> docs[i] == ""
    decreases |ids|
  {
    if ids != [] {
      var n := |ids| - 1;
      TextNodesEmpty(ids[..n], docs[..n], metas[..n]);
    }
  }

  /**
   * Builds the BM25 corpus from the points of the collection: one token
   * list and one node per document with non-empty text. A document list or
   * metadata list shorter than the id list, or a corpus without text, is an
   * error.
   */
  method PrepareBm25Corpus(ids: seq<string>, docs: seq<string>, metas: seq<Metadata>)
    returns (r: Result<Corpus, string>)
    ensures r.Ok? <==> |docs| >= |ids| && |metas| >= |ids| && exists i :: 0 <= i < |ids| && docs[i] != ""
    ensures r.Ok? ==>
              r.value.nodes == TextNodes(ids, docs[..|ids|], metas[..|ids|])
              && |r.value.tokens| == |r.value.nodes|
              && forall j :: 0 <= j < |r.value.tokens| ==> r.value.tokens[j] == SimpleTokenize(r.value.nodes[j].text)
  {
    var tokens: seq<seq<string>> := [];
    var nodes: seq<Node> := [];
    var idx := 0;
    while idx < |ids|
      invariant idx <= |ids| && idx <= |docs| && idx <= |metas|
      invariant nodes == TextNodes(ids[..idx], docs[..idx], metas[..idx])
      invariant |tokens| == |nodes|
      invariant forall j :: 0 <= j < |tokens| ==> tokens[j] == SimpleTokenize(nodes[j].text)
    {
      if idx >= |docs| || idx >= |metas| {
        return Err("list index out of range");
      }
      assert ids[..idx + 1][..idx] == ids[..idx];
      assert docs[..idx + 1][..idx] == docs[..idx];
      assert metas[..idx + 1][..idx] == metas[..idx];
      if docs[idx] != "" {
        tokens := tokens + [SimpleTokenize(docs[idx])];
        nodes := nodes + [Node(ids[idx], metas[idx], docs[idx])];
      }
      idx := idx + 1;
    }
    if |docs| < |ids| || |metas| < |ids| {
      // The loop only finishes when both lists are long enough.
      assert false;
    }
    assert ids[..idx] == ids;
    TextNodesEmpty(ids, docs[..|ids|], metas[..|ids|]);
    if nodes == [] {
      return Err("no text content to index");
    }
    r := Ok(Corpus(tokens, nodes));
  }

  /** A BM25 hit: the node at a corpus position with its positive score. */
  datatype Bm25Hit = Bm25Hit(id: string, score: real, payload: Metadata, text: string)

  predicate ScoreGe(a: (nat, real), b: (nat, real)) { a.1 >= b.1 }

  function Indexed(scores: seq<real>): (r: seq<(nat, real)>)
    ensures |r| == |scores|
    ensures forall i :: 0 <= i < |r| ==> r[i] == (i, scores[i])
  {
    seq(|scores|, i requires 0 <= i < |scores| => (i, scores[i]))
  }

  /** The `3 * limit` best corpus positions, best first, ties in corpus order. */
  function TopPositions(scores: seq<real>, limit: int): seq<(nat, real)> {
    Take(Sort(Indexed(scores), ScoreGe), limit * 3)
  }

  /** The hits for the selected positions whose score is positive. */
  function PositiveHits(top: seq<(nat, real)>, nodes: seq<Node>): seq<Bm25Hit>
    requires forall e :: e in top && e.1 > 0.0 ==> e.0 < |nodes|
  {
    if top == [] then []
    else
      var e := top[|top| - 1];
      PositiveHits(top[..|top| - 1], nodes)
      + (if e.1 > 0.0 then [Bm25Hit(nodes[e.0].id, e.1, nodes[e.0].payload, nodes[e.0].text)] else [])
  }

  predicate PositionsInCorpus(top: seq<(nat, real)>, nodes: seq<Node>) {
    forall e :: e in top && e.1 > 0.0 ==> e.0 < |nodes|
  }

  /**
   * `_run_bm25`: walks the best positions and keeps those with a positive
   * score. A selected position with a positive score beyond the corpus is
   * an error.
   */
  method RunBm25(scores: seq<real>, nodes: seq<Node>, limit: int) returns (r: Result<seq<Bm25Hit>, string>)
    ensures r.Ok? <==> PositionsInCorpus(TopPositions(scores, limit), nodes)
    ensures r.Ok? ==> r.value == PositiveHits(TopPositions(scores, limit), nodes)
  {
    var top := TopPositions(scores, limit);
    var res: seq<Bm25Hit> := [];
    var i := 0;
    while i < |top|
      invariant i <= |top|
      invariant PositionsInCorpus(top[..i], nodes)
      invariant res == PositiveHits(top[..i], nodes)
    {
      assert top[..i + 1][..i] == top[..i];
      var e := top[i];
      if e.1 > 0.0 {
        if e.0 >= |nodes| {
          assert e in top;
          return Err("list index out of range");
        }
        res := res + [Bm25Hit(nodes[e.0].id, e.1, nodes[e.0].payload, nodes[e.0].text)];
      }
      i := i + 1;
    }
    assert top[..i] == top;
    r := Ok(res);
  }

  lemma {:induction false} PositiveHitsFacts(top: seq<(nat, real)>, nodes: seq<Node>)
    requires PositionsInCorpus(top, nodes)
    ensures |PositiveHits(top, nodes)| <= |top|
    ensures forall h :: h in PositiveHits(top, nodes) ==> h.score > 0.0
    ensures forall h :: h in PositiveHits(top, nodes) ==>
              exists e :: e in top && e.0 < |nodes| && h == Bm25Hit(nodes[e.0].id, e.1, nodes[e.0].payload, nodes[e.0].text)
    ensures SortedBy(top, ScoreGe) ==>
              forall i, j :: 0 <= i < j < |PositiveHits(top, nodes)| ==> PositiveHits(top, nodes)[i].score >= PositiveHits(top, nodes)[j].score
    decreases |top|
  {
    if top != [] {
      var init := top[..|top| - 1];
      var e := top[|top| - 1];
      assert forall x :: x in init ==> x in top;
      PositiveHitsFacts(init, nodes);
      var p := PositiveHits(init, nodes);
      if SortedBy(top, ScoreGe) && e.1 > 0.0 {
        assert SortedBy(init, ScoreGe);
        forall h | h in p ensures h.score >= e.1 {
          var x :| x in init && x.0 < |nodes| && h == Bm25Hit(nodes[x.0].id, x.1, nodes[x.0].payload, nodes[x.0].text);
          var k :| 0 <= k < |init| && init[k] == x;
          assert ScoreGe(top[k], top[|top| - 1]);
        }
        var q := PositiveHits(top, nodes);
        assert q == p + [Bm25Hit(nodes[e.0].id, e.1, nodes[e.0].payload, nodes[e.0].text)];
        forall i, j | 0 <= i < j < |q| ensures q[i].score >= q[j].score {
          if j == |p| { assert q[i] in p; }
        }
      }
    }
  }

  /**
   * The BM25 hits of one query: at most `3 * limit` of them, all with a
   * positive score, best first, each one a corpus node with its score.
   */
  lemma TopHitsFacts(scores: seq<real>, nodes: seq<Node>, limit: int)
    requires PositionsInCorpus(TopPositions(scores, limit), nodes)
    ensures var hits := PositiveHits(TopPositions(scores, limit), nodes);
            (limit >= 0 ==> |hits| <= 3 * limit)
            && (forall h :: h in hits ==> h.score > 0.0)
            && (forall i, j :: 0 <= i < j < |hits| ==> hits[i].score >= hits[j].score)
            && (forall h :: h in hits ==> exists p :: 0 <= p < |nodes| && p < |scores| && h == Bm25Hit(nodes[p].id, scores[p], nodes[p].payload, nodes[p].text))
  {
    var sorted := Sort(Indexed(scores), ScoreGe);
    var top := TopPositions(scores, limit);
    assert Preorder(ScoreGe);
    SortSorted(Indexed(scores), ScoreGe);
    SortPermutes(Indexed(scores), ScoreGe);
    assert SortedBy(top, ScoreGe);
    PositiveHitsFacts(top, nodes);
    forall h | h in PositiveHits(top, nodes)
      ensures exists p :: 0 <= p < |nodes| && p < |scores| && h == Bm25Hit(nodes[p].id, scores[p], nodes[p].payload, nodes[p].text)
    {
      var e :| e in top && e.0 < |nodes| && h == Bm25Hit(nodes[e.0].id, e.1, nodes[e.0].payload, nodes[e.0].text);
      assert e in sorted;
      assert e in multiset(Indexed(scores));
      var i :| 0 <= i < |Indexed(scores)| && Indexed(scores)[i] == e;
    }
  }

  // ---------------------------------------------------------------------
  // Reciprocal rank fusion
  // ---------------------------------------------------------------------

  /** A vector hit; an empty id stands for a missing or falsy id. */
  datatype VectorResult = VectorResult(id: string, text: string, metadata: Metadata)

  /** One fused document while scores accumulate; ranks are 1-based. */
  datatype Fused = Fused(
    id: string, text: string, metadata: Metadata,
    vectorRank: Option<nat>, bm25Rank: Option<nat>, rrfScore: real)

  /** A fused document as returned, with `distance = 1 - rrf_score`. */
  datatype Ranked = Ranked(
    id: string, text: string, metadata: Metadata, distance: real,
    rrfScore: real, vectorRank: Option<nat>, bm25Rank: Option<nat>)

  function VIds(vs: seq<VectorResult>): (r: seq<string>)
    ensures |r| == |vs| && forall i :: 0 <= i < |vs| ==> r[i] == vs[i].id
  {
    seq(|vs|, i requires 0 <= i < |vs| => vs[i].id)
  }

  function BIds(bs: seq<Bm25Hit>): (r: seq<string>)
    ensures |r| == |bs| && forall i :: 0 <= i < |bs| ==> r[i] == bs[i].id
  {
    seq(|bs|, i requires 0 <= i < |bs| => bs[i].id)
  }

  /** The truthy ids, in order. */
  function Truthy(ids: seq<string>): seq<string> {
    if ids == [] then []
    else Truthy(ids[..|ids| - 1]) + (if ids[|ids| - 1] != "" then [ids[|ids| - 1]] else [])
  }

  lemma {:induction false} TruthyMembers(ids: seq<string>)
    ensures forall x :: x in Truthy(ids) <==> x in ids && x != ""
    decreases |ids|
  {
    if ids != [] {
      TruthyMembers(ids[..|ids| - 1]);
      assert ids == ids[..|ids| - 1] + [ids[|ids| - 1]];
    }
  }

  /** The RRF contribution `w / (k + rank)` of one occurrence at a 1-based rank. */
  function Share(w: real, k: nat, rank: nat): real
    requires rank >= 1
  {
    w / ((k + rank) as real)
  }

  /** The sum of `w / (k + rank)` over the 1-based ranks at which `id` occurs. */
  function RankSum(ids: seq<string>, id: string, w: real, k: nat): real {
    if ids == [] then 0.0
    else RankSum(ids[..|ids| - 1], id, w, k) + (if ids[|ids| - 1] == id then Share(w, k, |ids|) else 0.0)
  }

  /** The 1-based rank of the last occurrence of `id`. */
  function LastRank(ids: seq<string>, id: string): (r: Option<nat>)
    ensures r.Some? <==> id in ids
    ensures r.Some? ==> 1 <= r.value <= |ids| && ids[r.value - 1] == id
  {
    if ids == [] then None
    else if ids[|ids| - 1] == id then Some(|ids|)
    else
      assert forall x :: x in ids[..|ids| - 1] <==> x in ids && (x != ids[|ids| - 1] || x in ids[..|ids| - 1]) by {
        assert ids == ids[..|ids| - 1] + [ids[|ids| - 1]];
      }
      LastRank(ids[..|ids| - 1], id)
  }

  /** The 1-based rank of the first occurrence of `id`. */
  function FirstRank(ids: seq<string>, id: string): (r: Option<nat>)
    ensures r.Some? <==> id in ids
    ensures r.Some? ==> 1 <= r.value <= |ids| && ids[r.value - 1] == id
  {
    if ids == [] then None
    else
      assert ids == ids[..|ids| - 1] + [ids[|ids| - 1]];
      var f := FirstRank(ids[..|ids| - 1], id);
      if f.Some? then f
      else if ids[|ids| - 1] == id then Some(|ids|)
      else None
  }

  /**
   * The fused record of one id, defined from the two lists directly: the
   * text and metadata of its last vector hit, or else of its first BM25
   * hit; the rank of its last occurrence in each list; and the sum of the
   * weighted reciprocal ranks of all its occurrences.
   */
  function Entry(vs: seq<VectorResult>, bs: seq<Bm25Hit>, id: string, k: nat, vw: real, bw: real): Fused {
    Fused(id, Source(vs, bs, id).0, Source(vs, bs, id).1, LastRank(VIds(vs), id), LastRank(BIds(bs), id),
          RankSum(VIds(vs), id, vw, k) + RankSum(BIds(bs), id, bw, k))
  }

  /** The text and metadata of an id's last vector hit, or else of its first BM25 hit, or else empty. */
  function Source(vs: seq<VectorResult>, bs: seq<Bm25Hit>, id: string): (string, Metadata) {
    var vr := LastRank(VIds(vs), id);
    if vr.Some? then (vs[vr.value - 1].text, vs[vr.value - 1].metadata)
    else
      var f := FirstRank(BIds(bs), id);
      if f.Some? then (bs[f.value - 1].text, bs[f.value - 1].payload) else ("", map[])
  }


  /** The ids in first-insertion order: vector order, then BM25-only ids. */
  function FusionOrder(vs: seq<VectorResult>, bs: seq<Bm25Hit>): seq<string> {
    Dedup(Truthy(VIds(vs)) + Truthy(BIds(bs)))
  }

  function Entries(vs: seq<VectorResult>, bs: seq<Bm25Hit>, order: seq<string>, k: nat, vw: real, bw: real): (r: seq<Fused>)
    ensures |r| == |order| && forall i :: 0 <= i < |order| ==> r[i] == Entry(vs, bs, order[i], k, vw, bw)
  {
    seq(|order|, i requires 0 <= i < |order| => Entry(vs, bs, order[i], k, vw, bw))
  }

  predicate RrfGe(a: Fused, b: Fused) { a.rrfScore >= b.rrfScore }

  /** The fused list: entries in first-insertion order, stably sorted by score, best first. */
  function FusionSpec(vs: seq<VectorResult>, bs: seq<Bm25Hit>, k: nat, vw: real, bw: real): seq<Fused> {
    Sort(Entries(vs, bs, FusionOrder(vs, bs), k, vw, bw), RrfGe)
  }

  function Format(f: Fused): Ranked {
    Ranked(f.id, f.text, f.metadata, 1.0 - f.rrfScore, f.rrfScore, f.vectorRank, f.bm25Rank)
  }

  function Formatted(fs: seq<Fused>): (r: seq<Ranked>)
    ensures |r| == |fs| && forall i :: 0 <= i < |fs| ==> r[i] == Format(fs[i])
  {
    seq(|fs|, i requires 0 <= i < |fs| => Format(fs[i]))
  }

  lemma RankSumAbsent(ids: seq<string>, id: string, w: real, k: nat)
    requires id !in ids
    ensures RankSum(ids, id, w, k) == 0.0
  {
    if ids != [] {
      assert ids == ids[..|ids| - 1] + [ids[|ids| - 1]];
      RankSumAbsent(ids[..|ids| - 1], id, w, k);
    }
  }

  lemma RankSumAppend(ids: seq<string>, x: string, id: string, w: real, k: nat)
    ensures RankSum(ids + [x], id, w, k) == RankSum(ids, id, w, k) + (if x == id then Share(w, k, |ids| + 1) else 0.0)
  {
    assert (ids + [x])[..|ids|] == ids;
  }

  lemma LastRankAppend(ids: seq<string>, x: string, id: string)
    ensures LastRank(ids + [x], id) == if x == id then Some(|ids| + 1) else LastRank(ids, id)
  {
    assert (ids + [x])[..|ids|] == ids;
  }

  lemma FirstRankAppend(ids: seq<string>, x: string, id: string)
    ensures FirstRank(ids + [x], id) == if id in ids then FirstRank(ids, id) else if x == id then Some(|ids| + 1) else None
  {
    assert (ids + [x])[..|ids|] == ids;
  }

  /** A vector hit sets the text and metadata of its own id. */
  lemma SourceVectorStep(vs: seq<VectorResult>, v: VectorResult, id: string)
    ensures Source(vs + [v], [], id) == if v.id == id then (v.text, v.metadata) else Source(vs, [], id)
  {
    assert VIds(vs + [v]) == VIds(vs) + [v.id];
    LastRankAppend(VIds(vs), v.id, id);
    if v.id == id {
      assert LastRank(VIds(vs + [v]), id) == Some(|vs| + 1);
      assert (vs + [v])[|vs|] == v;
    } else {
      var vr := LastRank(VIds(vs), id);
      assert LastRank(VIds(vs + [v]), id) == vr;
      if vr.Some? { assert (vs + [v])[vr.value - 1] == vs[vr.value - 1]; }
    }
  }

  lemma VectorStep(vs: seq<VectorResult>, v: VectorResult, id: string, k: nat, vw: real, bw: real)
    ensures v.id == id ==>
              Entry(vs + [v], [], id, k, vw, bw)
              == Fused(id, v.text, v.metadata, Some(|vs| + 1), None, Entry(vs, [], id, k, vw, bw).rrfScore + Share(vw, k, |vs| + 1))
    ensures v.id != id ==> Entry(vs + [v], [], id, k, vw, bw) == Entry(vs, [], id, k, vw, bw)
  {
    assert VIds(vs + [v]) == VIds(vs) + [v.id];
    RankSumAppend(VIds(vs), v.id, id, vw, k);
    LastRankAppend(VIds(vs), v.id, id);
    SourceVectorStep(vs, v, id);
  }

  /** Only a BM25 hit for an id seen in neither list so far sets its text and metadata. */
  lemma SourceBm25Step(vs: seq<VectorResult>, bs: seq<Bm25Hit>, b: Bm25Hit, id: string)
    ensures Source(vs, bs + [b], id)
            == if b.id == id && id !in VIds(vs) && id !in BIds(bs) then (b.text, b.payload) else Source(vs, bs, id)
  {
    assert BIds(bs + [b]) == BIds(bs) + [b.id];
    FirstRankAppend(BIds(bs), b.id, id);
    var f := FirstRank(BIds(bs), id);
    if f.Some? { assert (bs + [b])[f.value - 1] == bs[f.value - 1]; }
    assert (bs + [b])[|bs|] == b;
  }

  /** A BM25 hit for another id leaves an id's record unchanged. */
  lemma Bm25StepOther(vs: seq<VectorResult>, bs: seq<Bm25Hit>, b: Bm25Hit, id: string, k: nat, vw: real, bw: real)
    requires b.id != id
    ensures Entry(vs, bs + [b], id, k, vw, bw) == Entry(vs, bs, id, k, vw, bw)
  {
    assert BIds(bs + [b]) == BIds(bs) + [b.id];
    RankSumAppend(BIds(bs), b.id, id, bw, k);
    LastRankAppend(BIds(bs), b.id, id);
    SourceBm25Step(vs, bs, b, id);
  }

  /** A BM25 hit for a known id moves its BM25 rank and adds its share. */
  lemma Bm25StepSeen(vs: seq<VectorResult>, bs: seq<Bm25Hit>, b: Bm25Hit, id: string, k: nat, vw: real, bw: real)
    requires b.id == id && (id in VIds(vs) || id in BIds(bs))
    ensures Entry(vs, bs + [b], id, k, vw, bw)
            == Entry(vs, bs, id, k, vw, bw).(bm25Rank := Some(|bs| + 1),
                                             rrfScore := Entry(vs, bs, id, k, vw, bw).rrfScore + Share(bw, k, |bs| + 1))
  {
    assert BIds(bs + [b]) == BIds(bs) + [b.id];
    RankSumAppend(BIds(bs), b.id, id, bw, k);
    LastRankAppend(BIds(bs), b.id, id);
    SourceBm25Step(vs, bs, b, id);
  }

  /** A BM25 hit for a new id gives a record with its text, payload, rank and share. */
  lemma Bm25StepNew(vs: seq<VectorResult>, bs: seq<Bm25Hit>, b: Bm25Hit, id: string, k: nat, vw: real, bw: real)
    requires b.id == id && id !in VIds(vs) && id !in BIds(bs)
    ensures Entry(vs, bs + [b], id, k, vw, bw) == Fused(id, b.text, b.payload, None, Some(|bs| + 1), 0.0 + Share(bw, k, |bs| + 1))
  {
    assert BIds(bs + [b]) == BIds(bs) + [b.id];
    RankSumAppend(BIds(bs), b.id, id, bw, k);
    LastRankAppend(BIds(bs), b.id, id);
    SourceBm25Step(vs, bs, b, id);
    RankSumAbsent(VIds(vs), id, vw, k);
    RankSumAbsent(BIds(bs), id, bw, k);
  }

  lemma DedupStep(xs: seq<string>, x: string)
    ensures Dedup(xs + [x]) == if x in Dedup(xs) then Dedup(xs) else Dedup(xs) + [x]
  {
    assert (xs + [x])[..|xs|] == xs;
  }

  lemma TruthyStep(ids: seq<string>, x: string)
    ensures Truthy(ids + [x]) == Truthy(ids) + (if x != "" then [x] else [])
  {
    assert (ids + [x])[..|ids|] == ids;
  }

  /**
   * The accumulator after a prefix `vs` of the vector hits and a prefix
   * `bs` of the BM25 hits: the ids in first-insertion order, each mapped to
   * its fused record over those prefixes.
   */
  ghost predicate Accumulated(acc: map<string, Fused>, order: seq<string>, vs: seq<VectorResult>, bs: seq<Bm25Hit>,
                              k: nat, vw: real, bw: real) {
    order == FusionOrder(vs, bs)
    && (forall id :: id in acc <==> id in order)
    && (forall id :: id in acc ==> acc[id] == Entry(vs, bs, id, k, vw, bw))
  }

  /** Appending one id to the concatenated id lists extends the first-insertion order by it if it is new and truthy. */
  lemma OrderStep(prefix: seq<string>, x: string, extended: seq<string>)
    requires extended == prefix + (if x != "" then [x] else [])
    requires forall y :: y in prefix ==> y != ""
    ensures Dedup(extended) == if x == "" || x in Dedup(prefix) then Dedup(prefix) else Dedup(prefix) + [x]
    ensures "" !in Dedup(extended)
    ensures x != "" ==> (x in Dedup(prefix) <==> x in prefix)
  {
    DedupProperties(prefix);
    if x == "" {
      assert extended == prefix;
    } else {
      DedupStep(prefix, x);
    }
    DedupProperties(extended);
  }

  lemma VectorOrderStep(vs: seq<VectorResult>, v: VectorResult)
    ensures FusionOrder(vs + [v], []) == if v.id == "" || v.id in FusionOrder(vs, []) then FusionOrder(vs, []) else FusionOrder(vs, []) + [v.id]
    ensures "" !in FusionOrder(vs + [v], [])
    ensures v.id != "" ==> (v.id in FusionOrder(vs, []) <==> v.id in VIds(vs))
  {
    assert VIds(vs + [v]) == VIds(vs) + [v.id];
    TruthyStep(VIds(vs), v.id);
    assert BIds([]) == [];
    assert Truthy(VIds(vs)) + Truthy(BIds([])) == Truthy(VIds(vs));
    assert Truthy(VIds(vs + [v])) + Truthy(BIds([])) == Truthy(VIds(vs + [v]));
    TruthyMembers(VIds(vs));
    OrderStep(Truthy(VIds(vs)), v.id, Truthy(VIds(vs + [v])));
  }

  lemma Bm25OrderStep(vs: seq<VectorResult>, bs: seq<Bm25Hit>, h: Bm25Hit)
    ensures FusionOrder(vs, bs + [h]) == if h.id == "" || h.id in FusionOrder(vs, bs) then FusionOrder(vs, bs) else FusionOrder(vs, bs) + [h.id]
    ensures "" !in FusionOrder(vs, bs + [h])
    ensures h.id != "" ==> (h.id in FusionOrder(vs, bs) <==> h.id in VIds(vs) || h.id in BIds(bs))
  {
    assert BIds(bs + [h]) == BIds(bs) + [h.id];
    TruthyStep(BIds(bs), h.id);
    var prefix := Truthy(VIds(vs)) + Truthy(BIds(bs));
    assert prefix + (if h.id != "" then [h.id] else []) == Truthy(VIds(vs)) + Truthy(BIds(bs + [h]));
    TruthyMembers(VIds(vs));
    TruthyMembers(BIds(bs));
    OrderStep(prefix, h.id, Truthy(VIds(vs)) + Truthy(BIds(bs + [h])));
  }

  lemma AccumulatedEmpty(k: nat, vw: real, bw: real)
    ensures FusionOrder([], []) == []
    ensures Accumulated(map[], [], [], [], k, vw, bw)
  {
    assert VIds([]) == [] && BIds([]) == [];
    assert Truthy([]) + Truthy([]) == [];
  }

  /** The dictionary's values, in insertion order, are the fused records in first-insertion order. */
  lemma AccumulatedValues(acc: map<string, Fused>, order: seq<string>, vs: seq<VectorResult>, bs: seq<Bm25Hit>,
                          k: nat, vw: real, bw: real, values: seq<Fused>)
    requires Accumulated(acc, order, vs, bs, k, vw, bw)
    requires |values| == |order| && forall n :: 0 <= n < |order| ==> order[n] in acc && values[n] == acc[order[n]]
    ensures values == Entries(vs, bs, FusionOrder(vs, bs), k, vw, bw)
  {
  }

  /** A vector hit with a falsy id changes nothing. */
  lemma AccumulateVectorSkip(acc: map<string, Fused>, order: seq<string>, vs: seq<VectorResult>, v: VectorResult,
                             k: nat, vw: real, bw: real)
    requires Accumulated(acc, order, vs, [], k, vw, bw) && v.id == ""
    ensures Accumulated(acc, order, vs + [v], [], k, vw, bw)
  {
    VectorOrderStep(vs, v);
    forall id | id in acc ensures acc[id] == Entry(vs + [v], [], id, k, vw, bw) {
      VectorStep(vs, v, id, k, vw, bw);
    }
  }

  /** Storing an id's new record keeps the accumulator in step with the extended prefixes. */
  lemma AccumulatedUpdate(acc: map<string, Fused>, order: seq<string>, vs: seq<VectorResult>, bs: seq<Bm25Hit>,
                          vs2: seq<VectorResult>, bs2: seq<Bm25Hit>, id: string, e: Fused,
                          k: nat, vw: real, bw: real)
    requires Accumulated(acc, order, vs, bs, k, vw, bw)
    requires FusionOrder(vs2, bs2) == if id in order then order else order + [id]
    requires e == Entry(vs2, bs2, id, k, vw, bw)
    requires forall x :: x in acc && x != id ==> acc[x] == Entry(vs2, bs2, x, k, vw, bw)
    ensures Accumulated(acc[id := e], if id in order then order else order + [id], vs2, bs2, k, vw, bw)
  {
  }

  /** A vector hit overwrites text, metadata and vector rank and adds its share to the score. */
  lemma AccumulateVectorHit(acc: map<string, Fused>, order: seq<string>, vs: seq<VectorResult>, v: VectorResult,
                            prev: Fused, k: nat, vw: real, bw: real)
    requires Accumulated(acc, order, vs, [], k, vw, bw) && v.id != ""
    requires prev == if v.id in acc then acc[v.id] else Fused(v.id, "", map[], None, None, 0.0)
    ensures Accumulated(acc[v.id := Fused(v.id, v.text, v.metadata, Some(|vs| + 1), prev.bm25Rank, prev.rrfScore + Share(vw, k, |vs| + 1))],
                        if v.id in order then order else order + [v.id], vs + [v], [], k, vw, bw)
  {
    VectorOrderStep(vs, v);
    forall id | id in acc && id != v.id ensures acc[id] == Entry(vs + [v], [], id, k, vw, bw) {
      VectorStep(vs, v, id, k, vw, bw);
    }
    VectorStep(vs, v, v.id, k, vw, bw);
    EntryFields(vs, [], v.id, k, vw, bw);
    if v.id !in acc {
      RankSumAbsent(VIds(vs), v.id, vw, k);
    }
    assert prev.bm25Rank == None && prev.rrfScore == Entry(vs, [], v.id, k, vw, bw).rrfScore;
    AccumulatedUpdate(acc, order, vs, [], vs + [v], [], v.id,
                      Fused(v.id, v.text, v.metadata, Some(|vs| + 1), prev.bm25Rank, prev.rrfScore + Share(vw, k, |vs| + 1)),
                      k, vw, bw);
  }

  /** A BM25 hit with a falsy id changes nothing. */
  lemma AccumulateBm25Skip(acc: map<string, Fused>, order: seq<string>, vs: seq<VectorResult>, bs: seq<Bm25Hit>, h: Bm25Hit,
                           k: nat, vw: real, bw: real)
    requires Accumulated(acc, order, vs, bs, k, vw, bw) && h.id == ""
    ensures Accumulated(acc, order, vs, bs + [h], k, vw, bw)
  {
    Bm25OrderStep(vs, bs, h);
    forall id | id in acc ensures acc[id] == Entry(vs, bs + [h], id, k, vw, bw) {
      Bm25StepOther(vs, bs, h, id, k, vw, bw);
    }
  }

  /** A BM25 hit for a new id adds a record with its text, payload, rank and share. */
  lemma AccumulateBm25New(acc: map<string, Fused>, order: seq<string>, vs: seq<VectorResult>, bs: seq<Bm25Hit>, h: Bm25Hit,
                          k: nat, vw: real, bw: real)
    requires Accumulated(acc, order, vs, bs, k, vw, bw) && h.id != "" && h.id !in acc
    ensures Accumulated(acc[h.id := Fused(h.id, h.text, h.payload, None, Some(|bs| + 1), 0.0 + Share(bw, k, |bs| + 1))],
                        order + [h.id], vs, bs + [h], k, vw, bw)
  {
    Bm25OrderStep(vs, bs, h);
    forall id | id in acc ensures acc[id] == Entry(vs, bs + [h], id, k, vw, bw) {
      Bm25StepOther(vs, bs, h, id, k, vw, bw);
    }
    Bm25StepNew(vs, bs, h, h.id, k, vw, bw);
    AccumulatedUpdate(acc, order, vs, bs, vs, bs + [h], h.id,
                      Fused(h.id, h.text, h.payload, None, Some(|bs| + 1), 0.0 + Share(bw, k, |bs| + 1)), k, vw, bw);
  }

  /** A BM25 hit for a known id updates only its BM25 rank and score. */
  lemma AccumulateBm25Seen(acc: map<string, Fused>, order: seq<string>, vs: seq<VectorResult>, bs: seq<Bm25Hit>, h: Bm25Hit,
                           k: nat, vw: real, bw: real)
    requires Accumulated(acc, order, vs, bs, k, vw, bw) && h.id in acc
    ensures Accumulated(acc[h.id := acc[h.id].(bm25Rank := Some(|bs| + 1), rrfScore := acc[h.id].rrfScore + Share(bw, k, |bs| + 1))],
                        order, vs, bs + [h], k, vw, bw)
  {
    Bm25OrderStep(vs, bs, h);
    forall id | id in acc && id != h.id ensures acc[id] == Entry(vs, bs + [h], id, k, vw, bw) {
      Bm25StepOther(vs, bs, h, id, k, vw, bw);
    }
    Bm25StepSeen(vs, bs, h, h.id, k, vw, bw);
    AccumulatedUpdate(acc, order, vs, bs, vs, bs + [h], h.id,
                      acc[h.id].(bm25Rank := Some(|bs| + 1), rrfScore := acc[h.id].rrfScore + Share(bw, k, |bs| + 1)), k, vw, bw);
  }

  /** The first loop of `reciprocal_rank_fusion`: the vector hits, ranked from 1. */
  method AccumulateVectorHits(vector: seq<VectorResult>, k: nat, vw: real, bw: real)
    returns (acc: map<string, Fused>, order: seq<string>)
    ensures Accumulated(acc, order, vector, [], k, vw, bw)
  {
    AccumulatedEmpty(k, vw, bw);
    acc := map[];
    order := [];
    ghost var seen: seq<VectorResult> := [];
    var i := 0;
    while i < |vector|
      invariant i <= |vector| && seen == vector[..i]
      invariant Accumulated(acc, order, seen, [], k, vw, bw)
    {
      var r := vector[i];
      assert vector[..i + 1] == seen + [r];
      if r.id != "" {
        var prev := if r.id in acc then acc[r.id] else Fused(r.id, "", map[], None, None, 0.0);
        AccumulateVectorHit(acc, order, seen, r, prev, k, vw, bw);
        acc := acc[r.id := Fused(r.id, r.text, r.metadata, Some(i + 1), prev.bm25Rank, prev.rrfScore + Share(vw, k, i + 1))];
        if r.id !in order {
          order := order + [r.id];
        }
      } else {
        AccumulateVectorSkip(acc, order, seen, r, k, vw, bw);
      }
      seen := seen + [r];
      i := i + 1;
    }
    assert seen == vector;
  }

  /** The second loop of `reciprocal_rank_fusion`: the BM25 hits, ranked from 1. */
  method AccumulateBm25Hits(acc0: map<string, Fused>, order0: seq<string>, vector: seq<VectorResult>, bm25: seq<Bm25Hit>,
                            k: nat, vw: real, bw: real)
    returns (acc: map<string, Fused>, order: seq<string>)
    requires Accumulated(acc0, order0, vector, [], k, vw, bw)
    ensures Accumulated(acc, order, vector, bm25, k, vw, bw)
  {
    acc, order := acc0, order0;
    ghost var fused: seq<Bm25Hit> := [];
    var j := 0;
    while j < |bm25|
      invariant j <= |bm25| && fused == bm25[..j]
      invariant Accumulated(acc, order, vector, fused, k, vw, bw)
    {
      var h := bm25[j];
      assert bm25[..j + 1] == fused + [h];
      if h.id != "" {
        if h.id !in acc {
          AccumulateBm25New(acc, order, vector, fused, h, k, vw, bw);
          acc := acc[h.id := Fused(h.id, h.text, h.payload, None, Some(j + 1), 0.0 + Share(bw, k, j + 1))];
          order := order + [h.id];
        } else {
          AccumulateBm25Seen(acc, order, vector, fused, h, k, vw, bw);
          acc := acc[h.id := acc[h.id].(bm25Rank := Some(j + 1), rrfScore := acc[h.id].rrfScore + Share(bw, k, j + 1))];
        }
      } else {
        AccumulateBm25Skip(acc, order, vector, fused, h, k, vw, bw);
      }
      fused := fused + [h];
      j := j + 1;
    }
    assert fused == bm25;
  }

  /**
   * `reciprocal_rank_fusion`: accumulates the weighted reciprocal ranks of
   * the vector hits, then of the BM25 hits, into a dictionary keyed by id
   * (falsy ids are skipped), and returns its values stably sorted by score,
   * best first.
   */
  method ReciprocalRankFusion(vector: seq<VectorResult>, bm25: seq<Bm25Hit>, k: nat, vw: real, bw: real)
    returns (out: seq<Ranked>)
    ensures vector == [] && bm25 == [] ==> out == []
    ensures out == Formatted(FusionSpec(vector, bm25, k, vw, bw))
  {
    AccumulatedEmpty(k, vw, bw);
    if vector == [] && bm25 == [] {
      return [];
    }
    var acc, order := AccumulateVectorHits(vector, k, vw, bw);
    acc, order := AccumulateBm25Hits(acc, order, vector, bm25, k, vw, bw);
    var unsorted := seq(|order|, n requires 0 <= n < |order| => acc[order[n]]);
    AccumulatedValues(acc, order, vector, bm25, k, vw, bw, unsorted);
    out := Formatted(Sort(unsorted, RrfGe));
  }

  // ---------------------------------------------------------------------
  // Properties of the fused list
  // ---------------------------------------------------------------------

  lemma EntryFields(vs: seq<VectorResult>, bs: seq<Bm25Hit>, id: string, k: nat, vw: real, bw: real)
    ensures var e := Entry(vs, bs, id, k, vw, bw);
            e.id == id
            && e.rrfScore == RankSum(VIds(vs), id, vw, k) + RankSum(BIds(bs), id, bw, k)
            && e.vectorRank == LastRank(VIds(vs), id)
            && e.bm25Rank == LastRank(BIds(bs), id)
  {
  }

  lemma EntriesIds(vs: seq<VectorResult>, bs: seq<Bm25Hit>, order: seq<string>, k: nat, vw: real, bw: real)
    ensures forall i :: 0 <= i < |order| ==> Entries(vs, bs, order, k, vw, bw)[i].id == order[i]
  {
    forall i | 0 <= i < |order| ensures Entries(vs, bs, order, k, vw, bw)[i].id == order[i] {
      EntryFields(vs, bs, order[i], k, vw, bw);
    }
  }

  lemma EntriesFacts(vs: seq<VectorResult>, bs: seq<Bm25Hit>, k: nat, vw: real, bw: real)
    ensures var es := Entries(vs, bs, FusionOrder(vs, bs), k, vw, bw);
            Distinct(es)
            && (forall e :: e in es ==> e == Entry(vs, bs, e.id, k, vw, bw))
            && (forall id :: id in FusionOrder(vs, bs) <==> exists e :: e in es && e.id == id)
  {
    var order := FusionOrder(vs, bs);
    var es := Entries(vs, bs, order, k, vw, bw);
    DedupProperties(Truthy(VIds(vs)) + Truthy(BIds(bs)));
    EntriesIds(vs, bs, order, k, vw, bw);
    assert Distinct(es) by {
      forall i, j | 0 <= i < j < |es| ensures es[i] != es[j] {
        assert es[i].id == order[i] && es[j].id == order[j];
      }
    }
    assert forall e :: e in es ==> e == Entry(vs, bs, e.id, k, vw, bw) by {
      forall e | e in es ensures e == Entry(vs, bs, e.id, k, vw, bw) {
        var n :| 0 <= n < |es| && es[n] == e;
      }
    }
    forall id ensures id in order <==> exists e :: e in es && e.id == id {
      if id in order {
        var n :| 0 <= n < |order| && order[n] == id;
        assert es[n] in es && es[n].id == id;
      }
    }
  }

  /** No id appears twice in the fused list. */
  lemma FusionIdsDistinct(vs: seq<VectorResult>, bs: seq<Bm25Hit>, k: nat, vw: real, bw: real)
    ensures var fs := FusionSpec(vs, bs, k, vw, bw);
            forall i, j :: 0 <= i < j < |fs| ==> fs[i].id != fs[j].id
  {
    var es := Entries(vs, bs, FusionOrder(vs, bs), k, vw, bw);
    var fs := FusionSpec(vs, bs, k, vw, bw);
    EntriesFacts(vs, bs, k, vw, bw);
    SortPermutes(es, RrfGe);
    SortMembers(es, RrfGe);
    DistinctPerm(es, fs);
    forall i, j | 0 <= i < j < |fs| ensures fs[i].id != fs[j].id {
      assert fs[i] in es && fs[j] in es;
    }
  }

  /** The first-insertion order holds exactly the truthy ids of either list. */
  lemma FusionOrderMembers(vs: seq<VectorResult>, bs: seq<Bm25Hit>)
    ensures forall id :: id in FusionOrder(vs, bs) <==> id != "" && (id in VIds(vs) || id in BIds(bs))
  {
    DedupProperties(Truthy(VIds(vs)) + Truthy(BIds(bs)));
    TruthyMembers(VIds(vs));
    TruthyMembers(BIds(bs));
    forall id ensures id in FusionOrder(vs, bs) <==> id != "" && (id in VIds(vs) || id in BIds(bs)) {
      assert id in FusionOrder(vs, bs) <==> id in Truthy(VIds(vs)) + Truthy(BIds(bs));
    }
  }

  /** The fused list holds a document for every truthy id of either list, and for nothing else. */
  lemma FusionIdsCovered(vs: seq<VectorResult>, bs: seq<Bm25Hit>, k: nat, vw: real, bw: real)
    ensures forall id :: (exists e :: e in FusionSpec(vs, bs, k, vw, bw) && e.id == id)
                         <==> id != "" && (id in VIds(vs) || id in BIds(bs))
  {
    var es := Entries(vs, bs, FusionOrder(vs, bs), k, vw, bw);
    EntriesFacts(vs, bs, k, vw, bw);
    SortMembers(es, RrfGe);
    FusionOrderMembers(vs, bs);
    forall id ensures (exists e :: e in FusionSpec(vs, bs, k, vw, bw) && e.id == id) <==> id in FusionOrder(vs, bs) {
      assert (exists e :: e in FusionSpec(vs, bs, k, vw, bw) && e.id == id) <==> (exists e :: e in es && e.id == id);
    }
  }

  /**
   * Each fused score is the weighted reciprocal-rank sum over all of the
   * id's occurrences in both lists, with 1-based ranks.
   */
  lemma FusionScores(vs: seq<VectorResult>, bs: seq<Bm25Hit>, k: nat, vw: real, bw: real)
    ensures forall e :: e in FusionSpec(vs, bs, k, vw, bw) ==>
              e.rrfScore == RankSum(VIds(vs), e.id, vw, k) + RankSum(BIds(bs), e.id, bw, k)
              && e.vectorRank == LastRank(VIds(vs), e.id)
              && e.bm25Rank == LastRank(BIds(bs), e.id)
  {
    var es := Entries(vs, bs, FusionOrder(vs, bs), k, vw, bw);
    EntriesFacts(vs, bs, k, vw, bw);
    SortMembers(es, RrfGe);
    forall e | e in FusionSpec(vs, bs, k, vw, bw)
      ensures e.rrfScore == RankSum(VIds(vs), e.id, vw, k) + RankSum(BIds(bs), e.id, bw, k)
      ensures e.vectorRank == LastRank(VIds(vs), e.id) && e.bm25Rank == LastRank(BIds(bs), e.id)
    {
      assert e in es;
      EntryFields(vs, bs, e.id, k, vw, bw);
    }
  }

  /**
   * The fused list is ordered by non-increasing score, and documents with
   * equal scores keep their first-insertion order (vector order first,
   * then BM25-only documents).
   */
  lemma FusionOrdering(vs: seq<VectorResult>, bs: seq<Bm25Hit>, k: nat, vw: real, bw: real, v: Fused)
    ensures var fs := FusionSpec(vs, bs, k, vw, bw);
            forall i, j :: 0 <= i < j < |fs| ==> fs[i].rrfScore >= fs[j].rrfScore
    ensures Ties(FusionSpec(vs, bs, k, vw, bw), v, RrfGe) == Ties(Entries(vs, bs, FusionOrder(vs, bs), k, vw, bw), v, RrfGe)
  {
    var es := Entries(vs, bs, FusionOrder(vs, bs), k, vw, bw);
    assert Preorder(RrfGe);
    SortSorted(es, RrfGe);
    SortStable(es, v, RrfGe);
  }

  lemma {:induction false} RankSumNonNegative(ids: seq<string>, id: string, w: real, k: nat)
    requires w >= 0.0
    ensures RankSum(ids, id, w, k) >= 0.0
    decreases |ids|
  {
    if ids != [] {
      RankSumNonNegative(ids[..|ids| - 1], id, w, k);
    }
  }

  /** An id occurring once, at rank `r`, contributes exactly `w / (k + r)`. */
  lemma {:induction false} RankSumSingle(ids: seq<string>, id: string, w: real, k: nat, r: nat)
    requires 1 <= r <= |ids| && ids[r - 1] == id
    requires forall i :: 0 <= i < |ids| && i != r - 1 ==> ids[i] != id
    ensures RankSum(ids, id, w, k) == Share(w, k, r)
    decreases |ids|
  {
    var init := ids[..|ids| - 1];
    if r == |ids| {
      RankSumAbsent(init, id, w, k);
    } else {
      RankSumSingle(init, id, w, k, r);
    }
  }

  /** An occurrence at rank `r` contributes at least `w / (k + r)`. */
  lemma {:induction false} RankSumAtLeast(ids: seq<string>, id: string, w: real, k: nat, r: nat)
    requires w >= 0.0 && 1 <= r <= |ids| && ids[r - 1] == id
    ensures RankSum(ids, id, w, k) >= Share(w, k, r)
    decreases |ids|
  {
    var init := ids[..|ids| - 1];
    if r == |ids| {
      RankSumNonNegative(init, id, w, k);
    } else {
      RankSumAtLeast(init, id, w, k, r);
    }
  }

  lemma DivMonotone(w: real, a: nat, b: nat)
    requires w >= 0.0 && 0 < a <= b
    ensures w / (a as real) >= w / (b as real)
  {
  }

  /** `id` occurs in `ids` once, at the 1-based rank `r`. */
  predicate OnlyAt(ids: seq<string>, id: string, r: nat) {
    1 <= r <= |ids| && ids[r - 1] == id && forall i :: 0 <= i < |ids| && i != r - 1 ==> ids[i] != id
  }

  /**
   * With positive weights, a document found by both retrievers within the
   * first `m` ranks of each outscores a document found by one retriever
   * only, once, at rank `r >= m`: it sorts ahead of it.
   */
  lemma BothListsRankFirst(vs: seq<VectorResult>, bs: seq<Bm25Hit>, k: nat, vw: real, bw: real,
                           d: string, dv: nat, db: nat, e: string, r: nat, m: nat)
    requires vw > 0.0 && bw > 0.0
    requires 1 <= dv <= m && dv <= |vs| && vs[dv - 1].id == d
    requires 1 <= db <= m && db <= |bs| && bs[db - 1].id == d
    requires m <= r
    requires (OnlyAt(VIds(vs), e, r) && e !in BIds(bs)) || (OnlyAt(BIds(bs), e, r) && e !in VIds(vs))
    ensures RankSum(VIds(vs), d, vw, k) + RankSum(BIds(bs), d, bw, k)
            > RankSum(VIds(vs), e, vw, k) + RankSum(BIds(bs), e, bw, k)
  {
    RankSumAtLeast(VIds(vs), d, vw, k, dv);
    RankSumAtLeast(BIds(bs), d, bw, k, db);
    DivMonotone(vw, k + dv, k + m);
    DivMonotone(bw, k + db, k + m);
    if OnlyAt(VIds(vs), e, r) && e !in BIds(bs) {
      RankSumSingle(VIds(vs), e, vw, k, r);
      RankSumAbsent(BIds(bs), e, bw, k);
      DivMonotone(vw, k + m, k + r);
    } else {
      RankSumSingle(BIds(bs), e, bw, k, r);
      RankSumAbsent(VIds(vs), e, vw, k);
      DivMonotone(bw, k + m, k + r);
    }
  }

  // ---------------------------------------------------------------------
  // hybrid_search_async
  // ---------------------------------------------------------------------

  /** What the hybrid search returns: the vector hits alone, or the fused list. */
  datatype Outcome = VectorOnly(hits: seq<VectorResult>) | Hybrid(results: seq<Ranked>)

  /**
   * Falls back to `vector[:limit]` when hybrid search is disabled, when the
   * BM25 weight is at most 0.01, when the BM25 index could not be built
   * (`index == None`) or when BM25 fails; otherwise fuses the vector hits
   * with the top `3 * limit` BM25 hits and returns the first `limit`.
   */
  method HybridSearchAsync(query: string, vector: seq<VectorResult>, limit: int, enabled: bool,
                           settings: WeightSettings, index: Option<seq<Node>>, scorer: seq<string> -> seq<real>)
    returns (out: Outcome)
    ensures var w := AdaptiveWeights(DetectQueryIntent(query), settings);
            !enabled || w.bm25 <= 0.01 || index.None? ==> out == VectorOnly(Take(vector, limit))
    ensures out.Hybrid? ==>
              var w := AdaptiveWeights(DetectQueryIntent(query), settings);
              var scores := scorer(SimpleTokenize(query));
              enabled && w.bm25 > 0.01 && index.Some?
              && PositionsInCorpus(TopPositions(scores, limit), index.value)
              && out.results == Take(Formatted(FusionSpec(vector, PositiveHits(TopPositions(scores, limit), index.value), RrfK, w.vector, w.bm25)), limit)
    ensures out.VectorOnly? ==> out == VectorOnly(Take(vector, limit))
    ensures var w := AdaptiveWeights(DetectQueryIntent(query), settings);
            (enabled && w.bm25 > 0.01 && index.Some?
             && PositionsInCorpus(TopPositions(scorer(SimpleTokenize(query)), limit), index.value)) ==> out.Hybrid?
  {
    if !enabled {
      return VectorOnly(Take(vector, limit));
    }
    var intent := DetectQueryIntent(query);
    var w := AdaptiveWeights(intent, settings);
    if w.bm25 <= 0.01 {
      return VectorOnly(Take(vector, limit));
    }
    if index.None? {
      return VectorOnly(Take(vector, limit));
    }
    var scores := scorer(SimpleTokenize(query));
    var hits := RunBm25(scores, index.value, limit);
    if hits.Err? {
      return VectorOnly(Take(vector, limit));
    }
    var merged := ReciprocalRankFusion(vector, hits.value, RrfK, w.vector, w.bm25);
    out := Hybrid(Take(merged, limit));
  }

  /** A hybrid answer holds at most `limit` results. */
  lemma HybridBounded(vector: seq<VectorResult>, fused: seq<Ranked>, limit: int)
    requires limit >= 0
    ensures |Take(fused, limit)| <= limit && |Take(vector, limit)| <= limit
  {
  }
}
