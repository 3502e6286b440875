/**
 * The pieces of the older, monolithic search server that its successor
 * does not share: the snippet shown for a result, result de-duplication
 * by text signature, the sequential merge of per-variant searches, the
 * choice of the text and of the number of documents sent to the
 * cross-encoder, and the metadata boost and score threshold applied to
 * its scores.
 */
module RootSearch {
  import opened Wrappers
  import opened Text
  import opened Seqs
  import opened Sorting
  import opened Records

  // ---------------------------------------------------------------------
  // extract_keywords (the older file's own version)
  // ---------------------------------------------------------------------

  const RootStopwords: set<string> := {
    "какой", "какая", "какие", "где", "как", "что", "это", "в", "на", "по",
    "для", "с", "к", "из", "о", "об", "и", "а", "но", "или", "же",
    "the", "is", "at", "which", "on", "in", "a", "an", "and", "or", "but"
  }

  /** The whitespace-separated words of the lower-cased query, longer than two characters and not stop words. */
  function RootKeywords(query: string): (r: seq<string>)
    ensures forall i :: 0 <= i < |r| ==> |r[i]| > 2 && r[i] !in RootStopwords && r[i] in Split(Lower(query))
    ensures forall w :: w in Split(Lower(query)) && |w| > 2 && w !in RootStopwords ==> w in r
  {
    Filter(Split(Lower(query)), w => w !in RootStopwords && |w| > 2)
  }

  function KeywordSet(text: string): set<string> {
    set w | w in RootKeywords(text)
  }

  // ---------------------------------------------------------------------
  // extract_relevant_snippet
  // ---------------------------------------------------------------------

  /** The class `detect_content_type` assigns to a text; the detector itself is not modelled. */
  datatype ContentType = Table | List | Code | Plain

  const CutMarker: string := "\n... (обрезано)"
  const Ellipsis: string := "..."

  predicate NotSentenceEnd(c: char) { c != '.' && c != '!' && c != '?' }

  /** The stripped, non-blank pieces of a list of strings. */
  function NonBlankStripped(pieces: seq<string>): (r: seq<string>)
    ensures forall i :: 0 <= i < |r| ==> r[i] != ""
  {
    if pieces == [] then []
    else (if Strip(pieces[0]) != "" then [Strip(pieces[0])] else []) + NonBlankStripped(pieces[1..])
  }

  /** `[s.strip() for s in re.split(r'[.!?]+', text) if s.strip()]`. */
  function Sentences(text: string): (r: seq<string>)
    ensures forall i :: 0 <= i < |r| ==> r[i] != ""
  {
    NonBlankStripped(Runs(text, NotSentenceEnd))
  }

  /** How many query keywords a sentence shares with the query. */
  function Overlap(queryWords: set<string>, sentence: string): nat {
    |queryWords * KeywordSet(sentence)|
  }

  /** The overlap of every sentence, in order. */
  function Overlaps(sentences: seq<string>, queryWords: set<string>): (r: seq<nat>)
    ensures |r| == |sentences|
    ensures forall i :: 0 <= i < |r| ==> r[i] == Overlap(queryWords, sentences[i])
  {
    seq(|sentences|, i requires 0 <= i < |sentences| => Overlap(queryWords, sentences[i]))
  }

  /** `best` is the first position of the largest score. */
  predicate IsFirstMax(scores: seq<nat>, best: int) {
    0 <= best < |scores|
    && (forall i :: 0 <= i < |scores| ==> scores[i] <= scores[best])
    && (forall i :: 0 <= i < best ==> scores[i] < scores[best])
  }

  /** The scan for the sentence with the largest keyword overlap; ties go to the earlier sentence. */
  method BestSentence(scores: seq<nat>) returns (best: nat)
    requires scores != []
    ensures IsFirstMax(scores, best)
  {
    best := 0;
    var bestScore := scores[0];
    var i := 1;
    while i < |scores|
      invariant 1 <= i <= |scores| && best < i
      invariant bestScore == scores[best]
      invariant forall j :: 0 <= j < i ==> scores[j] <= bestScore
      invariant forall j :: 0 <= j < best ==> scores[j] < bestScore
    {
      if scores[i] > bestScore {
        bestScore := scores[i];
        best := i;
      }
      i := i + 1;
    }
  }

  /** `s[:n] + "..."` when `s` is longer than `n`. */
  function Shorten(s: string, n: nat): (r: string)
    ensures |r| <= n + |Ellipsis|
    ensures |s| <= n ==> r == s
  {
    if |s| > n then s[..n] + Ellipsis else s
  }

  /** The best sentence with one neighbour on each side, joined by `". "`, stripped and shortened. */
  function SentenceSnippet(sentences: seq<string>, best: nat, maxLength: nat): (r: string)
    requires best < |sentences|
    ensures |r| <= maxLength + |Ellipsis|
  {
    var start := Max(0, best - 1);
    var end := Min(|sentences|, best + 2);
    Shorten(Strip(Join(". ", sentences[start..end])), maxLength)
  }

  /** Structured text is shown whole up to `limit` characters, otherwise cut with a marker. */
  function CutStructured(text: string, limit: nat): (r: string)
    ensures |r| <= limit + |CutMarker|
    ensures |text| <= limit ==> r == text
    ensures |text| > limit ==> r == text[..limit] + CutMarker
  {
    if |text| <= limit then text else text[..limit] + CutMarker
  }

  /**
   * `extract_relevant_snippet`: a text within `maxLength` is shown whole;
   * tables and lists get six times the room and code three times, cut
   * with a marker; plain text shows the sentence sharing most keywords
   * with the query, with its neighbours, cut to `maxLength` plus an
   * ellipsis.
   */
  method ExtractRelevantSnippet(text: string, query: string, maxLength: nat, contentType: ContentType)
    returns (r: string)
    requires maxLength > 0
    ensures |text| <= maxLength ==> r == text
    ensures |text| > maxLength && (contentType == Table || contentType == List) ==> r == CutStructured(text, 6 * maxLength)
    ensures |text| > maxLength && contentType == Code ==> r == CutStructured(text, 3 * maxLength)
    ensures |text| > maxLength && contentType == Plain ==>
              |r| <= maxLength + |Ellipsis|
              && (Sentences(text) == [] ==> r == text[..maxLength] + Ellipsis)
              && (Sentences(text) != [] ==>
                    exists best :: IsFirstMax(Overlaps(Sentences(text), KeywordSet(query)), best)
                                   && r == SentenceSnippet(Sentences(text), best, maxLength))
  {
    if |text| <= maxLength {
      return text;
    }
    if contentType == Table || contentType == List {
      return CutStructured(text, 6 * maxLength);
    }
    if contentType == Code {
      return CutStructured(text, 3 * maxLength);
    }
    var sentences := Sentences(text);
    if sentences == [] {
      return text[..maxLength] + Ellipsis;
    }
    var best := BestSentence(Overlaps(sentences, KeywordSet(query)));
    r := SentenceSnippet(sentences, best, maxLength);
  }

  // ---------------------------------------------------------------------
  // deduplicate_results
  // ---------------------------------------------------------------------

  /** The signature of a text: its first 200 characters, stripped. */
  function Signature(text: string): string {
    Strip(Take(text, 200))
  }

  /** A result's signature, read through `text`. */
  function SignatureKey<T>(text: T -> string): T -> string {
    x => Signature(text(x))
  }

  /**
   * `deduplicate_results`: the first result of each text signature, in
   * input order; lists of at most one result are returned as they are.
   * `text` reads a result's `text` entry (`""` when missing).
   */
  method DeduplicateResults<T>(results: seq<T>, text: T -> string) returns (out: seq<T>)
    ensures |results| <= 1 ==> out == results
    ensures out == DedupBy(results, SignatureKey(text))
  {
    var key := SignatureKey(text);
    if |results| <= 1 {
      if |results| == 1 {
        assert results[..0] == [];
      }
      return results;
    }
    var seen: set<string>;
    out, seen := AppendUnseen([], {}, results, key, []);
    assert [] + results == results;
  }

  /** No two kept results share a signature, every signature of the input is kept, and order is preserved. */
  lemma DeduplicateFacts<T>(results: seq<T>, text: T -> string)
    ensures var key := SignatureKey(text);
            var out := DedupBy(results, key);
            DistinctKeys(out, key)
            && (forall k :: k in Keys(out, key) <==> k in Keys(results, key))
            && IsSubseq(out, results)
  {
    DedupByProperties(results, SignatureKey(text));
  }

  // ---------------------------------------------------------------------
  // parallel_multi_query_search, sequential branch
  // ---------------------------------------------------------------------

  /**
   * The sequential branch of `parallel_multi_query_search`: the result
   * lists of the variants, searched in order, merged keeping the first
   * result of each id; nothing when either list is empty or their lengths
   * differ. `search` stands for `execute_single_query_search` with the
   * limit, filter and collection fixed.
   */
  method SequentialMultiQuerySearch<T, E>(queries: seq<string>, embeddings: seq<E>,
                                          search: (E, string) -> seq<T>, id: T -> string)
    returns (out: seq<T>)
    ensures queries == [] || embeddings == [] || |queries| != |embeddings| ==> out == []
    ensures queries != [] && |queries| == |embeddings| ==>
              out == DedupBy(Concat(seq(|queries|, i requires 0 <= i < |queries| => search(embeddings[i], queries[i]))), id)
  {
    if queries == [] || embeddings == [] || |queries| != |embeddings| {
      return [];
    }
    ghost var lists := seq(|queries|, i requires 0 <= i < |queries| => search(embeddings[i], queries[i]));
    out := [];
    var seen: set<string> := {};
    var i := 0;
    while i < |queries|
      invariant 0 <= i <= |queries|
      invariant out == DedupBy(Concat(lists[..i]), id)
      invariant forall k :: k in seen <==> k in Keys(out, id)
    {
      var results := search(embeddings[i], queries[i]);
      assert lists[..i + 1][..i] == lists[..i];
      out, seen := AppendUnseen(out, seen, results, id, Concat(lists[..i]));
      i := i + 1;
    }
    assert lists[..i] == lists;
  }

  /** The merged results carry distinct ids, and every id any variant found. */
  lemma MergeFacts<T>(lists: seq<seq<T>>, id: T -> string)
    ensures DistinctKeys(DedupBy(Concat(lists), id), id)
    ensures forall k :: k in Keys(DedupBy(Concat(lists), id), id) <==> k in Keys(Concat(lists), id)
  {
    DedupByProperties(Concat(lists), id);
  }

  // ---------------------------------------------------------------------
  // get_text_for_reranking
  // ---------------------------------------------------------------------

  const RerankStopwords: set<string> := {
    "в", "на", "по", "для", "с", "к", "из", "о", "об", "и", "а", "но", "или", "же",
    "какой", "какая", "какие", "где", "как", "что", "это"
  }

  /** The lower-cased words of the query longer than two characters that are not stop words. */
  function RerankKeywords(query: string): set<string> {
    set w | w in Split(query) && Lower(w) !in RerankStopwords && |w| > 2 :: Lower(w)
  }

  /** How many of the keywords occur in the lower-cased snippet. */
  function KeywordHits(keywords: set<string>, snippet: string): nat {
    |set kw | kw in keywords && Contains(Lower(snippet), kw)|
  }

  /** A start of the scan `range(0, len(text) - maxLen, 50)`. */
  predicate IsWindowStart(s: int, textLen: nat, maxLen: nat) {
    0 <= s < textLen - maxLen && s % 50 == 0
  }

  function Window(text: string, s: nat, maxLen: nat): string
    requires s + maxLen <= |text|
  {
    text[s..s + maxLen]
  }

  /** `r` is a contiguous piece of `text`. */
  predicate IsSliceOf(r: string, text: string) {
    exists s: nat :: s + |r| <= |text| && Window(text, s, |r|) == r
  }

  /** The keyword hits of the window starting at `s`. */
  function WindowHits(text: string, keywords: set<string>, maxLen: nat, s: nat): nat
    requires s + maxLen <= |text|
  {
    KeywordHits(keywords, Window(text, s, maxLen))
  }

  /** `best` is the first scanned start with the most hits among all scanned starts. */
  ghost predicate IsBestStart(text: string, keywords: set<string>, maxLen: nat, best: nat)
    requires |text| > maxLen
  {
    IsWindowStart(best, |text|, maxLen)
    && (forall s: nat :: IsWindowStart(s, |text|, maxLen) ==> WindowHits(text, keywords, maxLen, s) <= WindowHits(text, keywords, maxLen, best))
    && (forall s: nat :: IsWindowStart(s, |text|, maxLen) && s < best ==> WindowHits(text, keywords, maxLen, s) < WindowHits(text, keywords, maxLen, best))
  }

  /** The scan over the windows starting every 50 characters; a later window must score strictly more to win. */
  method ScanWindows(text: string, keywords: set<string>, maxLen: nat) returns (best: nat)
    requires |text| > maxLen
    ensures IsBestStart(text, keywords, maxLen, best)
  {
    best := 0;
    var bestScore := WindowHits(text, keywords, maxLen, 0);
    var start := 0;
    while start < |text| - maxLen
      invariant 0 <= start <= |text| - maxLen + 49 && start % 50 == 0
      invariant IsWindowStart(best, |text|, maxLen) && (best == 0 || best < start)
      invariant bestScore == WindowHits(text, keywords, maxLen, best)
      invariant forall s: nat :: IsWindowStart(s, |text|, maxLen) && s < start ==> WindowHits(text, keywords, maxLen, s) <= bestScore
      invariant forall s: nat :: IsWindowStart(s, |text|, maxLen) && s < best ==> WindowHits(text, keywords, maxLen, s) < bestScore
    {
      var score := WindowHits(text, keywords, maxLen, start);
      if score > bestScore {
        bestScore := score;
        best := start;
      }
      start := start + 50;
    }
  }

  /**
   * The window chosen for a long text: the first best scanned window, or,
   * when no scanned window has a hit, the last `maxLen` characters if
   * they do.
   */
  ghost predicate BestWindow(r: string, text: string, keywords: set<string>, maxLen: nat)
    requires |text| > maxLen
  {
    exists best: nat :: IsBestStart(text, keywords, maxLen, best)
      && (if WindowHits(text, keywords, maxLen, best) == 0 && WindowHits(text, keywords, maxLen, |text| - maxLen) > 0
          then r == text[|text| - maxLen..]
          else r == Window(text, best, maxLen))
  }

  /**
   * `get_text_for_reranking`: a text of at most `maxLen` characters, or
   * one without query keywords to look for, gives its first `maxLen`
   * characters; a longer text gives the window of `maxLen` characters,
   * among those starting every 50 characters, with the most query
   * keywords, falling back to the last window.
   */
  method GetTextForReranking(text: string, query: string, maxLen: nat) returns (r: string)
    requires maxLen > 0
    ensures |r| == Min(|text|, maxLen)
    ensures IsSliceOf(r, text)
    ensures |text| <= maxLen ==> r == text
    ensures query == "" || RerankKeywords(query) == {} ==> r == text[..Min(|text|, maxLen)]
    ensures |text| > maxLen && query != "" && RerankKeywords(query) != {} ==>
              BestWindow(r, text, RerankKeywords(query), maxLen)
  {
    if text == "" || query == "" {
      r := text[..Min(|text|, maxLen)];
      assert Window(text, 0, |r|) == r;
      return;
    }
    if |text| <= maxLen {
      assert Window(text, 0, |text|) == text;
      return text;
    }
    var keywords := RerankKeywords(query);
    if keywords == {} {
      r := text[..maxLen];
      assert Window(text, 0, maxLen) == r;
      return;
    }
    r := PickWindow(text, keywords, maxLen);
  }

  /** The long-text branch of `get_text_for_reranking`: the best scanned window, or the last one. */
  method PickWindow(text: string, keywords: set<string>, maxLen: nat) returns (r: string)
    requires |text| > maxLen > 0
    ensures |r| == maxLen && IsSliceOf(r, text) && BestWindow(r, text, keywords, maxLen)
  {
    var best := ScanWindows(text, keywords, maxLen);
    r := Window(text, best, maxLen);
    if WindowHits(text, keywords, maxLen, best) == 0 {
      var last := text[|text| - maxLen..];
      assert last == Window(text, |text| - maxLen, maxLen);
      if KeywordHits(keywords, last) > 0 {
        r := last;
      }
    }
  }

  // ---------------------------------------------------------------------
  // get_adaptive_rerank_limit
  // ---------------------------------------------------------------------

  /** The base pool: 8, 12 or 20 documents for queries of at most 3, at most 8, or more words. */
  function BaseRerankLimit(words: nat): (r: nat)
    ensures r == 8 || r == 12 || r == 20
  {
    if words <= 3 then 8 else if words <= 8 then 12 else 20
  }

  /** `max(8, int(base * 0.8))` for the three base sizes. */
  function FilteredLimit(base: nat): (r: nat)
    ensures 8 <= r <= Max(base, 8)
  {
    Max(8, base * 4 / 5)
  }

  /**
   * `get_adaptive_rerank_limit`: the base pool by query length, shrunk by
   * a fifth (but not below 8) under a space filter, and never more than the
   * candidates.
   */
  function AdaptiveRerankLimit(query: string, candidateCount: nat, hasSpaceFilter: bool): (r: nat)
    ensures r <= candidateCount && r <= 20
    ensures candidateCount >= 8 ==> r >= 8
    ensures !hasSpaceFilter ==> r == Min(BaseRerankLimit(|Split(query)|), candidateCount)
  {
    var base := BaseRerankLimit(|Split(query)|);
    var limit := if hasSpaceFilter then FilteredLimit(base) else base;
    Min(limit, candidateCount)
  }

  /** A space filter never enlarges the pool. */
  lemma SpaceFilterShrinksPool(query: string, candidateCount: nat)
    ensures AdaptiveRerankLimit(query, candidateCount, true) <= AdaptiveRerankLimit(query, candidateCount, false)
  {
  }

  /** Longer queries never get a smaller pool. */
  lemma LongerQueriesGetMore(a: string, b: string, candidateCount: nat, hasSpaceFilter: bool)
    requires |Split(a)| <= |Split(b)|
    ensures AdaptiveRerankLimit(a, candidateCount, hasSpaceFilter) <= AdaptiveRerankLimit(b, candidateCount, hasSpaceFilter)
  {
  }

  // ---------------------------------------------------------------------
  // Metadata boost and score threshold of confluence_semantic_search
  // ---------------------------------------------------------------------

  /** A reranked result: its metadata, breadcrumb, `rerank_score` (if set) and boost flags. */
  datatype Reranked = Reranked(id: string, text: string, metadata: Metadata, breadcrumb: string,
                               rerankScore: Option<real>, metadataBoost: bool, exactPhraseBoost: bool)

  /** `r.get('rerank_score', 0)`. */
  function ScoreOf(r: Reranked): real {
    if r.rerankScore.Some? then r.rerankScore.value else 0.0
  }

  function MaxReal(a: real, b: real): real { if a >= b then a else b }

  const BoostStopwords: set<string> := {
    "в", "на", "по", "для", "с", "к", "из", "о", "об", "и", "а", "но", "или", "же",
    "какой", "какая", "какие", "где", "как", "что", "это", "проекта", "проект"
  }

  /** The distinct words of the lower-cased query longer than two characters that are not stop words. */
  function BoostKeywords(query: string): set<string> {
    set w | w in Split(Lower(query)) && w !in BoostStopwords && |w| > 2
  }

  const ImportantPhrases: seq<string> := ["учет номенклатуры", "номенклатура", "склад", "обследование", "классификация"]

  /** Some query keyword occurs in the lower-cased title, breadcrumb or page path. */
  predicate KeywordInMetadata(r: Reranked, keywords: set<string>) {
    exists kw :: kw in keywords
                 && (Contains(Lower(Get(r.metadata, "title")), kw) || Contains(Lower(r.breadcrumb), kw)
                     || Contains(Lower(Get(r.metadata, "page_path")), kw))
  }

  /** Some important phrase occurs both in the original query and in the combined metadata text. */
  predicate PhraseInMetadata(r: Reranked, originalQuery: string) {
    var combined := Lower(Get(r.metadata, "title")) + " " + Lower(r.breadcrumb) + " " + Lower(Get(r.metadata, "page_path"));
    exists k :: 0 <= k < |ImportantPhrases| && Contains(Lower(originalQuery), ImportantPhrases[k])
                && Contains(combined, ImportantPhrases[k])
  }

  /**
   * The boosts of one result: a keyword match doubles a non-negative
   * score, to at least 0.1; an important phrase then multiplies the score
   * by 2.5, to at least 0.2.
   */
  function BoostResult(r: Reranked, keywords: set<string>, originalQuery: string): (b: Reranked)
    ensures b.id == r.id && b.text == r.text && b.metadata == r.metadata && b.breadcrumb == r.breadcrumb
    ensures !KeywordInMetadata(r, keywords) && !PhraseInMetadata(r, originalQuery) ==> b == r
  {
    var r1 :=
      if KeywordInMetadata(r, keywords) && ScoreOf(r) >= 0.0
      then r.(rerankScore := Some(MaxReal(ScoreOf(r) * 2.0, 0.1)), metadataBoost := true)
      else r;
    if PhraseInMetadata(r, originalQuery)
    then r1.(rerankScore := Some(MaxReal(ScoreOf(r1) * 2.5, 0.2)), exactPhraseBoost := true)
    else r1
  }

  /** A boosted result with a non-negative original score ends with at least 0.1 and at least twice that score. */
  lemma BoostFloor(r: Reranked, keywords: set<string>, originalQuery: string)
    requires ScoreOf(r) >= 0.0
    requires KeywordInMetadata(r, keywords) || PhraseInMetadata(r, originalQuery)
    ensures var b := BoostResult(r, keywords, originalQuery);
            ScoreOf(b) >= 0.1 && ScoreOf(b) >= 2.0 * ScoreOf(r)
  {
  }

  /** No boost ever lowers a score. */
  lemma BoostNeverLowers(r: Reranked, keywords: set<string>, originalQuery: string)
    ensures ScoreOf(BoostResult(r, keywords, originalQuery)) >= ScoreOf(r)
  {
  }

  predicate ScoreGe(a: Reranked, b: Reranked) { ScoreOf(a) >= ScoreOf(b) }

  /**
   * The metadata-boost block: every result is boosted in place, then the
   * list is sorted again by descending score.
   */
  method ApplyMetadataBoost(results: seq<Reranked>, query: string, originalQuery: string) returns (out: seq<Reranked>)
    ensures out == Sort(seq(|results|, i requires 0 <= i < |results| => BoostResult(results[i], BoostKeywords(query), originalQuery)), ScoreGe)
  {
    var keywords := BoostKeywords(query);
    var boosted: seq<Reranked> := [];
    var i := 0;
    while i < |results|
      invariant 0 <= i <= |results| && |boosted| == i
      invariant forall j :: 0 <= j < i ==> boosted[j] == BoostResult(results[j], keywords, originalQuery)
    {
      boosted := boosted + [BoostResult(results[i], keywords, originalQuery)];
      i := i + 1;
    }
    assert boosted == seq(|results|, i requires 0 <= i < |results| => BoostResult(results[i], keywords, originalQuery));
    out := Sort(boosted, ScoreGe);
  }

  /** After the boost the results are ordered by score and are exactly the boosted inputs. */
  lemma BoostedOrder(boosted: seq<Reranked>)
    ensures SortedBy(Sort(boosted, ScoreGe), ScoreGe)
    ensures multiset(Sort(boosted, ScoreGe)) == multiset(boosted)
  {
    assert Preorder(ScoreGe);
    SortSorted(boosted, ScoreGe);
    SortPermutes(boosted, ScoreGe);
  }

  const RootTechnicalTerms: seq<string> := [
    "api", "http", "rest", "json", "xml", "sql", "docker", "git", "1с", "1c",
    "endpoint", "webhook", "oauth", "deployment", "ssl", "тест", "баг", "конфигурация"
  ]

  /** Some technical term is a substring of the lower-cased query. */
  predicate IsTechnicalQuery(query: string) {
    exists k :: 0 <= k < |RootTechnicalTerms| && Contains(Lower(query), RootTechnicalTerms[k])
  }

  /** `RERANK_THRESHOLD_TECHNICAL` (1.5) for technical queries, `RERANK_THRESHOLD_GENERAL` (2.0) otherwise. */
  function MinRerankScore(query: string, technical: real, general: real): real {
    if IsTechnicalQuery(query) then technical else general
  }

  /**
   * The score-threshold filter: exactly the results whose score (0 when
   * unset) reaches the query's threshold, in order.
   */
  function ScoreThresholdFilter(results: seq<Reranked>, query: string, technical: real, general: real): (r: seq<Reranked>)
    ensures forall i :: 0 <= i < |r| ==> r[i] in results && ScoreOf(r[i]) >= MinRerankScore(query, technical, general)
    ensures forall i :: 0 <= i < |results| && ScoreOf(results[i]) >= MinRerankScore(query, technical, general) ==> results[i] in r
    ensures IsSubseq(r, results)
  {
    var threshold := MinRerankScore(query, technical, general);
    FilterIsSubseq(results, x => ScoreOf(x) >= threshold);
    Filter(results, x => ScoreOf(x) >= threshold)
  }

  /**
   * With the technical threshold the lower one, a technical query keeps
   * every result a general query keeps.
   */
  lemma TechnicalQueriesKeepMore(results: seq<Reranked>, technicalQuery: string, generalQuery: string,
                                 technical: real, general: real)
    requires technical <= general
    requires IsTechnicalQuery(technicalQuery) && !IsTechnicalQuery(generalQuery)
    ensures forall x :: x in ScoreThresholdFilter(results, generalQuery, technical, general) ==>
                        x in ScoreThresholdFilter(results, technicalQuery, technical, general)
  {
    var kept := ScoreThresholdFilter(results, technicalQuery, technical, general);
    forall x | x in ScoreThresholdFilter(results, generalQuery, technical, general)
      ensures x in kept
    {
      var i :| 0 <= i < |results| && results[i] == x;
      assert ScoreOf(results[i]) >= MinRerankScore(technicalQuery, technical, general);
    }
  }
}
