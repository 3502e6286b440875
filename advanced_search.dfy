/**
 * Pseudo-relevance feedback (expanding a query with the most frequent new
 * keywords of the best results) and the fallback-search policy.
 *
 * A search result is represented here by its text (`r.get('text', '')`).
 */
module AdvancedSearch {
  import opened Wrappers
  import opened Text
  import opened Seqs
  import opened Sorting
  import KeywordExtraction

  /** The stop words of this extractor (its own list, without the question words). */
  const PrfStopwords: set<string> := {
    "в", "на", "и", "с", "по", "для", "как", "что", "это", "или", "а", "но",
    "из", "к", "о", "от", "до", "за", "под", "над", "при", "про", "через",
    "без", "у", "об", "не", "ни", "то", "же", "бы", "ли", "уже", "еще",
    "the", "a", "an", "and", "or", "but", "in", "on", "at", "to", "for",
    "of", "with", "by", "from", "as", "is", "was", "are", "were", "be",
    "been", "being", "have", "has", "had", "do", "does", "did", "will",
    "would", "should", "could", "may", "might", "must", "can", "this",
    "that", "these", "those", "it", "its", "they", "them", "their"
  }

  /**
   * `extract_keywords`: lower-case `[а-яёa-z0-9]+` tokens that are not stop
   * words and are at least `minLength` long, in text order.
   */
  function ExtractKeywords(text: string, minLength: int): (r: seq<string>)
    ensures forall w :: w in r ==>
              IsLower(w) && (forall c :: c in w ==> IsKeywordChar(c)) && |w| >= minLength && w !in PrfStopwords
    ensures forall w :: w in KeywordExtraction.Words(text) && |w| >= minLength && w !in PrfStopwords ==> w in r
    ensures IsSubseq(r, KeywordExtraction.Words(text))
  {
    var ws := KeywordExtraction.Words(text);
    FilterIsSubseq(ws, w => w !in PrfStopwords && |w| >= minLength);
    Filter(ws, w => w !in PrfStopwords && |w| >= minLength)
  }

  /** A kept keyword appears as often as the token occurs in the text; any other word not at all. */
  lemma ExtractKeywordsCounts(text: string, minLength: int, w: string)
    ensures multiset(ExtractKeywords(text, minLength))[w] ==
              if w !in PrfStopwords && |w| >= minLength then multiset(KeywordExtraction.Words(text))[w] else 0
  {
    FilterMultiset(KeywordExtraction.Words(text), w => w !in PrfStopwords && |w| >= minLength, w);
  }

  // ---------------------------------------------------------------------
  // Counter.most_common
  // ---------------------------------------------------------------------

  predicate CountGe(a: (string, nat), b: (string, nat)) { a.1 >= b.1 }

  /** The distinct words of `kws` in first-seen order, each with its number of occurrences. */
  function Counts(kws: seq<string>): (r: seq<(string, nat)>)
    ensures |r| == |Dedup(kws)|
    ensures forall i :: 0 <= i < |r| ==> r[i] == (Dedup(kws)[i], multiset(kws)[Dedup(kws)[i]])
  {
    var d := Dedup(kws);
    seq(|d|, i requires 0 <= i < |d| => (d[i], multiset(kws)[d[i]]))
  }

  /** The counted words by non-increasing count, ties in first-seen order. */
  function Ranked(kws: seq<string>): seq<(string, nat)> {
    Sort(Counts(kws), CountGe)
  }

  /**
   * `Counter(kws).most_common(n)`: the first `n` ranked words; nothing when
   * `n <= 0`.
   */
  function MostCommon(kws: seq<string>, n: int): seq<(string, nat)> {
    if n <= 0 then [] else Take(Ranked(kws), n)
  }

  function FirstOf(r: seq<(string, nat)>): (ws: seq<string>)
    ensures |ws| == |r| && forall i :: 0 <= i < |r| ==> ws[i] == r[i].0
  {
    seq(|r|, i requires 0 <= i < |r| => r[i].0)
  }

  lemma CountsFacts(kws: seq<string>)
    ensures Distinct(Counts(kws))
    ensures forall e :: e in Counts(kws) <==> e.0 in kws && e.1 == multiset(kws)[e.0]
  {
    var d := Dedup(kws);
    var c := Counts(kws);
    DedupProperties(kws);
    forall e ensures e in c <==> e.0 in kws && e.1 == multiset(kws)[e.0] {
      if e.0 in kws && e.1 == multiset(kws)[e.0] {
        var i :| 0 <= i < |d| && d[i] == e.0;
        assert c[i] == e;
      }
    }
  }

  /** Every word of `kws` is ranked once, with its number of occurrences. */
  lemma RankedMembers(kws: seq<string>)
    ensures forall e :: e in Ranked(kws) <==> e.0 in kws && e.1 == multiset(kws)[e.0]
  {
    CountsFacts(kws);
    SortMembers(Counts(kws), CountGe);
  }

  /** Ranked words are distinct and their counts do not increase. */
  lemma RankedOrder(kws: seq<string>)
    ensures forall i, j :: 0 <= i < j < |Ranked(kws)| ==>
              Ranked(kws)[i].1 >= Ranked(kws)[j].1 && Ranked(kws)[i].0 != Ranked(kws)[j].0
  {
    var c := Counts(kws);
    var s := Ranked(kws);
    CountsFacts(kws);
    SortPermutes(c, CountGe);
    assert Preorder(CountGe);
    SortSorted(c, CountGe);
    DistinctPerm(c, s);
    RankedMembers(kws);
    forall i, j | 0 <= i < j < |s| ensures s[i].0 != s[j].0 {
      assert s[i] in s && s[j] in s;
    }
  }

  /**
   * `most_common(n)` lists distinct words of `kws` with their true counts,
   * at most `n`, by non-increasing count.
   */
  lemma MostCommonFacts(kws: seq<string>, n: int)
    ensures var r := MostCommon(kws, n);
            (n >= 0 ==> |r| <= n)
            && (forall e :: e in r ==> e.0 in kws && e.1 == multiset(kws)[e.0])
            && (forall i, j :: 0 <= i < j < |r| ==> r[i].1 >= r[j].1 && r[i].0 != r[j].0)
  {
    RankedMembers(kws);
    RankedOrder(kws);
    var r := MostCommon(kws, n);
    var s := Ranked(kws);
    assert forall i :: 0 <= i < |r| ==> r[i] == s[i];
    forall e | e in r ensures e in s {
      var i :| 0 <= i < |r| && r[i] == e;
    }
  }

  /** A word of `kws` that `most_common(n)` leaves out occurs no more often than any word listed. */
  lemma MostCommonDominates(kws: seq<string>, n: int, w: string)
    requires w in kws && w !in FirstOf(MostCommon(kws, n))
    ensures forall e :: e in MostCommon(kws, n) ==> e.1 >= multiset(kws)[w]
  {
    RankedMembers(kws);
    RankedOrder(kws);
    var r := MostCommon(kws, n);
    var s := Ranked(kws);
    assert forall i :: 0 <= i < |r| ==> r[i] == s[i];
    var pw := (w, multiset(kws)[w]);
    assert pw in s;
    var j :| 0 <= j < |s| && s[j] == pw;
    assert forall k :: 0 <= k < |r| ==> FirstOf(r)[k] != w;
    assert j >= |r|;
    forall e | e in r ensures e.1 >= multiset(kws)[w] {
      var i :| 0 <= i < |r| && r[i] == e;
    }
  }

  // ---------------------------------------------------------------------
  // pseudo_relevance_feedback
  // ---------------------------------------------------------------------

  /** The keywords of the first `topK` result texts joined by spaces. */
  function FeedbackKeywords(texts: seq<string>, topK: int): seq<string> {
    ExtractKeywords(Join(" ", Take(texts, topK)), 3)
  }

  function QueryWords(query: string): set<string> {
    set w | w in ExtractKeywords(query, 3)
  }

  /**
   * Among the `2 * maxTerms` most frequent keywords of `kws`, those not in
   * `exclude`, at most `maxTerms` of them.
   */
  function FreshTerms(kws: seq<string>, exclude: set<string>, maxTerms: int): seq<string> {
    Take(Filter(FirstOf(MostCommon(kws, maxTerms * 2)), w => w !in exclude), maxTerms)
  }

  lemma FreshTermsMembers(kws: seq<string>, exclude: set<string>, maxTerms: int)
    ensures var t := FreshTerms(kws, exclude, maxTerms);
            (maxTerms >= 0 ==> |t| <= maxTerms) && forall w :: w in t ==> w in kws && w !in exclude
  {
    var top := MostCommon(kws, maxTerms * 2);
    var words := FirstOf(top);
    var novel := Filter(words, w => w !in exclude);
    var t := FreshTerms(kws, exclude, maxTerms);
    MostCommonFacts(kws, maxTerms * 2);
    forall w | w in t ensures w in kws && w !in exclude {
      var i :| 0 <= i < |t| && t[i] == w;
      assert novel[i] == w;
      var k :| 0 <= k < |words| && words[k] == w;
      assert top[k] in top;
    }
  }

  lemma FreshTermsOrder(kws: seq<string>, exclude: set<string>, maxTerms: int)
    ensures var t := FreshTerms(kws, exclude, maxTerms);
            Distinct(t) && forall i, j :: 0 <= i < j < |t| ==> multiset(kws)[t[i]] >= multiset(kws)[t[j]]
  {
    var top := MostCommon(kws, maxTerms * 2);
    var words := FirstOf(top);
    var novel := Filter(words, w => w !in exclude);
    var t := FreshTerms(kws, exclude, maxTerms);
    MostCommonFacts(kws, maxTerms * 2);
    var ge := (a: string, b: string) => multiset(kws)[a] >= multiset(kws)[b];
    assert SortedBy(words, ge) by {
      forall i, j | 0 <= i < j < |words| ensures ge(words[i], words[j]) {
        assert top[i] in top && top[j] in top;
      }
    }
    FilterSorted(words, w => w !in exclude, ge);
    FilterDistinct(words, w => w !in exclude);
    assert forall i :: 0 <= i < |t| ==> t[i] == novel[i];
  }

  /** The terms added to the query: the fresh terms of the feedback keywords, excluding the query's own. */
  function NewTerms(query: string, texts: seq<string>, topK: int, maxTerms: int): seq<string> {
    FreshTerms(FeedbackKeywords(texts, topK), QueryWords(query), maxTerms)
  }

  /**
   * At most `maxTerms` new terms, each a keyword of the top `topK` results
   * that is not a keyword of the query; distinct, most frequent first.
   */
  lemma NewTermsFacts(query: string, texts: seq<string>, topK: int, maxTerms: int)
    ensures var t := NewTerms(query, texts, topK, maxTerms);
            var kws := FeedbackKeywords(texts, topK);
            (maxTerms >= 0 ==> |t| <= maxTerms)
            && (forall w :: w in t ==> w in kws && w !in QueryWords(query))
            && Distinct(t)
            && (forall i, j :: 0 <= i < j < |t| ==> multiset(kws)[t[i]] >= multiset(kws)[t[j]])
  {
    FreshTermsMembers(FeedbackKeywords(texts, topK), QueryWords(query), maxTerms);
    FreshTermsOrder(FeedbackKeywords(texts, topK), QueryWords(query), maxTerms);
  }

  /**
   * `pseudo_relevance_feedback`: the query unchanged when there are no
   * results or no new terms, otherwise the query, a space and the new terms
   * joined by spaces.
   */
  function PseudoRelevanceFeedback(query: string, texts: seq<string>, topK: int, maxTerms: int): (r: string)
    ensures texts == [] ==> r == query
    ensures texts != [] && NewTerms(query, texts, topK, maxTerms) != [] ==>
              r == query + " " + Join(" ", NewTerms(query, texts, topK, maxTerms))
    ensures NewTerms(query, texts, topK, maxTerms) == [] ==> r == query
    ensures maxTerms <= 0 ==> r == query
  {
    if texts == [] then query
    else
      var terms := NewTerms(query, texts, topK, maxTerms);
      if terms != [] then query + " " + Join(" ", terms) else query
  }

  // ---------------------------------------------------------------------
  // FallbackSearch
  // ---------------------------------------------------------------------

  /** A fallback policy; it only holds the minimum number of results wanted. */
  datatype FallbackSearch = FallbackSearch(minResults: int)

  /**
   * `should_apply_fallback`: an empty result list always triggers the
   * fallback, a non-empty one when it holds fewer than `minResults`
   * results; the level plays no part.
   */
  function ShouldApplyFallback(f: FallbackSearch, results: nat, level: int): (r: bool)
    ensures r <==> results == 0 || results < f.minResults
  {
    if results == 0 then true else results < f.minResults
  }

  /** `get_fallback_message`: a message for levels 1 to 3, the empty string otherwise. */
  function FallbackMessage(level: int, space: string): (r: string)
    ensures r != "" <==> 1 <= level <= 3
    ensures level == 1 ==> Contains(r, space)
  {
    if level == 1 then
      var m := "⚠️ В space '" + space + "' найдено мало результатов. Показываю из всех spaces.";
      ContainsAt(m, space, |"⚠️ В space '"|);
      m
    else if level == 2 then "⚠️ Применен Pseudo-Relevance Feedback для улучшения результатов."
    else if level == 3 then "⚠️ Применен пониженный порог релевантности для расширения результатов."
    else ""
  }

  /** The process-wide fallback policy, created on first use. */
  class FallbackRegistry {
    var instance: Option<FallbackSearch>

    constructor ()
      ensures instance == None
    {
      instance := None;
    }

    /** `get_fallback_search`: the first call fixes `minResults`; later calls return that instance. */
    method GetFallbackSearch(minResults: int) returns (f: FallbackSearch)
      modifies this
      ensures old(instance).Some? ==> f == old(instance).value && instance == old(instance)
      ensures old(instance).None? ==> f == FallbackSearch(minResults) && instance == Some(f)
    {
      if instance.None? {
        instance := Some(FallbackSearch(minResults));
      }
      f := instance.value;
    }
  }
}
