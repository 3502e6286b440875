/**
 * The self-learning synonym store: a miner that logs queries with the
 * pages they found and keeps a co-occurrence graph from each query term
 * to those pages, terms that lead to similar page sets counting as
 * synonyms; and the manager that merges the built-in dictionary, the
 * domain terms and the learned synonyms for a word.
 */
module Synonyms {
  import opened Wrappers
  import opened Text
  import opened Seqs
  import opened Sorting
  import opened Records
  import opened Similarity

  /** Proper names and tool names that are never replaced by a synonym. */
  const TermBlacklist: set<string> := {
    "syntaxcheck", "codesearch", "docsearch", "metadatasearch", "templatesearch",
    "ollama", "openrouter", "litellm", "confluence", "jira", "bitbucket",
    "github", "gitlab", "docker", "kubernetes", "postgres", "mysql", "redis",
    "mcp", "rag", "llm", "gpt", "claude", "chatgpt",
    "rauii", "map", "md", "mdo", "mi"
  }

  /** The built-in dictionary. */
  const BaseSynonyms: map<string, seq<string>> := map[
    "стек" := ["технологии", "инструменты", "frameworks", "tech stack", "tools"],
    "технологий" := ["стек", "инструментов", "tools", "tech stack"],
    "framework" := ["фреймворк", "библиотека", "library", "фреймворки"],
    "разработка" := ["development", "dev", "coding", "программирование"],
    "баг" := ["bug", "ошибка", "error", "дефект", "issue"],
    "тест" := ["test", "testing", "проверка", "тестирование"],
    "сервер" := ["server", "backend", "бэкенд", "хост", "host"],
    "база данных" := ["БД", "database", "DB", "хранилище", "storage"],
    "бд" := ["база данных", "database", "DB", "хранилище"],
    "контейнер" := ["container", "докер"],
    "api" := ["интерфейс", "endpoint", "метод", "веб-сервис", "rest"],
    "endpoint" := ["api", "метод", "точка входа", "route", "эндпоинт"],
    "rest" := ["api", "restful", "веб-сервис"],
    "страница" := ["page", "документ", "doc", "страничка"],
    "пространство" := ["space", "спейс", "область"],
    "документация" := ["docs", "documentation", "руководство", "мануал"],
    "настройка" := ["конфигурация", "config", "configuration", "setup"],
    "установка" := ["инсталляция", "install", "installation", "setup"],
    "запуск" := ["старт", "start", "run", "launch"],
    "проблема" := ["issue", "баг", "ошибка", "problem"],
    "решение" := ["solution", "fix", "исправление"],
    "инструкция" := ["руководство", "guide", "мануал", "howto"],
    "команда" := ["team", "группа", "отдел"],
    "проект" := ["project", "система", "приложение", "сервис"],
    "версия" := ["version", "релиз", "release"],
    "обновление" := ["update", "апдейт", "upgrade"]
  ]

  // ---------------------------------------------------------------------
  // QueryMiner._extract_keywords
  // ---------------------------------------------------------------------

  const MinerStopwords: set<string> := {"в", "на", "и", "с", "по", "для", "как", "что", "это", "или", "а", "но"}

  predicate IsMinerKeyword(w: string) { w !in MinerStopwords && |w| > 2 }

  /**
   * The lower-case runs of `[а-яёa-z0-9]` in the lower-cased text, longer
   * than two characters and not stop words, in order.
   */
  function MinerKeywords(text: string): seq<string> {
    Filter(KeywordTokens(Lower(text)), IsMinerKeyword)
  }

  /** The miner's keywords are exactly the long, non-stop tokens of the lower-cased text, made of keyword characters. */
  lemma MinerKeywordsFacts(text: string)
    ensures var r := MinerKeywords(text);
            (forall w :: w in r <==> w in KeywordTokens(Lower(text)) && IsMinerKeyword(w))
            && (forall w :: w in r ==> |w| > 2 && forall c :: c in w ==> IsKeywordChar(c))
  {
  }

  // ---------------------------------------------------------------------
  // The co-occurrence graph
  // ---------------------------------------------------------------------

  /** A result's `page_id`, `None` when its metadata has none. */
  type PageId = Option<string>

  /** `set(result_pages)`. */
  function PageSet(pages: seq<PageId>): set<PageId> {
    set p | p in pages
  }

  /** The pages a term led to and how many times it was logged. */
  datatype TermStats = TermStats(pages: set<PageId>, count: nat)

  /** A logged query: its text, time and the page ids of its results. */
  datatype LogEntry = LogEntry(query: string, timestamp: real, resultPages: seq<PageId>)

  /** The co-occurrence dictionary: its terms in insertion order and their statistics. */
  datatype Graph = Graph(terms: seq<string>, stats: map<string, TermStats>)

  const EmptyGraph: Graph := Graph([], map[])

  /** The term list and the dictionary's keys agree, each term listed once. */
  ghost predicate GraphValid(g: Graph) {
    Distinct(g.terms) && forall t :: t in g.stats <==> t in g.terms
  }

  /** One keyword occurrence: its pages are added and its count grows by one. */
  function AddTerm(g: Graph, t: string, pages: set<PageId>): (r: Graph)
    ensures GraphValid(g) ==> GraphValid(r)
  {
    if t in g.stats then Graph(g.terms, g.stats[t := TermStats(g.stats[t].pages + pages, g.stats[t].count + 1)])
    else Graph(g.terms + [t], g.stats[t := TermStats(pages, 1)])
  }

  /** All keyword occurrences of one query, in order. */
  function AddTerms(g: Graph, terms: seq<string>, pages: set<PageId>): (r: Graph)
    ensures GraphValid(g) ==> GraphValid(r)
  {
    if terms == [] then g
    else AddTerm(AddTerms(g, terms[..|terms| - 1], pages), terms[|terms| - 1], pages)
  }

  /** The graph after replaying a log onto `g`, entry by entry. */
  function Replay(g: Graph, log: seq<LogEntry>): (r: Graph)
    ensures GraphValid(g) ==> GraphValid(r)
  {
    if log == [] then g
    else
      var e := log[|log| - 1];
      AddTerms(Replay(g, log[..|log| - 1]), MinerKeywords(e.query), PageSet(e.resultPages))
  }

  /** `_rebuild_co_occurrence` from an empty dictionary. */
  function Rebuild(log: seq<LogEntry>): Graph {
    Replay(EmptyGraph, log)
  }

  /** How many times `t` occurs among the keywords of the logged queries. */
  function Occurrences(log: seq<LogEntry>, t: string): nat {
    if log == [] then 0
    else Occurrences(log[..|log| - 1], t) + multiset(MinerKeywords(log[|log| - 1].query))[t]
  }

  /** The pages of the logged queries whose keywords include `t`. */
  function PagesOf(log: seq<LogEntry>, t: string): set<PageId> {
    if log == [] then {}
    else
      var e := log[|log| - 1];
      PagesOf(log[..|log| - 1], t) + (if t in MinerKeywords(e.query) then PageSet(e.resultPages) else {})
  }

  /** One query's keywords: a term's count grows by its occurrences, its pages by the query's pages when it occurs. */
  lemma {:induction false} AddTermsStats(g: Graph, terms: seq<string>, pages: set<PageId>, t: string)
    ensures var r := AddTerms(g, terms, pages);
            (t in r.stats <==> t in g.stats || t in terms)
            && (t in r.stats ==>
                  r.stats[t].count == (if t in g.stats then g.stats[t].count else 0) + multiset(terms)[t]
                  && r.stats[t].pages == (if t in g.stats then g.stats[t].pages else {}) + (if t in terms then pages else {}))
    decreases |terms|
  {
    if terms != [] {
      var init := terms[..|terms| - 1];
      AddTermsStats(g, init, pages, t);
      assert terms == init + [terms[|terms| - 1]];
    }
  }

  /**
   * Rebuilding from the log gives every logged term, its count the number
   * of its keyword occurrences and its pages those of the queries it
   * occurs in: the graph the incremental updates build.
   */
  lemma {:induction false} RebuildStats(log: seq<LogEntry>, t: string)
    ensures var g := Rebuild(log);
            (t in g.stats <==> Occurrences(log, t) > 0)
            && (t in g.stats ==> g.stats[t].count == Occurrences(log, t) && g.stats[t].pages == PagesOf(log, t))
            && (t !in g.stats ==> PagesOf(log, t) == {})
    decreases |log|
  {
    if log != [] {
      var init := log[..|log| - 1];
      var e := log[|log| - 1];
      var kws := MinerKeywords(e.query);
      var pages := PageSet(e.resultPages);
      RebuildStats(init, t);
      var g0 := Rebuild(init);
      assert Rebuild(log) == AddTerms(g0, kws, pages);
      assert Occurrences(log, t) == Occurrences(init, t) + multiset(kws)[t];
      assert PagesOf(log, t) == PagesOf(init, t) + (if t in kws then pages else {});
      AddTermsStats(g0, kws, pages, t);
      assert t in kws <==> multiset(kws)[t] > 0;
    }
  }

  // ---------------------------------------------------------------------
  // find_synonyms and export_learned_synonyms
  // ---------------------------------------------------------------------

  /** The synonym candidates among `terms`: other terms with at least two pages and similarity at least `threshold`. */
  function Candidates(g: Graph, term: string, termPages: set<PageId>, threshold: real, terms: seq<string>): (r: seq<(string, real)>)
    requires forall o :: o in terms ==> o in g.stats
    ensures forall i :: 0 <= i < |r| ==>
              r[i].0 in terms && r[i].0 != term && |g.stats[r[i].0].pages| >= 2
              && r[i].1 == Jaccard(termPages, g.stats[r[i].0].pages) && r[i].1 >= threshold
  {
    if terms == [] then []
    else
      var o := terms[|terms| - 1];
      var rest := Candidates(g, term, termPages, threshold, terms[..|terms| - 1]);
      var others := g.stats[o].pages;
      if o != term && |others| >= 2 && |termPages + others| > 0 && Jaccard(termPages, others) >= threshold
      then rest + [(o, Jaccard(termPages, others))]
      else rest
  }

  predicate SimilarityGe(a: (string, real), b: (string, real)) { a.1 >= b.1 }

  function Names(xs: seq<(string, real)>): (r: seq<string>)
    ensures |r| == |xs| && forall i :: 0 <= i < |r| ==> r[i] == xs[i].0
  {
    seq(|xs|, i requires 0 <= i < |xs| => xs[i].0)
  }

  /**
   * What `find_synonyms` returns: nothing for an unknown term or one with
   * fewer than two pages; otherwise the five most similar candidates, by
   * descending similarity, ties in dictionary order.
   */
  function SynonymsOf(g: Graph, term: string, threshold: real): seq<string>
    requires GraphValid(g)
  {
    var t := Lower(term);
    if t !in g.stats || |g.stats[t].pages| < 2 then []
    else Names(Take(Sort(Candidates(g, t, g.stats[t].pages, threshold, g.terms), SimilarityGe), 5))
  }

  /**
   * Learned synonyms are at most five other terms with at least two pages
   * each and similarity at least the threshold, most similar first.
   */
  lemma SynonymsOfFacts(g: Graph, term: string, threshold: real)
    requires GraphValid(g)
    ensures var r := SynonymsOf(g, term, threshold);
            |r| <= 5
            && (Lower(term) !in g.stats || |g.stats[Lower(term)].pages| < 2 ==> r == [])
            && forall o :: o in r ==>
                 o != Lower(term) && o in g.stats && |g.stats[o].pages| >= 2
                 && Jaccard(g.stats[Lower(term)].pages, g.stats[o].pages) >= threshold
    ensures Lower(term) in g.stats && |g.stats[Lower(term)].pages| >= 2 ==>
              var cands := Candidates(g, Lower(term), g.stats[Lower(term)].pages, threshold, g.terms);
              SortedBy(Take(Sort(cands, SimilarityGe), 5), SimilarityGe)
  {
    var t := Lower(term);
    if t in g.stats && |g.stats[t].pages| >= 2 {
      var cands := Candidates(g, t, g.stats[t].pages, threshold, g.terms);
      var sorted := Sort(cands, SimilarityGe);
      SortMembers(cands, SimilarityGe);
      assert Preorder(SimilarityGe);
      SortSorted(cands, SimilarityGe);
      var top := Take(sorted, 5);
      forall o | o in Names(top)
        ensures o != t && o in g.stats && |g.stats[o].pages| >= 2 && Jaccard(g.stats[t].pages, g.stats[o].pages) >= threshold
      {
        var i :| 0 <= i < |top| && top[i].0 == o;
        assert top[i] in sorted;
        assert top[i] in cands;
      }
    }
  }

  /**
   * The miner: the query log and the co-occurrence graph built from it.
   * File persistence is not modelled: the log is passed in when the miner
   * is made.
   */
  class QueryMiner {
    var queryLog: seq<LogEntry>
    var graph: Graph

    /** The graph is the one rebuilt from the log. */
    ghost predicate Valid()
      reads this
    {
      graph == Rebuild(queryLog)
    }

    /** `__init__`: the loaded log, and the graph rebuilt from it. */
    constructor (loaded: seq<LogEntry>)
      ensures Valid() && queryLog == loaded
    {
      queryLog := loaded;
      graph := EmptyGraph;
      new;
      RebuildCoOccurrence();
    }

    /** `_rebuild_co_occurrence`: every logged entry replayed onto the current graph. */
    method RebuildCoOccurrence()
      modifies this
      ensures queryLog == old(queryLog)
      ensures graph == Replay(old(graph), queryLog)
    {
      var i := 0;
      while i < |queryLog|
        invariant 0 <= i <= |queryLog|
        invariant queryLog == old(queryLog)
        invariant graph == Replay(old(graph), queryLog[..i])
      {
        var entry := queryLog[i];
        assert queryLog[..i + 1][..i] == queryLog[..i];
        AddKeywords(MinerKeywords(entry.query), PageSet(entry.resultPages));
        i := i + 1;
      }
      assert queryLog[..i] == queryLog;
    }

    /** The loop over one query's keywords. */
    method AddKeywords(terms: seq<string>, pages: set<PageId>)
      modifies this
      ensures queryLog == old(queryLog)
      ensures graph == AddTerms(old(graph), terms, pages)
    {
      var i := 0;
      while i < |terms|
        invariant 0 <= i <= |terms|
        invariant queryLog == old(queryLog)
        invariant graph == AddTerms(old(graph), terms[..i], pages)
      {
        var t := terms[i];
        assert terms[..i + 1][..i] == terms[..i];
        if t in graph.stats {
          graph := Graph(graph.terms, graph.stats[t := TermStats(graph.stats[t].pages + pages, graph.stats[t].count + 1)]);
        } else {
          graph := Graph(graph.terms + [t], graph.stats[t := TermStats(pages, 1)]);
        }
        i := i + 1;
      }
      assert terms[..i] == terms;
    }

    /**
     * `log_query`: the entry (with the `page_id` of every result that has
     * metadata) is appended, and the graph updated incrementally; it stays
     * the graph rebuilt from the log. `results[i]` is a result's metadata,
     * `None` when it has none; `now` is the clock.
     */
    method LogQuery(query: string, results: seq<Option<Metadata>>, now: real)
      requires Valid()
      modifies this
      ensures Valid()
      ensures queryLog == old(queryLog) + [LogEntry(query, now, ResultPages(results))]
      ensures graph == AddTerms(old(graph), MinerKeywords(query), PageSet(ResultPages(results)))
    {
      var entry := LogEntry(query, now, ResultPages(results));
      queryLog := queryLog + [entry];
      assert queryLog[..|queryLog| - 1] == old(queryLog);
      AddKeywords(MinerKeywords(query), PageSet(entry.resultPages));
    }

    /** `find_synonyms`. */
    method FindSynonyms(term: string, threshold: real) returns (r: seq<string>)
      requires GraphValid(graph)
      ensures r == SynonymsOf(graph, term, threshold)
    {
      var t := Lower(term);
      if t !in graph.stats {
        return [];
      }
      var termPages := graph.stats[t].pages;
      if |termPages| < 2 {
        return [];
      }
      var cands: seq<(string, real)> := [];
      var i := 0;
      while i < |graph.terms|
        invariant 0 <= i <= |graph.terms|
        invariant cands == Candidates(graph, t, termPages, threshold, graph.terms[..i])
      {
        var o := graph.terms[i];
        assert graph.terms[..i + 1][..i] == graph.terms[..i];
        var others := graph.stats[o].pages;
        if o != t && |others| >= 2 && |termPages + others| > 0 {
          var similarity := Jaccard(termPages, others);
          if similarity >= threshold {
            cands := cands + [(o, similarity)];
          }
        }
        i := i + 1;
      }
      assert graph.terms[..i] == graph.terms;
      r := Names(Take(Sort(cands, SimilarityGe), 5));
    }

    /**
     * The dictionary `export_learned_synonyms` builds (its file write is
     * not modelled): the synonyms of every term logged at least three times
     * that has any.
     */
    method ExportLearnedSynonyms() returns (learned: map<string, seq<string>>)
      requires GraphValid(graph)
      ensures forall t :: t in learned <==>
                t in graph.stats && graph.stats[t].count >= 3 && SynonymsOf(graph, t, 0.5) != []
      ensures forall t :: t in learned ==> learned[t] == SynonymsOf(graph, t, 0.5)
    {
      learned := map[];
      var i := 0;
      while i < |graph.terms|
        invariant 0 <= i <= |graph.terms|
        invariant forall t :: t in learned <==>
                    t in graph.terms[..i] && graph.stats[t].count >= 3 && SynonymsOf(graph, t, 0.5) != []
        invariant forall t :: t in learned ==> learned[t] == SynonymsOf(graph, t, 0.5)
      {
        var t := graph.terms[i];
        assert graph.terms[..i + 1] == graph.terms[..i] + [t];
        if graph.stats[t].count >= 3 {
          var synonyms := FindSynonyms(t, 0.5);
          if synonyms != [] {
            learned := learned[t := synonyms];
          }
        }
        i := i + 1;
      }
      assert graph.terms[..i] == graph.terms;
    }
  }

  /** `[r['metadata'].get('page_id') for r in results if 'metadata' in r]`. */
  function ResultPages(results: seq<Option<Metadata>>): (r: seq<PageId>)
    ensures |r| <= |results|
  {
    if results == [] then []
    else
      var rest := ResultPages(results[1..]);
      if results[0].None? then rest
      else [if "page_id" in results[0].value then Some(results[0].value["page_id"]) else None] + rest
  }

  /** Logging one more query updates the graph as rebuilding from the log does: rebuilding reproduces the incremental graph. */
  lemma LoggingMatchesRebuild(log: seq<LogEntry>, e: LogEntry)
    ensures Rebuild(log + [e]) == AddTerms(Rebuild(log), MinerKeywords(e.query), PageSet(e.resultPages))
  {
    assert (log + [e])[..|log|] == log;
  }

  // ---------------------------------------------------------------------
  // SynonymsManager.get_synonyms
  // ---------------------------------------------------------------------

  /** The base, domain and learned entries for the word, in that order. */
  function AllSynonyms(wordLower: string, domain: map<string, seq<string>>, learned: map<string, seq<string>>): seq<string> {
    (if wordLower in BaseSynonyms then BaseSynonyms[wordLower] else [])
    + (if wordLower in domain then domain[wordLower] else [])
    + (if wordLower in learned then learned[wordLower] else [])
  }

  /**
   * The merged synonyms of a word: the first spelling of each lower-cased
   * synonym other than the word itself, in source order.
   */
  function MergedSynonyms(all: seq<string>, wordLower: string): seq<string> {
    DedupBy(Filter(all, NotWord(wordLower)), Lower)
  }

  /** A synonym is not the word itself, up to case. */
  function NotWord(wordLower: string): string -> bool {
    s => Lower(s) != wordLower
  }

  /** One synonym more: kept when it is not the word and its lower-cased form is new. */
  lemma MergeStep(prefix: seq<string>, syn: string, wordLower: string, unique: seq<string>, seen: set<string>)
    requires unique == MergedSynonyms(prefix, wordLower)
    requires forall k :: k in seen <==> k in Keys(unique, Lower)
    ensures Lower(syn) == wordLower || Lower(syn) in seen ==> MergedSynonyms(prefix + [syn], wordLower) == unique
    ensures Lower(syn) != wordLower && Lower(syn) !in seen ==>
              MergedSynonyms(prefix + [syn], wordLower) == unique + [syn]
              && forall k :: k in seen + {Lower(syn)} <==> k in Keys(unique + [syn], Lower)
  {
    FilterSnoc(prefix, syn, NotWord(wordLower));
    assert NotWord(wordLower)(syn) <==> Lower(syn) != wordLower;
    var kept := Filter(prefix, NotWord(wordLower));
    if Lower(syn) != wordLower {
      assert Filter(prefix + [syn], NotWord(wordLower)) == kept + [syn];
      DedupByStep(kept, syn, Lower, unique, seen);
    } else {
      assert Filter(prefix + [syn], NotWord(wordLower)) == kept;
    }
  }

  /**
   * The loop of `get_synonyms`: each synonym is kept when its lower-cased
   * form is neither the word nor one already seen.
   */
  method MergeSynonyms(synonyms: seq<string>, wordLower: string) returns (unique: seq<string>)
    ensures unique == MergedSynonyms(synonyms, wordLower)
  {
    var seen: set<string> := {};
    unique := [];
    var i := 0;
    while i < |synonyms|
      invariant i <= |synonyms| && unique == MergedSynonyms(synonyms[..i], wordLower)
                && forall k :: k in seen <==> k in Keys(unique, Lower)
    {
      var syn := synonyms[i];
      assert synonyms[..i + 1] == synonyms[..i] + [syn];
      MergeStep(synonyms[..i], syn, wordLower, unique, seen);
      var synLower := Lower(syn);
      if synLower != wordLower && synLower !in seen {
        seen := seen + {synLower};
        unique := unique + [syn];
      }
      i := i + 1;
    }
    assert synonyms[..i] == synonyms;
  }

  /**
   * The synonym manager: the domain terms and the miner. The learned
   * synonyms it reads back from the miner's export are passed in.
   */
  class SynonymsManager {
    var domainTerms: map<string, seq<string>>
    const miner: QueryMiner

    ghost predicate Valid()
      reads this, miner
    {
      miner.Valid()
    }

    constructor (domain: map<string, seq<string>>, loadedLog: seq<LogEntry>)
      ensures Valid() && domainTerms == domain && fresh(miner) && miner.queryLog == loadedLog
    {
      domainTerms := domain;
      miner := new QueryMiner(loadedLog);
    }

    /**
     * `get_synonyms`: the base, domain and learned synonyms of the
     * lower-cased word merged without repeats (case-insensitively) and
     * without the word itself, cut to `maxSynonyms` (Python's `[:n]`).
     */
    method GetSynonyms(word: string, maxSynonyms: int, learned: map<string, seq<string>>) returns (r: seq<string>)
      ensures r == Take(MergedSynonyms(AllSynonyms(Lower(word), domainTerms, learned), Lower(word)), maxSynonyms)
    {
      var wordLower := Lower(word);
      var unique := MergeSynonyms(AllSynonyms(wordLower, domainTerms, learned), wordLower);
      r := Take(unique, maxSynonyms);
    }

    /** `log_query`: handed to the miner. */
    method LogQuery(query: string, results: seq<Option<Metadata>>, now: real)
      requires Valid()
      modifies miner
      ensures Valid()
      ensures miner.queryLog == old(miner.queryLog) + [LogEntry(query, now, ResultPages(results))]
    {
      miner.LogQuery(query, results, now);
    }
  }

  /**
   * The merged synonyms never repeat a word up to case, never contain the
   * word itself, come from the three sources in order, and are at most
   * `maxSynonyms`.
   */
  lemma MergedSynonymsFacts(all: seq<string>, wordLower: string, maxSynonyms: int)
    ensures var r := Take(MergedSynonyms(all, wordLower), maxSynonyms);
            DistinctKeys(r, Lower)
            && (forall s :: s in r ==> Lower(s) != wordLower && s in all)
            && (maxSynonyms >= 0 ==> |r| <= maxSynonyms)
            && IsSubseq(r, all)
  {
    var kept := Filter(all, NotWord(wordLower));
    var merged := DedupBy(kept, Lower);
    DedupByProperties(kept, Lower);
    FilterIsSubseq(all, NotWord(wordLower));
    SubseqTrans(merged, kept, all);
    var r := Take(merged, maxSynonyms);
    assert r == merged[..|r|];
    PrefixSubseq(merged, |r|);
    SubseqTrans(r, merged, all);
    forall s | s in r ensures Lower(s) != wordLower && s in all {
      SubseqMembers(r, all, s);
      SubseqMembers(merged, kept, s);
    }
  }
}
