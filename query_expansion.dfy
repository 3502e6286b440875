/**
 * Bounded query expansion of the search server: the variant budget by word
 * count, the candidate pool size for reranking, and `expand_query`, which
 * grows a duplicate-free list of query variants from several sources.
 *
 * The sources are inputs: the related queries of the semantic query log,
 * a synonym lookup and the query-rewriter variants.
 */
module QueryExpansion {
  import opened Wrappers
  import opened Text
  import opened Seqs
  import AdvancedSearch
  import Synonyms

  /** `_get_max_variants`: 5 variants for up to two words, 3 for up to four, 2 otherwise. */
  function MaxVariants(query: string): (r: nat)
    ensures 2 <= r <= 5
  {
    var n := |Split(query)|;
    if n <= 2 then 5 else if n <= 4 then 3 else 2
  }

  /**
   * `calculate_optimal_candidate_limit`: `limit` times a multiplier of
   * 5/3/2 by word count (the same bands as the variant budget), at most 50.
   */
  function OptimalCandidateLimit(query: string, limit: int): (r: int)
    ensures r <= 50
    ensures limit >= 0 ==> r >= 0
    ensures limit * MaxVariants(query) <= 50 ==> r == limit * MaxVariants(query)
    ensures limit * MaxVariants(query) > 50 ==> r == 50
  {
    var n := |Split(query)|;
    var multiplier := if n <= 2 then 5 else if n <= 4 then 3 else 2;
    Min(limit * multiplier, 50)
  }

  /** Asking for more results never yields fewer candidates. */
  lemma CandidateLimitMonotone(query: string, l1: int, l2: int)
    requires l1 <= l2
    ensures OptimalCandidateLimit(query, l1) <= OptimalCandidateLimit(query, l2)
  {
  }

  /** For a positive limit, a shorter query gets at least as many candidates. */
  lemma CandidateLimitShorterQuery(a: string, b: string, limit: int)
    requires limit >= 0 && |Split(a)| <= |Split(b)|
    ensures OptimalCandidateLimit(a, limit) >= OptimalCandidateLimit(b, limit)
  {
    assert limit * MaxVariants(a) >= limit * MaxVariants(b);
  }

  // ---------------------------------------------------------------------
  // Growing the variant list
  // ---------------------------------------------------------------------

  /**
   * The list after offering `cands` one by one: a candidate is appended when
   * it is not yet present, and nothing is appended once the list holds
   * `maxVariants` entries.
   */
  function Absorb(current: seq<string>, cands: seq<string>, maxVariants: int): seq<string>
    decreases |cands|
  {
    if cands == [] || |current| >= maxVariants then current
    else Absorb(if cands[0] in current then current else current + [cands[0]], cands[1..], maxVariants)
  }

  /**
   * Absorbing keeps the existing entries in front, keeps the list
   * duplicate-free, never grows it beyond `maxVariants`, adds only
   * candidates, and, when it stops short of the budget, has taken every
   * candidate.
   */
  lemma {:induction false} AbsorbFacts(current: seq<string>, cands: seq<string>, maxVariants: int)
    ensures var r := Absorb(current, cands, maxVariants);
            |current| <= |r| && r[..|current|] == current
            && (Distinct(current) ==> Distinct(r))
            && |r| <= Max(|current|, maxVariants)
            && (forall x :: x in r ==> x in current || x in cands)
            && (|r| < maxVariants ==> forall x :: x in cands ==> x in r)
    decreases |cands|
  {
    if cands != [] && |current| < maxVariants {
      var next := if cands[0] in current then current else current + [cands[0]];
      AbsorbFacts(next, cands[1..], maxVariants);
      var r := Absorb(current, cands, maxVariants);
      assert r == Absorb(next, cands[1..], maxVariants);
      assert r[..|current|] == next[..|next|][..|current|];
      assert cands[0] in next;
      forall x | x in cands ensures x in cands[1..] || x == cands[0] {
        var i :| 0 <= i < |cands| && cands[i] == x;
        if i > 0 {
          assert cands[1..][i - 1] == x;
        }
      }
    }
  }

  /** Absorbing never changes the head of a non-empty list. */
  lemma AbsorbKeepsHead(current: seq<string>, cands: seq<string>, maxVariants: int)
    requires current != []
    ensures Absorb(current, cands, maxVariants) != [] && Absorb(current, cands, maxVariants)[0] == current[0]
  {
    AbsorbFacts(current, cands, maxVariants);
    assert Absorb(current, cands, maxVariants)[..|current|][0] == current[0];
  }

  /**
   * The appending loop shared by `_expand_with_semantic_log`,
   * `_expand_with_synonyms` and `_expand_with_rewriting`: each offers its
   * candidates to the shared list, stopping once the budget is reached.
   */
  method AppendNew(current: seq<string>, cands: seq<string>, maxVariants: int) returns (r: seq<string>)
    ensures r == Absorb(current, cands, maxVariants)
  {
    r := current;
    if |r| >= maxVariants {
      return;
    }
    var i := 0;
    while i < |cands|
      invariant 0 <= i <= |cands|
      invariant |r| < maxVariants
      invariant Absorb(r, cands[i..], maxVariants) == Absorb(current, cands, maxVariants)
    {
      assert cands[i..][0] == cands[i] && cands[i..][1..] == cands[i + 1..];
      if cands[i] !in r {
        r := r + [cands[i]];
        if |r| >= maxVariants {
          return;
        }
      }
      i := i + 1;
    }
  }

  /**
   * The synonym variants of one keyword: each synonym, lower-cased,
   * replaces the whole-word occurrences of the keyword in the normalised
   * query; a variant equal to that query is dropped.
   */
  function KeywordVariants(ql: string, keyword: string, synonyms: seq<string>): (r: seq<string>)
    requires |keyword| > 0
    ensures forall v :: v in r ==> v != ql
    decreases |synonyms|
  {
    if synonyms == [] then []
    else
      var expanded := ReplaceWholeWord(ql, keyword, Lower(synonyms[0]));
      (if expanded != ql then [expanded] else []) + KeywordVariants(ql, keyword, synonyms[1..])
  }

  /** A keyword with no whole-word occurrence in the query (say, inside a longer word) yields no variant. */
  lemma {:induction false} KeywordVariantsAbsent(ql: string, keyword: string, synonyms: seq<string>)
    requires |keyword| > 0
    requires forall j :: 0 <= j < |ql| ==> !WholeWordAt(ql, keyword, j)
    ensures KeywordVariants(ql, keyword, synonyms) == []
    decreases |synonyms|
  {
    if synonyms != [] {
      ReplaceWordAbsent(ql, keyword, Lower(synonyms[0]), 0);
      KeywordVariantsAbsent(ql, keyword, synonyms[1..]);
    }
  }

  /**
   * The candidates of `_expand_with_synonyms`, in the order its nested loops
   * produce them: for each keyword outside the blacklist, its synonym
   * variants.
   */
  function SynonymVariants(ql: string, keywords: seq<string>, synonyms: string -> seq<string>, blacklist: set<string>)
    : (r: seq<string>)
    requires forall k :: k in keywords ==> |k| > 0
    ensures forall v :: v in r ==> v != ql
    decreases |keywords|
  {
    if keywords == [] then []
    else
      assert keywords[0] in keywords;
      (if Lower(keywords[0]) in blacklist then [] else KeywordVariants(ql, keywords[0], synonyms(keywords[0])))
      + SynonymVariants(ql, keywords[1..], synonyms, blacklist)
  }

  /** When every keyword is blacklisted, synonyms contribute nothing. */
  lemma {:induction false} BlacklistedKeywordsYieldNothing(
    ql: string, keywords: seq<string>, synonyms: string -> seq<string>, blacklist: set<string>)
    requires forall k :: k in keywords ==> |k| > 0 && Lower(k) in blacklist
    ensures SynonymVariants(ql, keywords, synonyms, blacklist) == []
    decreases |keywords|
  {
    if keywords != [] {
      assert keywords[0] in keywords;
      BlacklistedKeywordsYieldNothing(ql, keywords[1..], synonyms, blacklist);
    }
  }
  /**
   * With the synonyms manager's blacklist, a query whose keywords are all
   * tool or product names gets no synonym variant.
   */
  lemma ToolNamesNotExpanded(ql: string, keywords: seq<string>, synonyms: string -> seq<string>)
    requires forall k :: k in keywords ==> |k| > 0 && Lower(k) in Synonyms.TermBlacklist
    ensures SynonymVariants(ql, keywords, synonyms, Synonyms.TermBlacklist) == []
  {
    BlacklistedKeywordsYieldNothing(ql, keywords, synonyms, Synonyms.TermBlacklist);
  }


  /** The (at most three) keywords whose synonyms are tried: the first three of `extract_keywords(query)`. */
  function SynonymKeywords(query: string): (r: seq<string>)
    ensures forall k :: k in r ==> |k| > 0
  {
    var kws := AdvancedSearch.ExtractKeywords(query, 3);
    assert forall k :: k in Take(kws, 3) ==> k in kws;
    Take(kws, 3)
  }

  /** `query.replace('1С', '1C').replace('1с', '1c')`: Cyrillic "1С"/"1с" written with a Latin C. */
  function NormalizeOneC(query: string): string {
    Replace(Replace(query, "1\U{421}", "1C"), "1\U{441}", "1c")
  }

  predicate MentionsOneC(query: string) {
    var ql := Lower(query);
    Contains(ql, "1\U{441}") || Contains(ql, "1c") || Contains(ql, "конфигурация")
  }

  /** The sources of one expansion: the related logged queries, a synonym lookup, the rewriter's variants. */
  datatype Sources = Sources(related: seq<string>, synonyms: string -> seq<string>, blacklist: set<string>, rewrites: seq<string>)

  /** The list after the three sources have been offered: the query first. */
  function Sourced(query: string, src: Sources): (r: seq<string>)
    ensures r != [] && r[0] == query
  {
    var budget := MaxVariants(query);
    var q1 := Absorb([query], src.related, budget);
    var syn := SynonymVariants(Strip(Lower(query)), SynonymKeywords(query), src.synonyms, src.blacklist);
    var q2 := Absorb(q1, syn, budget);
    AbsorbKeepsHead([query], src.related, budget);
    AbsorbKeepsHead(q1, syn, budget);
    AbsorbKeepsHead(q2, Drop(src.rewrites, 1), budget);
    Absorb(q2, Drop(src.rewrites, 1), budget)
  }

  /** The keywords of the query joined by spaces, when there are at least two. */
  function CleanQuery(query: string): Option<string> {
    var keywords := AdvancedSearch.ExtractKeywords(query, 3);
    if |keywords| >= 2 then Some(Join(" ", keywords)) else None
  }

  /** Appends the query with the space key, for a short query and a non-empty space (even when present). */
  function AppendSpaced(qs: seq<string>, query: string, space: string): (r: seq<string>)
    ensures qs != [] ==> r != [] && r[0] == qs[0]
    ensures forall x :: x in r ==> x in qs || x == query + " " + space
  {
    if space != "" && |Split(Lower(query))| <= 5 then qs + [query + " " + space] else qs
  }

  /** The 1C-normalised query, when the query mentions 1C and normalising changes it. */
  function OneCQuery(query: string): Option<string> {
    if MentionsOneC(query) && NormalizeOneC(query) != query then Some(NormalizeOneC(query)) else None
  }

  function AppendAbsent(qs: seq<string>, v: Option<string>): (r: seq<string>)
    ensures qs != [] ==> r != [] && r[0] == qs[0]
    ensures forall x :: x in r ==> x in qs || v == Some(x)
  {
    if v.Some? && v.value !in qs then qs + [v.value] else qs
  }

  /**
   * The list `expand_query` builds before its final de-duplication: the
   * query, the variants of the three sources, then the cleaned keyword
   * query, the query with the space appended (not checked for presence) and
   * the 1C-normalised query.
   */
  function Candidates(query: string, space: string, src: Sources): (r: seq<string>)
    ensures r != [] && r[0] == query
  {
    var q4 := AppendAbsent(Sourced(query, src), CleanQuery(query));
    AppendAbsent(AppendSpaced(q4, query, space), OneCQuery(query))
  }

  /** Every entry after the sources is the query, a related query, a synonym variant or a rewriter variant. */
  lemma SourcedOrigin(query: string, src: Sources, x: string)
    requires x in Sourced(query, src)
    ensures x == query || x in src.related
            || x in SynonymVariants(Strip(Lower(query)), SynonymKeywords(query), src.synonyms, src.blacklist)
            || x in Drop(src.rewrites, 1)
  {
    var budget := MaxVariants(query);
    var q1 := Absorb([query], src.related, budget);
    var syn := SynonymVariants(Strip(Lower(query)), SynonymKeywords(query), src.synonyms, src.blacklist);
    var q2 := Absorb(q1, syn, budget);
    AbsorbFacts([query], src.related, budget);
    AbsorbFacts(q1, syn, budget);
    AbsorbFacts(q2, Drop(src.rewrites, 1), budget);
  }

  /**
   * Every candidate is the query itself, a related logged query, a synonym
   * variant, a rewriter variant other than the first, the cleaned keyword
   * query, the query with the space appended, or the 1C-normalised query.
   */
  lemma CandidatesOrigin(query: string, space: string, src: Sources, x: string)
    requires x in Candidates(query, space, src)
    ensures x == query || x in src.related
            || x in SynonymVariants(Strip(Lower(query)), SynonymKeywords(query), src.synonyms, src.blacklist)
            || x in Drop(src.rewrites, 1) || CleanQuery(query) == Some(x)
            || x == query + " " + space || OneCQuery(query) == Some(x)
  {
    var q3 := Sourced(query, src);
    var q4 := AppendAbsent(q3, CleanQuery(query));
    var q5 := AppendSpaced(q4, query, space);
    if x in q3 {
      SourcedOrigin(query, src, x);
    }
  }

  /** The final `list(dict.fromkeys(queries))[:budget]` keeps the head and drops repeats. */
  lemma TakeDedupFacts(c: seq<string>, budget: int)
    requires c != [] && budget >= 1
    ensures var r := Take(Dedup(c), budget);
            Distinct(r) && 1 <= |r| <= budget && r[0] == c[0] && forall x :: x in r ==> x in c
  {
    DedupProperties(c);
    var r := Take(Dedup(c), budget);
    DistinctPrefix(Dedup(c), |r|);
    forall x | x in r ensures x in c {
      var i :| 0 <= i < |r| && r[i] == x;
      assert Dedup(c)[i] == x;
    }
  }

  /** The three source helpers applied in turn to `[query]`. */
  method ExpandFromSources(query: string, src: Sources) returns (queries: seq<string>)
    ensures queries == Sourced(query, src)
  {
    var budget := MaxVariants(query);
    queries := AppendNew([query], src.related, budget);
    var ql := Strip(Lower(query));
    queries := AppendNew(queries, SynonymVariants(ql, SynonymKeywords(query), src.synonyms, src.blacklist), budget);
    queries := AppendNew(queries, Drop(src.rewrites, 1), budget);
  }

  /**
   * `expand_query`: a duplicate-free list of variants headed by the query
   * itself, within the variant budget, drawn only from the candidates.
   */
  method ExpandQuery(query: string, space: string, src: Sources) returns (result: seq<string>)
    ensures result == Take(Dedup(Candidates(query, space, src)), MaxVariants(query))
    ensures Distinct(result)
    ensures 1 <= |result| <= MaxVariants(query) && result[0] == query
    ensures forall x :: x in result ==> x in Candidates(query, space, src)
  {
    var queries := ExpandFromSources(query, src);
    var clean := CleanQuery(query);
    if clean.Some? && clean.value !in queries {
      queries := queries + [clean.value];
    }
    ghost var q4 := queries;
    if space != "" && |Split(Lower(query))| <= 5 {
      queries := queries + [query + " " + space];
    }
    assert queries == AppendSpaced(q4, query, space);
    var normalized := OneCQuery(query);
    if normalized.Some? && normalized.value !in queries {
      queries := queries + [normalized.value];
    }
    TakeDedupFacts(queries, MaxVariants(query));
    result := Take(Dedup(queries), MaxVariants(query));
  }
}
