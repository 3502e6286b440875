/**
 * The search tool's policy decisions: the rule-based intent of a query,
 * the per-page cap of the diversity filter and the filter itself, and the
 * validation and clamping of the tool's parameters.
 */
module SearchPolicy {
  import opened Wrappers
  import opened Text
  import opened Seqs
  import opened Records
  import opened HybridSearch

  // ---------------------------------------------------------------------
  // classify_query_intent
  // ---------------------------------------------------------------------

  /** The whole-word alternatives of each intent's regular expression. */
  function IntentWords(intent: Intent): seq<string> {
    match intent
    case Navigational => ["где", "найди", "покажи", "страница", "документ"]
    case Howto => ["как", "инструкция", "настроить", "установить", "запустить", "сделать"]
    case Factual => ["какой", "какая", "какие", "что", "когда", "кто", "сколько"]
    case Exploratory => []
  }

  /** The dictionary `classify_query_intent` returns. */
  datatype QueryIntent = QueryIntent(intent: Intent, boostHierarchy: bool, expandContext: bool, diversity: nat)

  /** The strategy attached to each intent. */
  function StrategyOf(intent: Intent): QueryIntent {
    match intent
    case Navigational => QueryIntent(Navigational, true, false, 1)
    case Howto => QueryIntent(Howto, false, true, 3)
    case Factual => QueryIntent(Factual, false, true, 3)
    case Exploratory => QueryIntent(Exploratory, false, true, 2)
  }

  /**
   * The first intent, in the order navigational, howto, factual, one of
   * whose words occurs as a whole word in the lower-cased query;
   * exploratory when none does.
   */
  function ClassifyQueryIntent(query: string): (r: QueryIntent)
    ensures r == StrategyOf(r.intent)
    ensures r.intent != Exploratory ==> HasAnyWholeWord(Lower(query), IntentWords(r.intent))
    ensures forall i: Intent :: Priority(i) < Priority(r.intent) ==> !HasAnyWholeWord(Lower(query), IntentWords(i))
    ensures r.intent == Exploratory ==>
              forall i: Intent :: !HasAnyWholeWord(Lower(query), IntentWords(i))
  {
    var q := Lower(query);
    if HasAnyWholeWord(q, IntentWords(Navigational)) then StrategyOf(Navigational)
    else if HasAnyWholeWord(q, IntentWords(Howto)) then StrategyOf(Howto)
    else if HasAnyWholeWord(q, IntentWords(Factual)) then StrategyOf(Factual)
    else StrategyOf(Exploratory)
  }

  /** Only navigational queries boost the hierarchy, and only they skip context expansion. */
  lemma StrategyFlags(query: string)
    ensures var r := ClassifyQueryIntent(query);
            (r.boostHierarchy <==> r.intent == Navigational)
            && (r.expandContext <==> r.intent != Navigational)
            && 1 <= r.diversity <= 3
  {
  }

  /** Classification ignores case: a query and its lower-cased form get the same intent. */
  lemma ClassifyIgnoresCase(query: string)
    ensures ClassifyQueryIntent(Lower(query)) == ClassifyQueryIntent(query)
  {
    LowerIdempotent(query);
  }

  // ---------------------------------------------------------------------
  // get_diversity_limit_for_intent and _resolve_diversity_limit
  // ---------------------------------------------------------------------

  /** The intent's name, as the dictionaries key it. */
  function IntentName(intent: Intent): string {
    match intent
    case Navigational => "navigational"
    case Howto => "howto"
    case Factual => "factual"
    case Exploratory => "exploratory"
  }

  /** The intent a name denotes, if it is one of the four names exactly. */
  function IntentOfName(name: string): (r: Option<Intent>)
    ensures r.Some? ==> IntentName(r.value) == name
    ensures forall i: Intent :: IntentName(i) == name ==> r == Some(i)
  {
    if name == "navigational" then Some(Navigational)
    else if name == "howto" then Some(Howto)
    else if name == "factual" then Some(Factual)
    else if name == "exploratory" then Some(Exploratory)
    else None
  }

  /** The per-intent caps read from `DIVERSITY_LIMIT_*` (defaults 1, 4, 2, 3). */
  datatype DiversityLimits = DiversityLimits(navigational: int, exploratory: int, factual: int, howto: int)

  const DefaultDiversityLimits: DiversityLimits := DiversityLimits(1, 4, 2, 3)

  function LimitOf(limits: DiversityLimits, intent: Intent): int {
    match intent
    case Navigational => limits.navigational
    case Exploratory => limits.exploratory
    case Factual => limits.factual
    case Howto => limits.howto
  }

  /** `ENABLE_DIVERSITY_FILTER`: on when unset, otherwise on exactly when it reads `true` in any case. */
  function FilterEnabled(env: Option<string>): (r: bool)
    ensures env.None? ==> r
    ensures env.Some? ==> (r <==> Lower(env.value) == "true")
  {
    env.None? || Lower(env.value) == "true"
  }

  /** The limit used when the filter is switched off: large enough to disable it. */
  const DisabledLimit: int := 999

  /**
   * `get_diversity_limit_for_intent`: 999 when the filter is off; otherwise
   * the cap of the named intent, where a missing, empty or unknown name
   * counts as factual.
   */
  function DiversityLimitForIntent(intentType: Option<string>, enabled: bool, limits: DiversityLimits): (r: int)
    ensures !enabled ==> r == DisabledLimit
    ensures enabled && intentType.Some? && IntentOfName(intentType.value).Some? ==>
              r == LimitOf(limits, IntentOfName(intentType.value).value)
    ensures enabled && (intentType.None? || IntentOfName(intentType.value).None?) ==> r == limits.factual
  {
    if !enabled then DisabledLimit
    else if intentType.None? || intentType.value == "" || IntentOfName(intentType.value).None? then limits.factual
    else LimitOf(limits, IntentOfName(intentType.value).value)
  }

  /** With the default caps every intent gets between one and four results per page. */
  lemma DefaultLimitsBounded(intentType: Option<string>)
    ensures 1 <= DiversityLimitForIntent(intentType, true, DefaultDiversityLimits) <= 4
  {
  }

  /** An unknown intent name is capped exactly like `factual`. */
  lemma UnknownIntentIsFactual(name: string, enabled: bool, limits: DiversityLimits)
    requires IntentOfName(name).None?
    ensures DiversityLimitForIntent(Some(name), enabled, limits)
         == DiversityLimitForIntent(Some("factual"), enabled, limits)
  {
  }

  /**
   * `_resolve_diversity_limit`. `intent` is `Some(t)` when a non-empty intent
   * dictionary was passed, `t` being its `type` entry; the query is
   * classified only when no such dictionary was passed.
   */
  function ResolveDiversityLimit(maxPerPage: Option<int>, query: string, intent: Option<Option<string>>,
                                 enabled: bool, limits: DiversityLimits): (r: int)
    ensures maxPerPage.Some? ==> r == maxPerPage.value
    ensures maxPerPage.None? && intent.Some? ==> r == DiversityLimitForIntent(intent.value, enabled, limits)
    ensures maxPerPage.None? && intent.None? && query != "" ==>
              r == DiversityLimitForIntent(Some(IntentName(ClassifyQueryIntent(query).intent)), enabled, limits)
    ensures maxPerPage.None? && intent.None? && query == "" ==> r == DiversityLimitForIntent(None, enabled, limits)
  {
    if maxPerPage.Some? then maxPerPage.value
    else
      var intentType :=
        if intent.Some? then intent.value
        else if query != "" then Some(IntentName(ClassifyQueryIntent(query).intent))
        else None;
      DiversityLimitForIntent(intentType, enabled, limits)
  }

  /** Without an explicit cap, a classified query gets its own intent's cap. */
  lemma ResolvedFromQuery(query: string, enabled: bool, limits: DiversityLimits)
    requires query != "" && enabled
    ensures ResolveDiversityLimit(None, query, None, enabled, limits)
         == LimitOf(limits, ClassifyQueryIntent(query).intent)
  {
    var i := ClassifyQueryIntent(query).intent;
    assert IntentOfName(IntentName(i)) == Some(i);
  }

  // ---------------------------------------------------------------------
  // apply_diversity_filter
  // ---------------------------------------------------------------------

  /**
   * A result the filter can use: it is a dictionary (`meta` gives `Some`)
   * whose metadata is a non-empty dictionary.
   */
  predicate Usable<T>(meta: T -> Option<Metadata>, x: T) {
    meta(x).Some? && meta(x).value != map[]
  }

  /** The page of a usable result; `""` when it has none. */
  function PageOf<T>(meta: T -> Option<Metadata>, x: T): string
    requires Usable(meta, x)
  {
    Get(meta(x).value, "page_id")
  }

  /** The number of usable results of `xs` on page `p` (`p == ""`: without a page). */
  function PageCount<T>(xs: seq<T>, meta: T -> Option<Metadata>, p: string): nat
    decreases |xs|
  {
    if xs == [] then 0
    else
      var x := xs[|xs| - 1];
      PageCount(xs[..|xs| - 1], meta, p) + (if Usable(meta, x) && PageOf(meta, x) == p then 1 else 0)
  }

  lemma PageCountSnoc<T>(xs: seq<T>, x: T, meta: T -> Option<Metadata>)
    ensures forall p :: PageCount(xs + [x], meta, p)
                     == PageCount(xs, meta, p) + (if Usable(meta, x) && PageOf(meta, x) == p then 1 else 0)
  {
    assert (xs + [x])[..|xs|] == xs;
  }

  /** `page_counts.get(p, 0)`. */
  function CountOf(counts: map<string, nat>, p: string): nat {
    if p in counts then counts[p] else 0
  }

  /**
   * What a selection under the diversity filter's caps guarantees: an
   * order-preserving selection of usable results; at most
   * `max(limitPerPage, 0)` results of any one page and none of the
   * page-less results dropped for it; at most `max(limit, 1)` results;
   * and, when the limit was not reached, every page holds as many results
   * as the input had, up to the cap. Which results are kept is fixed by
   * `Greedy` below.
   */
  ghost predicate DiverseSelection<T>(out: seq<T>, results: seq<T>, meta: T -> Option<Metadata>,
                                      limit: int, limitPerPage: int) {
    IsSubseq(out, results)
    && (forall i :: 0 <= i < |out| ==> Usable(meta, out[i]))
    && (forall p :: p != "" ==> PageCount(out, meta, p) <= Max(limitPerPage, 0))
    && |out| <= Max(limit, 1)
    && (|out| < limit ==>
          forall p :: PageCount(out, meta, p)
                   == if p == "" then PageCount(results, meta, p)
                      else Min(Max(limitPerPage, 0), PageCount(results, meta, p)))
  }

  /**
   * Whether the scan keeps `x` after keeping `kept`: `x` is usable and has
   * no page, or its page holds fewer than `limitPerPage` kept results.
   */
  predicate Admits<T>(kept: seq<T>, x: T, meta: T -> Option<Metadata>, limitPerPage: int) {
    Usable(meta, x) && (PageOf(meta, x) == "" || PageCount(kept, meta, PageOf(meta, x)) < limitPerPage)
  }

  /**
   * The results the scan keeps when no limit stops it: first come, first
   * kept, each admitted against the results kept before it.
   */
  function Greedy<T>(results: seq<T>, meta: T -> Option<Metadata>, limitPerPage: int): seq<T>
    decreases |results|
  {
    if results == [] then []
    else
      var kept := Greedy(results[..|results| - 1], meta, limitPerPage);
      var x := results[|results| - 1];
      if Admits(kept, x, meta, limitPerPage) then kept + [x] else kept
  }

  lemma GreedySnoc<T>(xs: seq<T>, x: T, meta: T -> Option<Metadata>, limitPerPage: int)
    ensures Greedy(xs + [x], meta, limitPerPage)
            == if Admits(Greedy(xs, meta, limitPerPage), x, meta, limitPerPage)
               then Greedy(xs, meta, limitPerPage) + [x] else Greedy(xs, meta, limitPerPage)
  {
    assert (xs + [x])[..|xs|] == xs;
  }

  /** What is kept from a prefix of the results is a prefix of what is kept from all of them. */
  lemma {:induction false} GreedyPrefix<T>(xs: seq<T>, j: nat, meta: T -> Option<Metadata>, limitPerPage: int)
    requires j <= |xs|
    ensures Greedy(xs[..j], meta, limitPerPage) <= Greedy(xs, meta, limitPerPage)
    decreases |xs| - j
  {
    if j < |xs| {
      var init := xs[..|xs| - 1];
      assert xs[..j] == init[..j];
      GreedyPrefix(init, j, meta, limitPerPage);
    } else {
      assert xs[..j] == xs;
    }
  }

  /** A prefix never has more results of a page than the whole. */
  lemma {:induction false} PageCountPrefix<T>(xs: seq<T>, k: nat, meta: T -> Option<Metadata>, p: string)
    requires k <= |xs|
    ensures PageCount(xs[..k], meta, p) <= PageCount(xs, meta, p)
    decreases |xs| - k
  {
    if k < |xs| {
      var init := xs[..|xs| - 1];
      assert xs[..k] == init[..k];
      PageCountPrefix(init, k, meta, p);
    } else {
      assert xs[..k] == xs;
    }
  }

  /**
   * What the greedy scan keeps: usable results, in input order, and every
   * page holds as many of them as the input has, up to the cap (all of the
   * page-less ones).
   */
  lemma {:induction false} GreedyFacts<T>(xs: seq<T>, meta: T -> Option<Metadata>, limitPerPage: int)
    ensures IsSubseq(Greedy(xs, meta, limitPerPage), xs)
    ensures forall i :: 0 <= i < |Greedy(xs, meta, limitPerPage)| ==> Usable(meta, Greedy(xs, meta, limitPerPage)[i])
    ensures forall p :: PageCount(Greedy(xs, meta, limitPerPage), meta, p)
                        == if p == "" then PageCount(xs, meta, p)
                           else Min(Max(limitPerPage, 0), PageCount(xs, meta, p))
    decreases |xs|
  {
    if xs == [] {
      assert Embeds([], xs, []);
    } else {
      var init := xs[..|xs| - 1];
      var x := xs[|xs| - 1];
      assert xs == init + [x];
      GreedyFacts(init, meta, limitPerPage);
      var g := Greedy(init, meta, limitPerPage);
      var idx :| Embeds(g, init, idx);
      EmbedsExtend(g, init, idx, x);
      PageCountSnoc(g, x, meta);
      PageCountSnoc(init, x, meta);
    }
  }

  /**
   * The greedy selection cut at `max(limit, 1)` results is a diverse
   * selection.
   */
  lemma GreedyDiverse<T>(results: seq<T>, meta: T -> Option<Metadata>, limit: int, limitPerPage: int)
    ensures DiverseSelection(Take(Greedy(results, meta, limitPerPage), Max(limit, 1)), results, meta, limit, limitPerPage)
  {
    var g := Greedy(results, meta, limitPerPage);
    var out := Take(g, Max(limit, 1));
    GreedyFacts(results, meta, limitPerPage);
    var idx :| Embeds(g, results, idx);
    assert Embeds(out, results, idx[..|out|]);
    forall p | p != "" ensures PageCount(out, meta, p) <= Max(limitPerPage, 0) {
      PageCountPrefix(g, |out|, meta, p);
    }
    if |out| < limit {
      assert out == g;
    }
  }

  /**
   * The filter's state after scanning `seen`: the kept results are usable,
   * `counts` counts them per page, no page exceeds the cap, and every page
   * holds as many of the seen results as the cap allows.
   */
  ghost predicate FilterState<T>(out: seq<T>, counts: map<string, nat>, seen: seq<T>,
                                 meta: T -> Option<Metadata>, limitPerPage: int) {
    (forall k :: 0 <= k < |out| ==> Usable(meta, out[k]))
    && (forall p :: p != "" ==> CountOf(counts, p) == PageCount(out, meta, p))
    && (forall p :: p != "" ==> PageCount(out, meta, p) <= Max(limitPerPage, 0))
    && (forall p :: PageCount(out, meta, p)
                  == if p == "" then PageCount(seen, meta, p)
                     else Min(Max(limitPerPage, 0), PageCount(seen, meta, p)))
  }

  /** Keeping a usable result without a page, or one whose page is below the cap. */
  lemma AdmitStep<T>(out: seq<T>, counts: map<string, nat>, seen: seq<T>, x: T,
                     meta: T -> Option<Metadata>, limitPerPage: int)
    requires FilterState(out, counts, seen, meta, limitPerPage)
    requires Usable(meta, x) && (PageOf(meta, x) == "" || CountOf(counts, PageOf(meta, x)) < limitPerPage)
    ensures FilterState(out + [x],
                        if PageOf(meta, x) == "" then counts
                        else counts[PageOf(meta, x) := CountOf(counts, PageOf(meta, x)) + 1],
                        seen + [x], meta, limitPerPage)
  {
    PageCountSnoc(out, x, meta);
    PageCountSnoc(seen, x, meta);
  }

  /** Passing over a result that is unusable or whose page is at the cap. */
  lemma SkipStep<T>(out: seq<T>, counts: map<string, nat>, seen: seq<T>, x: T,
                    meta: T -> Option<Metadata>, limitPerPage: int)
    requires FilterState(out, counts, seen, meta, limitPerPage)
    requires !Usable(meta, x) || (PageOf(meta, x) != "" && CountOf(counts, PageOf(meta, x)) >= limitPerPage)
    ensures FilterState(out, counts, seen + [x], meta, limitPerPage)
  {
    PageCountSnoc(seen, x, meta);
  }

  /**
   * The loop of `apply_diversity_filter` with the per-page cap resolved:
   * results are scanned in order; a usable one is kept when it has no page
   * or its page is below the cap; the scan stops as soon as `limit` results
   * are kept, checked after a result is kept, so a limit below one still
   * lets the first kept result through.
   */
  method FilterByPage<T>(results: seq<T>, meta: T -> Option<Metadata>, limit: int, limitPerPage: int)
    returns (out: seq<T>)
    ensures out == Take(Greedy(results, meta, limitPerPage), Max(limit, 1))
    ensures DiverseSelection(out, results, meta, limit, limitPerPage)
  {
    out := [];
    var counts: map<string, nat> := map[];
    ghost var idx: seq<nat> := [];
    var i := 0;
    var done := false;
    while i < |results| && !done
      invariant i <= |results| && ScanState(out, counts, idx, results[..i], meta, limitPerPage)
                && (if done then |out| == Max(limit, 1) else |out| < Max(limit, 1))
      invariant out == Greedy(results[..i], meta, limitPerPage)
    {
      var x := results[i];
      assert results[..i + 1] == results[..i] + [x];
      GreedySnoc(results[..i], x, meta, limitPerPage);
      var admitted;
      out, counts, admitted, idx := FilterStep(out, counts, idx, results[..i], x, meta, limitPerPage);
      done := admitted && |out| >= limit;
      i := i + 1;
    }
    GreedyPrefix(results, i, meta, limitPerPage);
    if !done {
      assert results[..i] == results;
    }
    GreedyDiverse(results, meta, limit, limitPerPage);
  }

  /** The scan's state: `idx` places the kept results among the seen ones, and `FilterState` holds. */
  ghost predicate ScanState<T>(out: seq<T>, counts: map<string, nat>, idx: seq<nat>, seen: seq<T>,
                               meta: T -> Option<Metadata>, limitPerPage: int) {
    Embeds(out, seen, idx) && FilterState(out, counts, seen, meta, limitPerPage)
  }

  /**
   * One result of the scan: kept, and counted against its page, when it is
   * usable and has no page or its page is below the cap; passed over
   * otherwise.
   */
  method FilterStep<T>(out: seq<T>, counts: map<string, nat>, ghost idx: seq<nat>, ghost seen: seq<T>, x: T,
                       meta: T -> Option<Metadata>, limitPerPage: int)
    returns (out': seq<T>, counts': map<string, nat>, admitted: bool, ghost idx': seq<nat>)
    requires ScanState(out, counts, idx, seen, meta, limitPerPage)
    ensures ScanState(out', counts', idx', seen + [x], meta, limitPerPage)
    ensures admitted <==> Usable(meta, x) && (PageOf(meta, x) == "" || CountOf(counts, PageOf(meta, x)) < limitPerPage)
    ensures out' == if admitted then out + [x] else out
  {
    EmbedsExtend(out, seen, idx, x);
    out', counts', admitted, idx' := out, counts, false, idx;
    if meta(x).Some? && meta(x).value != map[] {
      var pageId := Get(meta(x).value, "page_id");
      if pageId == "" || CountOf(counts, pageId) < limitPerPage {
        AdmitStep(out, counts, seen, x, meta, limitPerPage);
        out', admitted, idx' := out + [x], true, idx + [|seen|];
        if pageId != "" {
          counts' := counts[pageId := CountOf(counts, pageId) + 1];
        }
        return;
      }
    }
    SkipStep(out, counts, seen, x, meta, limitPerPage);
  }

  /** The environment of the filter: `ENABLE_DIVERSITY_FILTER` and the `DIVERSITY_LIMIT_*` caps. */
  datatype DiversityEnv = DiversityEnv(enableFilter: Option<string>, limits: DiversityLimits)

  /**
   * `apply_diversity_filter`: nothing for no results; otherwise the page
   * cap is resolved from `maxPerPage`, the intent or the query, and the
   * results are filtered with it: the first `max(limit, 1)` results the
   * greedy scan keeps.
   */
  method ApplyDiversityFilter<T>(results: seq<T>, meta: T -> Option<Metadata>, limit: int, maxPerPage: Option<int>,
                                 query: string, intent: Option<Option<string>>, env: DiversityEnv)
    returns (out: seq<T>)
    ensures results == [] ==> out == []
    ensures out == Take(Greedy(results, meta,
                               ResolveDiversityLimit(maxPerPage, query, intent, FilterEnabled(env.enableFilter), env.limits)),
                        Max(limit, 1))
    ensures DiverseSelection(out, results, meta, limit,
                             ResolveDiversityLimit(maxPerPage, query, intent, FilterEnabled(env.enableFilter), env.limits))
  {
    var limitPerPage := ResolveDiversityLimit(maxPerPage, query, intent, FilterEnabled(env.enableFilter), env.limits);
    if results == [] {
      out := [];
      assert Embeds(out, results, []);
      return;
    }
    out := FilterByPage(results, meta, limit, limitPerPage);
  }

  /**
   * With one result per page, a selection that stops short of the limit
   * holds one result of every page the input mentions.
   */
  lemma OnePerPage<T>(out: seq<T>, results: seq<T>, meta: T -> Option<Metadata>, limit: int, p: string)
    requires DiverseSelection(out, results, meta, limit, 1)
    requires p != "" && PageCount(results, meta, p) > 0 && |out| < limit
    ensures PageCount(out, meta, p) == 1
  {
  }

  // ---------------------------------------------------------------------
  // _validate_search_params and the search tool's clamping
  // ---------------------------------------------------------------------

  const EmptyQueryError: string := "❌ Ошибка: Пустой или некорректный запрос"
  const ShortQueryError: string := "❌ Ошибка: Запрос слишком короткий (минимум 2 символа)"
  const SpaceError: string := "❌ Ошибка: Параметр space содержит недопустимые символы"
  const NotReadyError: string := "❌ Ошибка: RAG система не инициализирована. Проверьте логи сервера."

  /** A character of the space-key class `[a-zA-Z0-9_-]`. */
  predicate IsSpaceKeyChar(c: char) {
    'a' <= c <= 'z' || 'A' <= c <= 'Z' || IsDigit(c) || c == '_' || c == '-'
  }

  /** `re.match(r'^[a-zA-Z0-9_-]+$', key)` on a stripped key. */
  predicate IsSpaceKey(key: string) {
    |key| > 0 && forall i :: 0 <= i < |key| ==> IsSpaceKeyChar(key[i])
  }

  /**
   * `_validate_search_params`: the first failing check, in the order
   * empty query, short query, bad space key, uninitialised store, names
   * the error; `ready` says whether the vector store client exists.
   */
  function ValidateSearchParams(query: string, space: string, ready: bool): (r: Result<(), string>)
    ensures r.Ok? <==> query != "" && |Strip(query)| >= 2 && (space == "" || IsSpaceKey(Strip(space))) && ready
    ensures r.Err? ==> r.error in {EmptyQueryError, ShortQueryError, SpaceError, NotReadyError}
    ensures query == "" ==> r == Err(EmptyQueryError)
    ensures query != "" && |Strip(query)| < 2 ==> r == Err(ShortQueryError)
  {
    if query == "" then Err(EmptyQueryError)
    else if |Strip(query)| < 2 then Err(ShortQueryError)
    else if space != "" && !IsSpaceKey(Strip(space)) then Err(SpaceError)
    else if !ready then Err(NotReadyError)
    else Ok(())
  }

  /** The longest query the tool searches with. */
  const MaxQueryLength: nat := 1000

  /** `min(max(limit, 1), 20)`. */
  function ClampLimit(limit: int): (r: int)
    ensures 1 <= r <= 20
    ensures 1 <= limit <= 20 ==> r == limit
    ensures limit < 1 ==> r == 1
    ensures limit > 20 ==> r == 20
  {
    Min(Max(limit, 1), 20)
  }

  /** `query[:1000]`. */
  function TruncateQuery(query: string): (r: string)
    ensures |r| == Min(|query|, MaxQueryLength) && StartsWith(query, r)
  {
    if |query| > MaxQueryLength then query[..MaxQueryLength] else query
  }

  /** A validated request: the query, the clamped limit and the stripped space key. */
  datatype SearchRequest = SearchRequest(query: string, limit: int, space: string)

  /**
   * The first steps of `confluence_semantic_search` after the space is
   * extracted: strip the query, validate, cut the query to 1000
   * characters, clamp the limit and strip the space.
   */
  function PrepareSearch(query: string, limit: int, space: string, ready: bool): (r: Result<SearchRequest, string>)
    ensures r.Ok? <==> ValidateSearchParams(Strip(query), space, ready).Ok?
    ensures r.Ok? ==>
              2 <= |r.value.query| <= MaxQueryLength
              && StartsWith(Strip(query), r.value.query)
              && 1 <= r.value.limit <= 20
              && (r.value.space == "" || IsSpaceKey(r.value.space))
  {
    var q := Strip(query);
    StripFacts(query);
    var v := ValidateSearchParams(q, space, ready);
    if v.Err? then Err(v.error)
    else
      assert |Strip(q)| >= 2 && (space == "" || IsSpaceKey(Strip(space)));
      Ok(SearchRequest(TruncateQuery(q), ClampLimit(limit), if space != "" then Strip(space) else space))
  }
}
