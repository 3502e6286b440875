/**
 * Query rewriting with provider fallback and a time-limited cache
 * (`rag_server/query_rewriter.py`). The two language-model providers are
 * replaced by their replies, which are parameters; the module's global
 * cache and counters are the fields of one `Rewriter` object; the clock
 * and the cache lifetime are parameters.
 */
module QueryRewriter {
  import opened Wrappers
  import opened Text
  import opened Seqs

  // ---------------------------------------------------------------------
  // Parsing a provider's reply
  // ---------------------------------------------------------------------

  /** The characters `lstrip('0123456789.-) ')` removes. */
  predicate IsNumbering(c: char) {
    IsDigit(c) || c == '.' || c == '-' || c == ')' || c == ' '
  }

  /** `s.lstrip('0123456789.-) ')`. */
  function LStripNumbering(s: string): string {
    if s != [] && IsNumbering(s[0]) then LStripNumbering(s[1..]) else s
  }

  /** Stripping the numbering leaves a suffix that does not start with numbering, and removes only numbering. */
  lemma {:induction false} LStripNumberingFacts(s: string)
    ensures var r := LStripNumbering(s);
            |r| <= |s| && r == s[|s| - |r|..]
            && (r != [] ==> !IsNumbering(r[0]))
            && forall i :: 0 <= i < |s| - |r| ==> IsNumbering(s[i])
    decreases |s|
  {
    if s != [] && IsNumbering(s[0]) {
      LStripNumberingFacts(s[1..]);
    }
  }

  /** A reply line with its surrounding blanks and its leading numbering removed. */
  function CleanLine(line: string): string {
    LStripNumbering(Strip(line))
  }

  /** A cleaned line is a usable variant when it is longer than five characters. */
  predicate Usable(line: string) {
    |line| > 5
  }

  /** The variant list built from the cleaned lines: the query, then each new usable line. */
  function Collect(query: string, cleaned: seq<string>): (v: seq<string>)
    ensures |v| >= 1 && v[0] == query
  {
    if cleaned == [] then [query]
    else
      var v := Collect(query, cleaned[..|cleaned| - 1]);
      var c := cleaned[|cleaned| - 1];
      if Usable(c) && c !in v then v + [c] else v
  }

  /** One more cleaned line extends the variant list by it when it is usable and new. */
  lemma CollectStep(query: string, cleaned: seq<string>, i: nat)
    requires i < |cleaned|
    ensures Collect(query, cleaned[..i + 1])
            == if Usable(cleaned[i]) && cleaned[i] !in Collect(query, cleaned[..i])
               then Collect(query, cleaned[..i]) + [cleaned[i]] else Collect(query, cleaned[..i])
  {
    assert cleaned[..i + 1][..i] == cleaned[..i];
  }

  function CleanLines(lines: seq<string>): (r: seq<string>)
    ensures |r| == |lines| && forall i :: 0 <= i < |lines| ==> r[i] == CleanLine(lines[i])
  {
    seq(|lines|, i requires 0 <= i < |lines| => CleanLine(lines[i]))
  }

  /** The lines of a reply: `text.strip().split('\n')`. */
  function ReplyLines(text: string): seq<string> {
    SplitOn(Strip(text), "\n")
  }

  /** What a provider returns for a reply: `variants[:3]`. */
  function Variants(query: string, text: string): seq<string> {
    Take(Collect(query, CleanLines(ReplyLines(text))), 3)
  }

  /**
   * The collected variants start with the query, never repeat, and every
   * other variant is a usable line.
   */
  lemma {:induction false} CollectFacts(query: string, cleaned: seq<string>)
    ensures var v := Collect(query, cleaned);
            Distinct(v) && forall i :: 1 <= i < |v| ==> Usable(v[i]) && v[i] in cleaned
    decreases |cleaned|
  {
    if cleaned != [] {
      CollectFacts(query, cleaned[..|cleaned| - 1]);
    }
  }

  /**
   * A provider's variants: the query first, at most three, no repeats, and
   * the others usable cleaned lines of its reply.
   */
  lemma VariantsFacts(query: string, text: string)
    ensures var v := Variants(query, text);
            1 <= |v| <= 3 && v[0] == query && Distinct(v)
            && forall i :: 1 <= i < |v| ==> Usable(v[i]) && v[i] in CleanLines(ReplyLines(text))
  {
    var cleaned := CleanLines(ReplyLines(text));
    var all := Collect(query, cleaned);
    CollectFacts(query, cleaned);
    DistinctPrefix(all, |Variants(query, text)|);
  }

  /** The shape of a provider's variants: the query first, at most three, no repeats. */
  lemma VariantsShape(query: string, text: string)
    ensures 1 <= |Variants(query, text)| <= 3 && Variants(query, text)[0] == query && Distinct(Variants(query, text))
  {
    VariantsFacts(query, text);
  }

  // ---------------------------------------------------------------------
  // Providers and the adaptive choice
  // ---------------------------------------------------------------------

  /**
   * A provider call: switched off or not configured (no counter moves), a
   * failure (bad status, timeout, connection error or exception), or a
   * reply text.
   */
  datatype Reply = Disabled | Failed | Answered(text: string)

  /** `_rewrite_stats`. */
  datatype Stats = Stats(totalRequests: nat, cacheHits: nat, ollamaSuccess: nat, ollamaFailed: nat,
                         openrouterSuccess: nat, openrouterFailed: nat, noRewriting: nat)

  const ZeroStats: Stats := Stats(0, 0, 0, 0, 0, 0, 0)

  /** What a provider function returns: its variants on a reply, `None` otherwise. */
  function ProviderVariants(query: string, reply: Reply): Option<seq<string>> {
    if reply.Answered? then Some(Variants(query, reply.text)) else None
  }

  function OllamaStats(s: Stats, reply: Reply): Stats {
    match reply
    case Disabled => s
    case Failed => s.(ollamaFailed := s.ollamaFailed + 1)
    case Answered(_) => s.(ollamaSuccess := s.ollamaSuccess + 1)
  }

  function OpenRouterStats(s: Stats, reply: Reply): Stats {
    match reply
    case Disabled => s
    case Failed => s.(openrouterFailed := s.openrouterFailed + 1)
    case Answered(_) => s.(openrouterSuccess := s.openrouterSuccess + 1)
  }

  /** Which providers a lower-cased `QUERY_REWRITING_SOURCE` selects; "" is the legacy order. */
  datatype Choice = OpenRouterOnly | OllamaOnly | Legacy | Unknown

  function Choose(src: string): (c: Choice)
    ensures c == Unknown <==> !KnownSource(src)
  {
    if src == "openrouter" then OpenRouterOnly
    else if src == "ollama" then OllamaOnly
    else if src == "" then Legacy
    else Unknown
  }

  /** The source names `QUERY_REWRITING_SOURCE` accepts, lower-cased. */
  predicate KnownSource(source: string) {
    source == "openrouter" || source == "ollama" || source == ""
  }

  /** What `rewrite_query_adaptive` returns, or the `ValueError` it raises. */
  function AdaptiveResult(query: string, source: string, ollama: Reply, openrouter: Reply): Result<seq<string>, string> {
    AdaptiveChoice(query, source, ProviderVariants(query, ollama), ProviderVariants(query, openrouter))
  }

  /** The same, from what each provider function returned. */
  function AdaptiveChoice(query: string, source: string, fromOllama: Option<seq<string>>, fromOpenRouter: Option<seq<string>>)
    : Result<seq<string>, string>
  {
    match Choose(Lower(source))
    case OpenRouterOnly => Ok(if fromOpenRouter.Some? then fromOpenRouter.value else [query])
    case OllamaOnly => Ok(if fromOllama.Some? then fromOllama.value else [query])
    case Legacy =>
      Ok(if fromOllama.Some? then fromOllama.value else if fromOpenRouter.Some? then fromOpenRouter.value else [query])
    case Unknown => Err("Unknown QUERY_REWRITING_SOURCE: " + Lower(source))
  }

  /** One more `no_rewriting` fallback. */
  function Fallback(s: Stats): Stats {
    s.(noRewriting := s.noRewriting + 1)
  }

  /** The counters after `rewrite_query_adaptive`: one request, then the providers it called. */
  function AdaptiveStats(s: Stats, source: string, ollama: Reply, openrouter: Reply): Stats {
    var s1 := s.(totalRequests := s.totalRequests + 1);
    match Choose(Lower(source))
    case OpenRouterOnly =>
      if openrouter.Answered? then OpenRouterStats(s1, openrouter) else Fallback(OpenRouterStats(s1, openrouter))
    case OllamaOnly =>
      if ollama.Answered? then OllamaStats(s1, ollama) else Fallback(OllamaStats(s1, ollama))
    case Legacy =>
      if ollama.Answered? then OllamaStats(s1, ollama)
      else if openrouter.Answered? then OpenRouterStats(OllamaStats(s1, ollama), openrouter)
      else Fallback(OpenRouterStats(OllamaStats(s1, ollama), openrouter))
    case Unknown => s1
  }

  /** A variant list as the providers return it: the query first, at most three, no repeats. */
  predicate Shaped(query: string, v: seq<string>) {
    1 <= |v| <= 3 && v[0] == query && Distinct(v)
  }

  /** A provider function returns a variant list exactly when its provider answered. */
  lemma ProviderShape(query: string, reply: Reply)
    ensures ProviderVariants(query, reply).Some? <==> reply.Answered?
    ensures ProviderVariants(query, reply).Some? ==> Shaped(query, ProviderVariants(query, reply).value)
  {
    if reply.Answered? {
      VariantsShape(query, reply.text);
    }
  }

  /**
   * Whatever the providers returned, the choice fails exactly for an
   * unknown source, keeps the shape of their lists, and falls back to the
   * bare query when none returned one.
   */
  lemma ChoiceFacts(query: string, source: string, fromOllama: Option<seq<string>>, fromOpenRouter: Option<seq<string>>)
    requires fromOllama.Some? ==> Shaped(query, fromOllama.value)
    requires fromOpenRouter.Some? ==> Shaped(query, fromOpenRouter.value)
    ensures AdaptiveChoice(query, source, fromOllama, fromOpenRouter).Err? <==> !KnownSource(Lower(source))
    ensures AdaptiveChoice(query, source, fromOllama, fromOpenRouter).Ok? ==>
              Shaped(query, AdaptiveChoice(query, source, fromOllama, fromOpenRouter).value)
    ensures AdaptiveChoice(query, source, fromOllama, fromOpenRouter).Ok? && fromOllama.None? && fromOpenRouter.None? ==>
              AdaptiveChoice(query, source, fromOllama, fromOpenRouter).value == [query]
  {
    assert Shaped(query, [query]);
  }

  /** Every call counts one request and no hit; a known source with no provider answering counts one fallback. */
  lemma StatsFacts(s: Stats, source: string, ollama: Reply, openrouter: Reply)
    ensures AdaptiveStats(s, source, ollama, openrouter).totalRequests == s.totalRequests + 1
    ensures AdaptiveStats(s, source, ollama, openrouter).cacheHits == s.cacheHits
    ensures KnownSource(Lower(source)) && !ollama.Answered? && !openrouter.Answered? ==>
              AdaptiveStats(s, source, ollama, openrouter).noRewriting == s.noRewriting + 1
  {
  }

  /**
   * Adaptive rewriting fails exactly for an unknown source; otherwise it
   * returns the query first, at most three variants, no repeats, and just
   * the query when no provider it tried answered. Every call counts one
   * request, and a fallback to the bare query counts one `no_rewriting`.
   */
  lemma AdaptiveFacts(query: string, source: string, ollama: Reply, openrouter: Reply, s: Stats)
    ensures AdaptiveResult(query, source, ollama, openrouter).Err? <==> !KnownSource(Lower(source))
    ensures AdaptiveStats(s, source, ollama, openrouter).totalRequests == s.totalRequests + 1
    ensures AdaptiveStats(s, source, ollama, openrouter).cacheHits == s.cacheHits
    ensures AdaptiveResult(query, source, ollama, openrouter).Ok? ==>
              Shaped(query, AdaptiveResult(query, source, ollama, openrouter).value)
    ensures AdaptiveResult(query, source, ollama, openrouter).Ok? && !ollama.Answered? && !openrouter.Answered? ==>
              AdaptiveResult(query, source, ollama, openrouter).value == [query]
                  && AdaptiveStats(s, source, ollama, openrouter).noRewriting == s.noRewriting + 1
  {
    ProviderShape(query, ollama);
    ProviderShape(query, openrouter);
    ChoiceFacts(query, source, ProviderVariants(query, ollama), ProviderVariants(query, openrouter));
    StatsFacts(s, source, ollama, openrouter);
  }

  /** `get_rewriter_stats()['cache_hit_rate']` before formatting: hits per adaptive request, in percent. */
  function HitRate(s: Stats): real {
    (s.cacheHits as real) / (Max(s.totalRequests, 1) as real) * 100.0
  }

  /**
   * The share of cached calls answered from the cache, in percent: hits
   * over all cached calls, which are the hits plus the adaptive requests
   * the misses made.
   */
  function CachedHitRate(s: Stats): (r: real)
    ensures 0.0 <= r <= 100.0
    ensures s.cacheHits == 0 ==> r == 0.0
  {
    var calls := s.cacheHits + s.totalRequests;
    if calls == 0 then 0.0 else ShareBound(s.cacheHits, calls); (s.cacheHits as real) / (calls as real) * 100.0
  }

  lemma ShareBound(part: nat, whole: nat)
    requires 0 < whole && part <= whole
    ensures 0.0 <= (part as real) / (whole as real) <= 1.0
  {
  }

  // ---------------------------------------------------------------------
  // The cache and the counters
  // ---------------------------------------------------------------------

  /** A cached rewrite: the variants and when they were stored. */
  datatype CacheEntry = CacheEntry(result: seq<string>, timestamp: real)

  /** A cached entry still answers at `now` while it is younger than the lifetime. */
  predicate IsFresh(cache: map<string, CacheEntry>, query: string, now: real, ttl: real) {
    query in cache && now - cache[query].timestamp < ttl
  }

  /** What a lookup of `query` at `now` answers from the cache, if anything. */
  function Lookup(cache: map<string, CacheEntry>, query: string, now: real, ttl: real): Option<seq<string>> {
    if IsFresh(cache, query, now, ttl) then Some(cache[query].result) else None
  }

  /**
   * A rewrite stored at `now` answers every later lookup of the same query
   * made less than `ttl` later, and storing it does not change what any
   * other query's lookup answers.
   */
  lemma StoredAnswers(cache: map<string, CacheEntry>, query: string, v: seq<string>, now: real, later: real, ttl: real, other: string)
    requires later - now < ttl
    requires other != query
    ensures Lookup(cache[query := CacheEntry(v, now)], query, later, ttl) == Some(v)
    ensures Lookup(cache[query := CacheEntry(v, now)], other, later, ttl) == Lookup(cache, other, later, ttl)
  {
  }

  /** The module's cache and counters. */
  class Rewriter {
    var cache: map<string, CacheEntry>
    var stats: Stats

    constructor ()
      ensures cache == map[] && stats == ZeroStats
    {
      cache := map[];
      stats := ZeroStats;
    }

    /** The parsing loop both provider functions share. */
    static method ParseReply(query: string, text: string) returns (variants: seq<string>)
      ensures variants == Variants(query, text)
    {
      var lines := ReplyLines(text);
      ghost var cleaned := CleanLines(lines);
      var collected := [query];
      var i := 0;
      while i < |lines|
        invariant 0 <= i <= |lines|
        invariant collected == Collect(query, cleaned[..i])
      {
        var line := CleanLine(lines[i]);
        assert line == cleaned[i];
        CollectStep(query, cleaned, i);
        // A non-empty line longer than five characters, not yet listed.
        if Usable(line) && line !in collected {
          collected := collected + [line];
        }
        i := i + 1;
      }
      assert cleaned[..i] == cleaned;
      variants := Take(collected, 3);
    }

    /** `rewrite_query_with_ollama`. */
    method RewriteWithOllama(query: string, reply: Reply) returns (r: Option<seq<string>>)
      modifies this
      ensures r == ProviderVariants(query, reply) && (r.Some? <==> reply.Answered?)
      ensures stats == OllamaStats(old(stats), reply) && cache == old(cache)
    {
      match reply {
        case Disabled =>
          r := None;
        case Failed =>
          stats := stats.(ollamaFailed := stats.ollamaFailed + 1);
          r := None;
        case Answered(text) =>
          var variants := ParseReply(query, text);
          stats := stats.(ollamaSuccess := stats.ollamaSuccess + 1);
          r := Some(variants);
      }
    }

    /** `rewrite_query_with_openrouter`; the examples only shape the prompt, which is not modelled. */
    method RewriteWithOpenRouter(query: string, reply: Reply) returns (r: Option<seq<string>>)
      modifies this
      ensures r == ProviderVariants(query, reply) && (r.Some? <==> reply.Answered?)
      ensures stats == OpenRouterStats(old(stats), reply) && cache == old(cache)
    {
      match reply {
        case Disabled =>
          r := None;
        case Failed =>
          stats := stats.(openrouterFailed := stats.openrouterFailed + 1);
          r := None;
        case Answered(text) =>
          var variants := ParseReply(query, text);
          stats := stats.(openrouterSuccess := stats.openrouterSuccess + 1);
          r := Some(variants);
      }
    }

    /** `rewrite_query_adaptive`: the source (lower-cased) picks the providers and their order. */
    method RewriteAdaptive(query: string, source: string, ollama: Reply, openrouter: Reply) returns (r: Result<seq<string>, string>)
      modifies this
      ensures r == AdaptiveResult(query, source, ollama, openrouter)
      ensures stats == AdaptiveStats(old(stats), source, ollama, openrouter) && cache == old(cache)
    {
      stats := stats.(totalRequests := stats.totalRequests + 1);
      var src := Lower(source);
      match Choose(src) {
        case OpenRouterOnly =>
          var v := RewriteOrFallback(query, openrouter, false);
          r := Ok(v);
        case OllamaOnly =>
          var v := RewriteOrFallback(query, ollama, true);
          r := Ok(v);
        case Legacy =>
          var v := RewriteLegacy(query, ollama, openrouter);
          r := Ok(v);
        case Unknown =>
          r := Err("Unknown QUERY_REWRITING_SOURCE: " + src);
      }
    }

    /** One provider, then the bare query (counted as a fallback) when it returned nothing. */
    method RewriteOrFallback(query: string, reply: Reply, useOllama: bool) returns (v: seq<string>)
      modifies this
      ensures v == if reply.Answered? then Variants(query, reply.text) else [query]
      ensures stats == (var s := if useOllama then OllamaStats(old(stats), reply) else OpenRouterStats(old(stats), reply);
                        if reply.Answered? then s else Fallback(s))
      ensures cache == old(cache)
    {
      var result;
      if useOllama {
        result := RewriteWithOllama(query, reply);
      } else {
        result := RewriteWithOpenRouter(query, reply);
      }
      if result.Some? {
        return result.value;
      }
      stats := Fallback(stats);
      return [query];
    }

    /** The legacy order: Ollama, then OpenRouter, then the bare query (counted as a fallback). */
    method RewriteLegacy(query: string, ollama: Reply, openrouter: Reply) returns (v: seq<string>)
      modifies this
      ensures v == if ollama.Answered? then Variants(query, ollama.text)
                   else if openrouter.Answered? then Variants(query, openrouter.text) else [query]
      ensures stats == if ollama.Answered? then OllamaStats(old(stats), ollama)
                       else if openrouter.Answered? then OpenRouterStats(OllamaStats(old(stats), ollama), openrouter)
                       else Fallback(OpenRouterStats(OllamaStats(old(stats), ollama), openrouter))
      ensures cache == old(cache)
    {
      var result := RewriteWithOllama(query, ollama);
      if result.Some? {
        return result.value;
      }
      result := RewriteWithOpenRouter(query, openrouter);
      if result.Some? {
        return result.value;
      }
      stats := Fallback(stats);
      return [query];
    }

    /**
     * `cached_rewrite_query` at time `now`: a fresh entry answers without
     * rewriting and counts a hit; otherwise a stale entry is dropped, the
     * query rewritten, and a successful rewrite stored with `now`. Other
     * queries' entries are untouched.
     */
    method CachedRewrite(query: string, ttl: real, now: real, source: string, ollama: Reply, openrouter: Reply)
      returns (r: Result<seq<string>, string>)
      modifies this
      ensures IsFresh(old(cache), query, now, ttl) ==>
                r == Ok(old(cache)[query].result) && cache == old(cache)
                && stats == old(stats).(cacheHits := old(stats).cacheHits + 1)
      ensures !IsFresh(old(cache), query, now, ttl) ==>
                r == AdaptiveResult(query, source, ollama, openrouter)
                && stats == AdaptiveStats(old(stats), source, ollama, openrouter)
                && cache == (if r.Ok? then old(cache)[query := CacheEntry(r.value, now)] else old(cache) - {query})
      ensures forall q :: q != query ==> (q in cache <==> q in old(cache)) && (q in cache ==> cache[q] == old(cache)[q])
    {
      if query in cache {
        var entry := cache[query];
        if now - entry.timestamp < ttl {
          stats := stats.(cacheHits := stats.cacheHits + 1);
          return Ok(entry.result);
        } else {
          cache := cache - {query};
        }
      }
      r := RewriteAdaptive(query, source, ollama, openrouter);
      if r.Ok? {
        cache := cache[query := CacheEntry(r.value, now)];
      }
    }

    /** `get_rewriter_stats()['cache_size']`. */
    function CacheSize(): (n: nat)
      reads this
      ensures n == 0 <==> cache == map[]
    {
      |cache|
    }

    /** `clear_rewriter_cache`: the cache is emptied; the counters stay. */
    method ClearCache()
      modifies this
      ensures cache == map[] && stats == old(stats)
      ensures CacheSize() == 0
    {
      cache := map[];
    }
  }

  /**
   * The cached-call counters from fresh ones: the first call for a query
   * misses and rewrites, and the next two, made within the lifetime, hit.
   */
  function ThreeCalls(query: string): Stats {
    var afterMiss := AdaptiveStats(ZeroStats, "", Disabled, Disabled);
    afterMiss.(cacheHits := afterMiss.cacheHits + 2)
  }

  /**
   * As written, the hit rate divides the hits by the adaptive requests,
   * which cache hits never count: three calls for the same query report
   * a 200% hit rate.
   */
  lemma HitRateAboveHundred(query: string)
    ensures HitRate(ThreeCalls(query)) == 200.0
    ensures CachedHitRate(ThreeCalls(query)) < 100.0
  {
    var s := ThreeCalls(query);
    assert s.totalRequests == 1 && s.cacheHits == 2;
  }
}
