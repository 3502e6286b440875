/**
 * The sync job's page cache (`rag_server/sync_confluence.py`): an LRU
 * cache of fetched Confluence pages, kept as an `OrderedDict` from the
 * key `page_id:expand` to the page, least recently used first, with hit
 * and miss counters. The page a miss fetches is a parameter; the lock
 * and the second look-up under it are left out (one thread at a time).
 */
module PageCache {
  import opened Seqs

  /** `_cache_max_size`. */
  const MaxSize := 1000

  /** `f"{page_id}:{expand}"`. */
  function CacheKey(pageId: string, expand: string): string {
    pageId + ":" + expand
  }

  /** `xs` with `k` taken out, the rest in order. */
  function Without(xs: seq<string>, k: string): (r: seq<string>)
    ensures forall x :: x in r <==> x in xs && x != k
  {
    if xs == [] then [] else (if xs[0] == k then [] else [xs[0]]) + Without(xs[1..], k)
  }

  /** Taking a key out of a list without repeats leaves one element fewer and no repeats. */
  lemma {:induction false} WithoutDistinct(xs: seq<string>, k: string)
    requires Distinct(xs)
    ensures Distinct(Without(xs, k))
    ensures |Without(xs, k)| == if k in xs then |xs| - 1 else |xs|
  {
    if xs != [] {
      assert Distinct(xs[1..]) by {
        forall i, j | 0 <= i < j < |xs[1..]| ensures xs[1..][i] != xs[1..][j] {
          assert xs[1..][i] == xs[i + 1] && xs[1..][j] == xs[j + 1];
        }
      }
      WithoutDistinct(xs[1..], k);
      var rest := Without(xs[1..], k);
      forall x | x in xs[1..] ensures x != xs[0] {
        var j :| 0 <= j < |xs[1..]| && xs[1..][j] == x;
        assert xs[j + 1] == x;
      }
      if xs[0] != k {
        assert xs[0] !in rest;
        DistinctCons(xs[0], rest);
      }
    }
  }

  lemma DistinctCons(x: string, rest: seq<string>)
    requires Distinct(rest) && x !in rest
    ensures Distinct([x] + rest)
  {
    forall i, j | 0 <= i < j < |[x] + rest| ensures ([x] + rest)[i] != ([x] + rest)[j] {
      if i == 0 {
        assert ([x] + rest)[j] == rest[j - 1];
      } else {
        assert ([x] + rest)[i] == rest[i - 1] && ([x] + rest)[j] == rest[j - 1];
      }
    }
  }

  lemma DistinctSnoc(xs: seq<string>, x: string)
    requires Distinct(xs) && x !in xs
    ensures Distinct(xs + [x])
  {
    forall i, j | 0 <= i < j < |xs + [x]| ensures (xs + [x])[i] != (xs + [x])[j] {
      assert (xs + [x])[i] == xs[i];
      if j < |xs| {
        assert (xs + [x])[j] == xs[j];
      }
    }
  }

  /** `hits / total * 100`, or 0 before any call. */
  function HitRate(hits: nat, misses: nat): (r: real)
    ensures 0.0 <= r <= 100.0
    ensures r == 100.0 <==> hits > 0 && misses == 0
    ensures r == 0.0 <==> hits == 0
  {
    var total := hits + misses;
    if total > 0 then hits as real / total as real * 100.0 else 0.0
  }

  /** `get_cache_stats()`, with the hit rate as a number rather than its `"%.1f%%"` text. */
  datatype CacheStats = CacheStats(hits: nat, misses: nat, hitRate: real, cacheSize: nat, cacheMaxSize: nat)

  /** The module's `_page_cache` and `_cache_stats`. */
  class PageCache<P> {
    /** The keys, least recently used first. */
    var order: seq<string>
    var pages: map<string, P>
    var hits: nat
    var misses: nat

    /** Every cached key once in `order`, and no more than `MaxSize` of them. */
    ghost predicate Valid()
      reads this
    {
      Distinct(order) && (forall k :: k in order <==> k in pages) && |order| <= MaxSize
    }

    constructor ()
      ensures Valid() && order == [] && pages == map[] && hits == 0 && misses == 0
    {
      order := [];
      pages := map[];
      hits := 0;
      misses := 0;
    }

    /**
     * `get_page_cached`: a hit returns the cached page and makes it the
     * most recently used; a miss stores `fetched` as the most recently
     * used page, first evicting the least recently used one when the
     * cache is full. Exactly one of the counters goes up.
     */
    method GetPageCached(pageId: string, expand: string, fetched: P) returns (page: P)
      requires Valid()
      modifies this
      ensures Valid()
      ensures hits + misses == old(hits) + old(misses) + 1
      ensures var key := CacheKey(pageId, expand);
              if key in old(pages) then
                page == old(pages)[key] && hits == old(hits) + 1 && misses == old(misses)
                && pages == old(pages) && order == Without(old(order), key) + [key]
              else
                page == fetched && hits == old(hits) && misses == old(misses) + 1
                && if |old(order)| >= MaxSize then
                     order == old(order)[1..] + [key] && pages == (old(pages) - {old(order)[0]})[key := fetched]
                   else
                     order == old(order) + [key] && pages == old(pages)[key := fetched]
    {
      var key := CacheKey(pageId, expand);
      if key in pages {
        hits := hits + 1;
        MoveToEnd(key);
        return pages[key];
      }
      misses := misses + 1;
      if |order| >= MaxSize {
        Evict();
      }
      Insert(key, fetched);
      page := fetched;
    }

    /** `move_to_end(key)` for a cached key. */
    method MoveToEnd(key: string)
      requires Valid() && key in pages
      modifies this
      ensures Valid()
      ensures order == Without(old(order), key) + [key]
      ensures pages == old(pages) && hits == old(hits) && misses == old(misses)
    {
      WithoutDistinct(order, key);
      DistinctSnoc(Without(order, key), key);
      order := Without(order, key) + [key];
    }

    /** `popitem(last=False)` on a full cache: the least recently used page goes. */
    method Evict()
      requires Valid() && |order| >= MaxSize
      modifies this
      ensures Distinct(order) && (forall k :: k in order <==> k in pages) && |order| == MaxSize - 1
      ensures order == old(order)[1..] && pages == old(pages) - {old(order)[0]}
      ensures hits == old(hits) && misses == old(misses)
    {
      var oldest := order[0];
      forall k | k in order[1..] ensures k != oldest {
        var j :| 0 <= j < |order[1..]| && order[1..][j] == k;
        assert order[j + 1] == k;
      }
      pages := pages - {oldest};
      order := order[1..];
    }

    /** Stores a page under a key not in the cache, as the most recently used. */
    method Insert(key: string, page: P)
      requires Distinct(order) && (forall k :: k in order <==> k in pages) && |order| < MaxSize
      requires key !in pages
      modifies this
      ensures Valid()
      ensures order == old(order) + [key] && pages == old(pages)[key := page]
      ensures hits == old(hits) && misses == old(misses)
    {
      DistinctSnoc(order, key);
      order := order + [key];
      pages := pages[key := page];
    }

    /** `clear_page_cache`. */
    method Clear()
      modifies this
      ensures Valid() && order == [] && pages == map[] && hits == 0 && misses == 0
    {
      order := [];
      pages := map[];
      hits := 0;
      misses := 0;
    }

    /** `get_cache_stats`. */
    function Stats(): (s: CacheStats)
      reads this
      requires Valid()
      ensures s.cacheSize <= s.cacheMaxSize == MaxSize
      ensures 0.0 <= s.hitRate <= 100.0
      ensures s.hits == hits && s.misses == misses
    {
      OrderSize(order, pages);
      CacheStats(hits, misses, HitRate(hits, misses), |pages|, MaxSize)
    }
  }

  /** Without repeats, the order and the page map have the same size. */
  lemma OrderSize<P>(order: seq<string>, pages: map<string, P>)
    requires Distinct(order) && forall k :: k in order <==> k in pages
    ensures |pages| == |order|
  {
    DistinctSetSize(order);
    assert pages.Keys == set k | k in order;
  }

  lemma {:induction false} DistinctSetSize(xs: seq<string>)
    requires Distinct(xs)
    ensures |set k | k in xs| == |xs|
  {
    if xs != [] {
      var init := xs[..|xs| - 1];
      var last := xs[|xs| - 1];
      assert Distinct(init) by {
        forall i, j | 0 <= i < j < |init| ensures init[i] != init[j] {
          assert init[i] == xs[i] && init[j] == xs[j];
        }
      }
      DistinctSetSize(init);
      assert last !in init by {
        forall i | 0 <= i < |init| ensures init[i] != last {
          assert init[i] == xs[i];
        }
      }
      assert xs == init + [last];
      assert (set k | k in xs) == (set k | k in init) + {last};
    }
  }
}
