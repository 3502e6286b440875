/**
 * The search-result cache (`rag_server/semantic_cache.py`): the
 * in-memory cache with its time-to-live, and the choice between it and
 * the Redis backend. The clock is a parameter; the Redis server is not
 * modelled beyond whether it can be reached. The key is the rendered
 * `query:space:limit` string that the source hashes with MD5.
 */
module SemanticCache {
  import opened Wrappers
  import opened Text

  // ---------------------------------------------------------------------
  // Keys
  // ---------------------------------------------------------------------

  /** `f"{query}:{space}:{limit}"`, the string the cache key hashes. */
  function CacheKey(query: string, space: string, limit: int): string {
    query + KeyTail(space, limit)
  }

  /** What follows the query in the key: `:{space}:{limit}`. */
  function KeyTail(space: string, limit: int): string {
    ":" + space + ":" + IntToString(limit)
  }

  /** For one space and limit, different queries never share a key. */
  lemma KeySeparatesQueries(q1: string, q2: string, space: string, limit: int)
    requires CacheKey(q1, space, limit) == CacheKey(q2, space, limit)
    ensures q1 == q2
  {
    CancelSuffix(q1, q2, KeyTail(space, limit));
  }

  lemma CancelSuffix(a: string, b: string, tail: string)
    requires a + tail == b + tail
    ensures a == b
  {
    assert |a| == |b|;
    assert a == (a + tail)[..|a|];
    assert b == (b + tail)[..|b|];
  }

  /** The key is only the rendered string: a colon moved between query and space gives the same entry. */
  lemma KeysCanCollide()
    ensures CacheKey("a:b", "c", 5) == CacheKey("a", "b:c", 5)
  {
  }

  // ---------------------------------------------------------------------
  // The in-memory cache
  // ---------------------------------------------------------------------

  /** A stored entry: the query, the rendered results and when they were stored. */
  datatype Entry = Entry(query: string, results: string, timestamp: real)

  /** An entry is expired at `now` once it is at least `ttl` seconds old. */
  predicate Expired(e: Entry, now: real, ttl: int) {
    now - e.timestamp >= ttl as real
  }

  /** What `get` answers for a key at `now`. */
  function Lookup(cache: map<string, Entry>, key: string, now: real, ttl: int): Option<string> {
    if key in cache && !Expired(cache[key], now, ttl) then Some(cache[key].results) else None
  }

  /** The entries `_cleanup` leaves: the unexpired ones. */
  function Unexpired(cache: map<string, Entry>, now: real, ttl: int): (r: map<string, Entry>)
    ensures forall k :: k in r <==> k in cache && !Expired(cache[k], now, ttl)
    ensures forall k :: k in r ==> r[k] == cache[k]
  {
    map k | k in cache && !Expired(cache[k], now, ttl) :: cache[k]
  }

  /** The cache after `set`: the entry stored, then a clean-up when the size is a multiple of 100. */
  function AfterSet(cache: map<string, Entry>, key: string, e: Entry, now: real, ttl: int): map<string, Entry> {
    var stored := cache[key := e];
    if |stored| % 100 == 0 then Unexpired(stored, now, ttl) else stored
  }

  /**
   * With a positive lifetime, what `set` stores at time `t` is what `get`
   * answers at any `later` less than `ttl` after it; the other keys'
   * answers are those of before, or none once expired.
   */
  lemma SetThenGet(cache: map<string, Entry>, query: string, results: string, space: string, limit: int,
                   t: real, later: real, ttl: int, other: string)
    requires ttl > 0 && later - t < ttl as real
    requires other != CacheKey(query, space, limit)
    ensures var c := AfterSet(cache, CacheKey(query, space, limit), Entry(query, results, t), t, ttl);
            Lookup(c, CacheKey(query, space, limit), later, ttl) == Some(results)
            && (Lookup(c, other, later, ttl).Some? ==> Lookup(c, other, later, ttl) == Lookup(cache, other, later, ttl))
  {
  }

  /** Lookups at the clean-up's own time see no difference: the clean-up only drops what `get` would not return. */
  lemma CleanupInvisible(cache: map<string, Entry>, key: string, now: real, ttl: int)
    ensures Lookup(Unexpired(cache, now, ttl), key, now, ttl) == Lookup(cache, key, now, ttl)
    ensures |Unexpired(cache, now, ttl).Keys| <= |cache.Keys|
  {
    assert Unexpired(cache, now, ttl).Keys <= cache.Keys;
    SubsetSize(Unexpired(cache, now, ttl).Keys, cache.Keys);
  }

  lemma SubsetSize<T>(a: set<T>, b: set<T>)
    requires a <= b
    ensures |a| <= |b|
  {
    assert b == a + (b - a);
  }

  /** `InMemoryCache`. */
  class InMemoryCache {
    var cache: map<string, Entry>
    const ttl: int

    constructor (ttl: int)
      ensures cache == map[] && this.ttl == ttl
    {
      cache := map[];
      this.ttl := ttl;
    }

    /** `get` at time `now`: a fresh entry's results; an expired entry is deleted on the way. */
    method Get(query: string, space: string, limit: int, now: real) returns (r: Option<string>)
      modifies this
      ensures r == Lookup(old(cache), CacheKey(query, space, limit), now, ttl)
      ensures cache == if r.None? then old(cache) - {CacheKey(query, space, limit)} else old(cache)
    {
      var key := CacheKey(query, space, limit);
      if key in cache {
        var entry := cache[key];
        if now - entry.timestamp < ttl as real {
          return Some(entry.results);
        } else {
          cache := cache - {key};
        }
      }
      return None;
    }

    /** `set` at time `now`. */
    method Set(query: string, results: string, space: string, limit: int, now: real)
      modifies this
      ensures cache == AfterSet(old(cache), CacheKey(query, space, limit), Entry(query, results, now), now, ttl)
    {
      var key := CacheKey(query, space, limit);
      cache := cache[key := Entry(query, results, now)];
      if |cache| % 100 == 0 {
        Cleanup(now);
      }
    }

    /** `_cleanup` at time `now`: the expired keys are collected, then deleted one by one. */
    method Cleanup(now: real)
      modifies this
      ensures cache == Unexpired(old(cache), now, ttl)
    {
      var expired := set k | k in cache && Expired(cache[k], now, ttl);
      while expired != {}
        invariant expired <= old(cache).Keys
        invariant forall k :: k in expired ==> Expired(old(cache)[k], now, ttl)
        invariant forall k :: k in cache <==> k in old(cache) && (k in expired || !Expired(old(cache)[k], now, ttl))
        invariant forall k :: k in cache ==> cache[k] == old(cache)[k]
        decreases expired
      {
        var k :| k in expired;
        cache := cache - {k};
        expired := expired - {k};
      }
    }

    /** `clear`. */
    method Clear()
      modifies this
      ensures cache == map[]
    {
      cache := map[];
    }

    /** `stats()['size']`: the number of entries. */
    function Size(): (n: nat)
      reads this
      ensures n == 0 <==> cache == map[]
    {
      |cache|
    }
  }

  // ---------------------------------------------------------------------
  // The backend choice
  // ---------------------------------------------------------------------

  datatype Backend = InMemory | Redis

  /**
   * `SemanticCache.__init__`: Redis when it is switched on and its
   * connection succeeds, the in-memory cache otherwise; the choice itself
   * never fails.
   */
  function ChooseBackend(useRedis: bool, redisReachable: bool): (b: Backend)
    ensures b == Redis <==> useRedis && redisReachable
  {
    if useRedis then (if redisReachable then Redis else InMemory) else InMemory
  }
}
