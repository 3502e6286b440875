/**
 * The semantic query log (`rag_server/semantic_query_log.py`): a
 * dictionary from normalised queries to usage records, kept in insertion
 * order, with its clean-up, and the two readers that feed query
 * expansion. Loading and saving the JSON file is not modelled: the loaded
 * dictionary, the minimum rating and the size limit are passed in.
 */
module SemanticQueryLog {
  import opened Wrappers
  import opened Text
  import opened Seqs
  import opened Sorting
  import opened Similarity

  /** One logged query: how often, its ratings and their mean, whether it succeeded, the most results seen. */
  datatype QueryRecord = QueryRecord(count: int, ratings: seq<int>, avgRating: real, success: bool, resultsCount: int)

  /** The record `log_query` creates for an unseen query. */
  const NewRecord: QueryRecord := QueryRecord(0, [], 0.0, false, 0)

  /** The dictionary: its keys in insertion order, and the records. */
  datatype Log = Log(order: seq<string>, entries: map<string, QueryRecord>)

  /** What a Python dictionary is: every key listed once, in order. */
  ghost predicate WellFormed(l: Log) {
    Distinct(l.order) && forall q :: q in l.entries <==> q in l.order
  }

  function RecordOf(entries: map<string, QueryRecord>, q: string): QueryRecord {
    if q in entries then entries[q] else NewRecord
  }

  /** `query.lower().strip()`. */
  function Normalize(query: string): string {
    Strip(Lower(query))
  }

  // ---------------------------------------------------------------------
  // Ratings
  // ---------------------------------------------------------------------

  predicate ValidRating(r: int) { 1 <= r <= 5 }

  function Sum(xs: seq<int>): int {
    if xs == [] then 0 else Sum(xs[..|xs| - 1]) + xs[|xs| - 1]
  }

  /** `sum(xs) / len(xs)`, and `0.0` for no ratings. */
  function Mean(xs: seq<int>): real {
    if xs == [] then 0.0 else (Sum(xs) as real) / (|xs| as real)
  }

  /** Every recorded rating is from 1 to 5 and the average is their mean. */
  predicate RatingsConsistent(r: QueryRecord) {
    (forall i :: 0 <= i < |r.ratings| ==> ValidRating(r.ratings[i])) && r.avgRating == Mean(r.ratings)
  }

  lemma {:induction false} SumBounds(xs: seq<int>)
    requires forall i :: 0 <= i < |xs| ==> ValidRating(xs[i])
    ensures |xs| <= Sum(xs) <= 5 * |xs|
    decreases |xs|
  {
    if xs != [] {
      SumBounds(xs[..|xs| - 1]);
    }
  }

  /** The mean of ratings from 1 to 5 is itself from 1 to 5. */
  lemma MeanBounds(xs: seq<int>)
    requires xs != []
    requires forall i :: 0 <= i < |xs| ==> ValidRating(xs[i])
    ensures 1.0 <= Mean(xs) <= 5.0
  {
    SumBounds(xs);
    var n := |xs| as real;
    var s := Sum(xs) as real;
    assert n <= s <= 5.0 * n;
    DivBounds(s, n);
  }

  lemma DivBounds(s: real, n: real)
    requires n > 0.0 && n <= s <= 5.0 * n
    ensures 1.0 <= s / n <= 5.0
  {
  }

  // ---------------------------------------------------------------------
  // log_query
  // ---------------------------------------------------------------------

  /**
   * One call's update of a record: one more use, the larger results count,
   * the rating when it is from 1 to 5 (and the mean recomputed), and
   * success when this call found results and the mean, if any, reaches the
   * minimum rating.
   */
  function Record(r: QueryRecord, resultsCount: int, rating: Option<int>, minRating: real): QueryRecord {
    var ratings := if rating.Some? && ValidRating(rating.value) then r.ratings + [rating.value] else r.ratings;
    var avg := if rating.Some? && ValidRating(rating.value) then Mean(ratings) else r.avgRating;
    QueryRecord(r.count + 1, ratings, avg, resultsCount > 0 && (ratings != [] ==> avg >= minRating), Max(r.resultsCount, resultsCount))
  }

  /** One call to `log_query`: its results count and its optional rating. */
  datatype Call = Call(resultsCount: int, rating: Option<int>)

  /** The record after a series of calls for one query, starting from a new one. */
  function Replayed(calls: seq<Call>, minRating: real): QueryRecord {
    if calls == [] then NewRecord
    else
      var c := calls[|calls| - 1];
      Record(Replayed(calls[..|calls| - 1], minRating), c.resultsCount, c.rating, minRating)
  }

  predicate Rated(c: Call) { c.rating.Some? && ValidRating(c.rating.value) }

  /** The ratings the calls gave, keeping only those from 1 to 5. */
  function GivenRatings(calls: seq<Call>): (r: seq<int>)
    ensures forall i :: 0 <= i < |r| ==> ValidRating(r[i])
  {
    if calls == [] then []
    else
      var c := calls[|calls| - 1];
      GivenRatings(calls[..|calls| - 1]) + (if Rated(c) then [c.rating.value] else [])
  }

  /** The largest results count of the calls, and 0 when none was positive. */
  function MostResults(calls: seq<Call>): (m: int)
    ensures m >= 0 && forall i :: 0 <= i < |calls| ==> calls[i].resultsCount <= m
  {
    if calls == [] then 0 else Max(MostResults(calls[..|calls| - 1]), calls[|calls| - 1].resultsCount)
  }

  /**
   * After any series of calls a record counts exactly the calls, keeps the
   * largest results count, records exactly the valid ratings with their
   * mean, and is successful exactly when the last call found results and
   * the mean (if any rating) reaches the minimum.
   */
  lemma {:induction false} ReplayedFacts(calls: seq<Call>, minRating: real)
    ensures var r := Replayed(calls, minRating);
            r.count == |calls|
            && r.resultsCount == MostResults(calls)
            && r.ratings == GivenRatings(calls)
            && RatingsConsistent(r)
            && (calls != [] ==>
                  (r.success <==> calls[|calls| - 1].resultsCount > 0 && (r.ratings != [] ==> r.avgRating >= minRating)))
    decreases |calls|
  {
    if calls != [] {
      ReplayedFacts(calls[..|calls| - 1], minRating);
    }
  }

  /** A logged record keeps a consistent mean, so its average lies from 1 to 5 once it has a rating. */
  lemma RecordKeepsConsistent(r: QueryRecord, resultsCount: int, rating: Option<int>, minRating: real)
    requires RatingsConsistent(r)
    ensures var n := Record(r, resultsCount, rating, minRating);
            RatingsConsistent(n) && (n.ratings != [] ==> 1.0 <= n.avgRating <= 5.0)
  {
    var n := Record(r, resultsCount, rating, minRating);
    if n.ratings != [] {
      MeanBounds(n.ratings);
    }
  }

  /** The dictionary with `key`'s record updated, the key appended when new. */
  function Recorded(l: Log, key: string, resultsCount: int, rating: Option<int>, minRating: real): Log {
    Log(if key in l.entries then l.order else l.order + [key],
        l.entries[key := Record(RecordOf(l.entries, key), resultsCount, rating, minRating)])
  }

  /** `log_query`: record the call, then clean up if the dictionary has grown past the limit. */
  function AfterLogQuery(l: Log, query: string, resultsCount: int, rating: Option<int>, minRating: real, maxSize: int): Log {
    var recorded := Recorded(l, Normalize(query), resultsCount, rating, minRating);
    if |recorded.order| > maxSize then Cleaned(recorded, maxSize) else recorded
  }

  // ---------------------------------------------------------------------
  // _cleanup_old_entries
  // ---------------------------------------------------------------------

  /** Worth keeping: successful, and rated above 2 or used more than five times. */
  predicate Keeps(r: QueryRecord) {
    (r.avgRating > 2.0 || r.count > 5) && r.success
  }

  function KeepsIn(entries: map<string, QueryRecord>): string -> bool {
    q => Keeps(RecordOf(entries, q))
  }

  /** The sort key `(avg_rating, count)`, compared as a tuple. */
  predicate RankGe(a: QueryRecord, b: QueryRecord) {
    a.avgRating > b.avgRating || (a.avgRating == b.avgRating && a.count >= b.count)
  }

  function RankGeIn(entries: map<string, QueryRecord>): (string, string) -> bool {
    (a, b) => RankGe(RecordOf(entries, a), RecordOf(entries, b))
  }

  lemma RankGeInPreorder(entries: map<string, QueryRecord>)
    ensures Preorder(RankGeIn(entries))
  {
  }

  /** The records of the keys in `order`. */
  function Restrict(entries: map<string, QueryRecord>, order: seq<string>): map<string, QueryRecord> {
    map q | q in order :: RecordOf(entries, q)
  }

  /** The keys that survive the clean-up, in their new order. */
  function CleanedOrder(l: Log, maxSize: int): seq<string> {
    var kept := Filter(l.order, KeepsIn(l.entries));
    if |kept| > maxSize then Take(Sort(kept, RankGeIn(l.entries)), maxSize) else kept
  }

  /**
   * `_cleanup_old_entries`: the entries worth keeping, in order; if still
   * more than the limit, the top `maxSize` of them by (average, count),
   * rebuilt in that order.
   */
  function Cleaned(l: Log, maxSize: int): Log {
    var order := CleanedOrder(l, maxSize);
    Log(order, Restrict(l.entries, order))
  }

  /** The entries worth keeping, in dictionary order, are exactly the keys whose records are worth keeping. */
  lemma KeptEntries(l: Log)
    requires WellFormed(l)
    ensures var kept := Filter(l.order, KeepsIn(l.entries));
            Distinct(kept) && forall q :: q in kept <==> q in l.entries && Keeps(l.entries[q])
  {
    var kept := Filter(l.order, KeepsIn(l.entries));
    FilterDistinct(l.order, KeepsIn(l.entries));
    forall q | q in l.entries && Keeps(l.entries[q]) ensures q in kept {
      var i :| 0 <= i < |l.order| && l.order[i] == q;
    }
  }

  /** Sorting the kept keys keeps them distinct and orders them by rank. */
  lemma SortedKept(l: Log)
    requires WellFormed(l)
    ensures var kept := Filter(l.order, KeepsIn(l.entries));
            var sorted := Sort(kept, RankGeIn(l.entries));
            Distinct(sorted) && (forall q :: q in sorted <==> q in kept) && SortedBy(sorted, RankGeIn(l.entries))
  {
    var kept := Filter(l.order, KeepsIn(l.entries));
    KeptEntries(l);
    SortPermutes(kept, RankGeIn(l.entries));
    SortMembers(kept, RankGeIn(l.entries));
    DistinctPerm(kept, Sort(kept, RankGeIn(l.entries)));
    RankGeInPreorder(l.entries);
    SortSorted(kept, RankGeIn(l.entries));
  }

  /**
   * The clean-up leaves a dictionary of at most `maxSize` entries, all of
   * them worth keeping and unchanged.
   */
  lemma CleanedFacts(l: Log, maxSize: int)
    requires WellFormed(l)
    ensures var c := Cleaned(l, maxSize);
            WellFormed(c)
            && (maxSize >= 0 ==> |c.order| <= maxSize)
            && (forall q :: q in c.entries ==> q in l.entries && c.entries[q] == l.entries[q] && Keeps(l.entries[q]))
  {
    var kept := Filter(l.order, KeepsIn(l.entries));
    KeptEntries(l);
    if |kept| > maxSize {
      SortedKept(l);
      var sorted := Sort(kept, RankGeIn(l.entries));
      DistinctPrefix(sorted, |CleanedOrder(l, maxSize)|);
    }
  }

  /** When few enough entries are worth keeping, the clean-up keeps all of them. */
  lemma CleanedKeepsAll(l: Log, maxSize: int)
    requires WellFormed(l)
    requires |Filter(l.order, KeepsIn(l.entries))| <= maxSize
    ensures forall q :: q in l.entries && Keeps(l.entries[q]) ==> q in Cleaned(l, maxSize).entries
  {
    KeptEntries(l);
  }

  /** When the clean-up has to trim, every entry it keeps ranks at least as high as every one it drops. */
  lemma CleanedKeepsTop(l: Log, maxSize: int)
    requires WellFormed(l)
    ensures var c := Cleaned(l, maxSize);
            forall a, b :: a in l.entries && a in c.entries && b in l.entries && Keeps(l.entries[b]) && b !in c.entries ==>
              RankGe(l.entries[a], l.entries[b])
  {
    var kept := Filter(l.order, KeepsIn(l.entries));
    KeptEntries(l);
    var order := CleanedOrder(l, maxSize);
    if |kept| > maxSize {
      SortedKept(l);
      var sorted := Sort(kept, RankGeIn(l.entries));
      var n := |order|;
      assert order == sorted[..n];
      forall a, b | a in order && b in kept && b !in order ensures RankGe(l.entries[a], l.entries[b]) {
        var i :| 0 <= i < n && sorted[i] == a;
        var j :| 0 <= j < |sorted| && sorted[j] == b;
        assert j >= n by {
          assert forall k :: 0 <= k < n ==> sorted[k] in order;
        }
        assert RankGeIn(l.entries)(sorted[i], sorted[j]);
      }
    }
  }

  // ---------------------------------------------------------------------
  // get_expansion_terms and get_related_queries
  // ---------------------------------------------------------------------

  /** `(query, count, avg_rating)` of each successful entry, in dictionary order. */
  function SuccessfulTerms(order: seq<string>, entries: map<string, QueryRecord>): (r: seq<(string, int, real)>)
    ensures forall i :: 0 <= i < |r| ==>
              r[i].0 in order && RecordOf(entries, r[i].0).success
              && r[i].1 == RecordOf(entries, r[i].0).count && r[i].2 == RecordOf(entries, r[i].0).avgRating
  {
    if order == [] then []
    else
      var q := order[|order| - 1];
      var rec := RecordOf(entries, q);
      SuccessfulTerms(order[..|order| - 1], entries) + (if rec.success then [(q, rec.count, rec.avgRating)] else [])
  }

  /** The sort key `(avg_rating, count)` of a term. */
  predicate TermGe(a: (string, int, real), b: (string, int, real)) {
    a.2 > b.2 || (a.2 == b.2 && a.1 >= b.1)
  }

  /** `get_expansion_terms`. */
  function ExpansionTerms(l: Log, topN: int): seq<(string, int, real)> {
    Take(Sort(SuccessfulTerms(l.order, l.entries), TermGe), topN)
  }

  /**
   * The expansion terms are successful logged queries with their count and
   * average, at most `topN` of them, by descending (average, count).
   */
  lemma ExpansionTermsFacts(l: Log, topN: int)
    ensures var r := ExpansionTerms(l, topN);
            (topN >= 0 ==> |r| <= topN)
            && SortedBy(r, TermGe)
            && forall t :: t in r ==>
                 t.0 in l.order && RecordOf(l.entries, t.0).success
                 && t.1 == RecordOf(l.entries, t.0).count && t.2 == RecordOf(l.entries, t.0).avgRating
  {
    var terms := SuccessfulTerms(l.order, l.entries);
    SortMembers(terms, TermGe);
    assert Preorder(TermGe);
    SortSorted(terms, TermGe);
    var sorted := Sort(terms, TermGe);
    var r := ExpansionTerms(l, topN);
    forall t | t in r ensures t in terms {
      assert t in sorted;
    }
  }

  /** The set of whitespace-separated words of `s`. */
  function WordSet(s: string): set<string> {
    set w | w in Split(s)
  }

  /** A successful logged query is related when its words share more than 30% with the query's. */
  predicate IsRelated(queryWords: set<string>, logged: string, rec: QueryRecord) {
    rec.success && |queryWords + WordSet(logged)| > 0 && Jaccard(queryWords, WordSet(logged)) > 0.3
  }

  /** `(query, similarity, count, avg_rating)` of each related entry, in dictionary order. */
  function RelatedCandidates(order: seq<string>, entries: map<string, QueryRecord>, queryWords: set<string>): (r: seq<(string, real, int, real)>)
    ensures forall i :: 0 <= i < |r| ==>
              r[i].0 in order && IsRelated(queryWords, r[i].0, RecordOf(entries, r[i].0))
              && r[i].1 == Jaccard(queryWords, WordSet(r[i].0))
  {
    if order == [] then []
    else
      var q := order[|order| - 1];
      var rec := RecordOf(entries, q);
      RelatedCandidates(order[..|order| - 1], entries, queryWords)
      + (if IsRelated(queryWords, q, rec) then [(q, Jaccard(queryWords, WordSet(q)), rec.count, rec.avgRating)] else [])
  }

  /** The sort key `(similarity, count, avg_rating)`, compared as a tuple. */
  predicate RelatedGe(a: (string, real, int, real), b: (string, real, int, real)) {
    a.1 > b.1 || (a.1 == b.1 && (a.2 > b.2 || (a.2 == b.2 && a.3 >= b.3)))
  }

  function QueryNames(xs: seq<(string, real, int, real)>): (r: seq<string>)
    ensures |r| == |xs| && forall i :: 0 <= i < |xs| ==> r[i] == xs[i].0
  {
    seq(|xs|, i requires 0 <= i < |xs| => xs[i].0)
  }

  /** `get_related_queries`. */
  function RelatedQueries(l: Log, query: string, topN: int): seq<string> {
    QueryNames(Take(Sort(RelatedCandidates(l.order, l.entries, WordSet(Lower(query))), RelatedGe), topN))
  }

  /**
   * Related queries are successful logged queries sharing more than 30% of
   * their words with the query, at most `topN`, the most similar first.
   */
  lemma RelatedQueriesFacts(l: Log, query: string, topN: int)
    ensures var r := RelatedQueries(l, query, topN);
            var qw := WordSet(Lower(query));
            (topN >= 0 ==> |r| <= topN)
            && (forall q :: q in r ==> q in l.order && IsRelated(qw, q, RecordOf(l.entries, q)))
            && forall i, j :: 0 <= i < j < |r| ==> Jaccard(qw, WordSet(r[i])) >= Jaccard(qw, WordSet(r[j]))
  {
    var qw := WordSet(Lower(query));
    var cands := RelatedCandidates(l.order, l.entries, qw);
    SortMembers(cands, RelatedGe);
    assert Preorder(RelatedGe);
    SortSorted(cands, RelatedGe);
    var sorted := Sort(cands, RelatedGe);
    var top := Take(sorted, topN);
    var r := RelatedQueries(l, query, topN);
    forall q | q in r ensures q in l.order && IsRelated(qw, q, RecordOf(l.entries, q)) {
      var i :| 0 <= i < |r| && r[i] == q;
      assert top[i] in sorted;
      assert top[i] in cands;
    }
    forall i, j | 0 <= i < j < |r| ensures Jaccard(qw, WordSet(r[i])) >= Jaccard(qw, WordSet(r[j])) {
      assert top[i] in sorted && top[j] in sorted;
      assert top[i] in cands && top[j] in cands;
      assert RelatedGe(sorted[i], sorted[j]);
    }
  }

  // ---------------------------------------------------------------------
  // The log object
  // ---------------------------------------------------------------------

  /** `SemanticQueryLog`: the dictionary, the minimum rating and the size limit. */
  class QueryLog {
    var queryLog: Log
    const minRating: real
    const maxLogSize: int

    ghost predicate Valid()
      reads this
    {
      WellFormed(queryLog)
    }

    /** `__init__`: the loaded dictionary, cleaned up when it is over the limit. */
    constructor (loaded: Log, minRating: real, maxLogSize: int)
      requires WellFormed(loaded)
      ensures Valid() && this.minRating == minRating && this.maxLogSize == maxLogSize
      ensures queryLog == if |loaded.order| > maxLogSize then Cleaned(loaded, maxLogSize) else loaded
    {
      this.minRating := minRating;
      this.maxLogSize := maxLogSize;
      queryLog := loaded;
      new;
      if |queryLog.order| > maxLogSize {
        CleanupOldEntries();
      }
    }

    /** `_cleanup_old_entries`. */
    method CleanupOldEntries()
      requires Valid()
      modifies this
      ensures Valid()
      ensures queryLog == Cleaned(old(queryLog), maxLogSize)
    {
      CleanedFacts(queryLog, maxLogSize);
      queryLog := Cleaned(queryLog, maxLogSize);
    }

    /**
     * `log_query`: the normalised query's record is updated (created
     * first when new); the dictionary is cleaned up when it has grown past
     * the limit, so it never ends above the limit.
     */
    method LogQuery(query: string, resultsCount: int, userRating: Option<int>)
      requires Valid()
      modifies this
      ensures Valid()
      ensures queryLog == AfterLogQuery(old(queryLog), query, resultsCount, userRating, minRating, maxLogSize)
    {
      ghost var before := queryLog;
      var key := Normalize(query);
      if key !in queryLog.entries {
        queryLog := Log(queryLog.order + [key], queryLog.entries[key := NewRecord]);
      }
      var entry := queryLog.entries[key];
      assert entry == RecordOf(before.entries, key);
      queryLog := Log(queryLog.order, queryLog.entries[key := Record(entry, resultsCount, userRating, minRating)]);
      assert queryLog == Recorded(before, key, resultsCount, userRating, minRating);
      RecordedWellFormed(before, key, resultsCount, userRating, minRating);
      if |queryLog.order| > maxLogSize {
        CleanupOldEntries();
      }
    }

    /** `get_expansion_terms`. */
    method GetExpansionTerms(topN: int) returns (r: seq<(string, int, real)>)
      ensures r == ExpansionTerms(queryLog, topN)
    {
      r := Take(Sort(SuccessfulTerms(queryLog.order, queryLog.entries), TermGe), topN);
    }

    /** `get_related_queries`: the loop over the dictionary collects the related entries. */
    method GetRelatedQueries(query: string, topN: int) returns (r: seq<string>)
      ensures r == RelatedQueries(queryLog, query, topN)
    {
      var queryWords := WordSet(Lower(query));
      var related: seq<(string, real, int, real)> := [];
      var i := 0;
      while i < |queryLog.order|
        invariant 0 <= i <= |queryLog.order|
        invariant related == RelatedCandidates(queryLog.order[..i], queryLog.entries, queryWords)
      {
        var logged := queryLog.order[i];
        assert queryLog.order[..i + 1][..i] == queryLog.order[..i];
        var data := RecordOf(queryLog.entries, logged);
        if data.success {
          var loggedWords := WordSet(logged);
          if |queryWords + loggedWords| > 0 {
            var similarity := Jaccard(queryWords, loggedWords);
            if similarity > 0.3 {
              related := related + [(logged, similarity, data.count, data.avgRating)];
            }
          }
        }
        i := i + 1;
      }
      assert queryLog.order[..i] == queryLog.order;
      r := QueryNames(Take(Sort(related, RelatedGe), topN));
    }
  }

  /**
   * After `log_query` the dictionary is still a dictionary and never above
   * a non-negative limit; without a clean-up, the query's record is the
   * updated one and every other entry is unchanged.
   */
  lemma LogQueryFacts(l: Log, query: string, resultsCount: int, rating: Option<int>, minRating: real, maxSize: int)
    requires WellFormed(l)
    ensures var r := AfterLogQuery(l, query, resultsCount, rating, minRating, maxSize);
            WellFormed(r) && (maxSize >= 0 ==> |r.order| <= maxSize)
    ensures var recorded := Recorded(l, Normalize(query), resultsCount, rating, minRating);
            var r := AfterLogQuery(l, query, resultsCount, rating, minRating, maxSize);
            |recorded.order| <= maxSize ==>
              Normalize(query) in r.entries
              && r.entries[Normalize(query)].count == RecordOf(l.entries, Normalize(query)).count + 1
              && forall q :: q != Normalize(query) ==>
                   (q in r.entries <==> q in l.entries) && (q in l.entries ==> r.entries[q] == l.entries[q])
  {
    var key := Normalize(query);
    var recorded := Recorded(l, key, resultsCount, rating, minRating);
    RecordedWellFormed(l, key, resultsCount, rating, minRating);
    if |recorded.order| > maxSize {
      CleanedFacts(recorded, maxSize);
    }
  }

  /** Recording a call keeps the dictionary a dictionary. */
  lemma RecordedWellFormed(l: Log, key: string, resultsCount: int, rating: Option<int>, minRating: real)
    requires WellFormed(l)
    ensures WellFormed(Recorded(l, key, resultsCount, rating, minRating))
  {
    var recorded := Recorded(l, key, resultsCount, rating, minRating);
    if key !in l.entries {
      forall i, j | 0 <= i < j < |recorded.order| ensures recorded.order[i] != recorded.order[j] {
        if j == |l.order| {
          assert recorded.order[i] in l.order;
        }
      }
    }
  }
}
