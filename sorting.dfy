/**
 * Python's `sorted(xs, key=..., reverse=True)`: a stable sort in
 * descending order. `ge(a, b)` says that `a` may stay ahead of `b`
 * (its key is at least `b`'s); elements whose keys tie keep their input
 * order, as Python guarantees for `reverse=True` too.
 */
module Sorting {
  import opened Seqs

  ghost predicate Total<T(!new)>(ge: (T, T) -> bool) {
    forall a, b :: ge(a, b) || ge(b, a)
  }

  ghost predicate Transitive<T(!new)>(ge: (T, T) -> bool) {
    forall a, b, c :: ge(a, b) && ge(b, c) ==> ge(a, c)
  }

  ghost predicate Preorder<T(!new)>(ge: (T, T) -> bool) {
    Total(ge) && Transitive(ge)
  }

  ghost predicate SortedBy<T>(s: seq<T>, ge: (T, T) -> bool) {
    forall i, j :: 0 <= i < j < |s| ==> ge(s[i], s[j])
  }

  /** Places `x` after every element of `s` that may stay ahead of it. */
  function Insert<T>(x: T, s: seq<T>, ge: (T, T) -> bool): seq<T> {
    if s == [] then [x]
    else if ge(s[0], x) then [s[0]] + Insert(x, s[1..], ge)
    else [x] + s
  }

  /** Insertion sort, inserting the input elements one by one in input order. */
  function Sort<T>(xs: seq<T>, ge: (T, T) -> bool): seq<T> {
    if xs == [] then []
    else Insert(xs[|xs| - 1], Sort(xs[..|xs| - 1], ge), ge)
  }

  /** `a` and `b` tie: neither sorts strictly ahead of the other. */
  predicate Tie<T>(a: T, b: T, ge: (T, T) -> bool) {
    ge(a, b) && ge(b, a)
  }

  /** The elements of `xs` that tie with `v`, in order. */
  function Ties<T>(xs: seq<T>, v: T, ge: (T, T) -> bool): seq<T> {
    if xs == [] then []
    else Ties(xs[..|xs| - 1], v, ge) + (if Tie(xs[|xs| - 1], v, ge) then [xs[|xs| - 1]] else [])
  }

  lemma {:induction false} InsertPermutes<T>(x: T, s: seq<T>, ge: (T, T) -> bool)
    ensures multiset(Insert(x, s, ge)) == multiset(s) + multiset{x}
    decreases |s|
  {
    if s != [] && ge(s[0], x) {
      InsertPermutes(x, s[1..], ge);
      assert s == [s[0]] + s[1..];
    }
  }

  /** Sorting rearranges the input: same elements, same multiplicities. */
  lemma {:induction false} SortPermutes<T>(xs: seq<T>, ge: (T, T) -> bool)
    ensures multiset(Sort(xs, ge)) == multiset(xs)
    ensures |Sort(xs, ge)| == |xs|
    decreases |xs|
  {
    if xs != [] {
      SortPermutes(xs[..|xs| - 1], ge);
      InsertPermutes(xs[|xs| - 1], Sort(xs[..|xs| - 1], ge), ge);
      assert xs == xs[..|xs| - 1] + [xs[|xs| - 1]];
    }
    assert |multiset(Sort(xs, ge))| == |Sort(xs, ge)|;
  }

  /** Sorting keeps exactly the input's elements. */
  lemma SortMembers<T>(xs: seq<T>, ge: (T, T) -> bool)
    ensures forall x :: x in Sort(xs, ge) <==> x in xs
  {
    SortPermutes(xs, ge);
    forall x ensures x in Sort(xs, ge) <==> x in xs {
      assert x in Sort(xs, ge) <==> x in multiset(Sort(xs, ge));
      assert x in xs <==> x in multiset(xs);
    }
  }

  lemma {:induction false} InsertSorted<T(!new)>(x: T, s: seq<T>, ge: (T, T) -> bool)
    requires Preorder(ge) && SortedBy(s, ge)
    ensures SortedBy(Insert(x, s, ge), ge)
    decreases |s|
  {
    if s != [] {
      if ge(s[0], x) {
        var t := s[1..];
        InsertSorted(x, t, ge);
        InsertPermutes(x, t, ge);
        var r := Insert(x, t, ge);
        forall j | 0 <= j < |r| ensures ge(s[0], r[j]) {
          assert r[j] in multiset(r);
          assert r[j] == x || r[j] in multiset(t);
          if r[j] != x {
            var k :| 0 <= k < |t| && t[k] == r[j];
            assert s[k + 1] == r[j];
          }
        }
      } else {
        assert ge(x, s[0]);
      }
    }
  }

  /** The sorted output is in non-increasing order. */
  lemma {:induction false} SortSorted<T(!new)>(xs: seq<T>, ge: (T, T) -> bool)
    requires Preorder(ge)
    ensures SortedBy(Sort(xs, ge), ge)
    decreases |xs|
  {
    if xs != [] {
      SortSorted(xs[..|xs| - 1], ge);
      InsertSorted(xs[|xs| - 1], Sort(xs[..|xs| - 1], ge), ge);
    }
  }

  lemma {:induction false} TiesCons<T>(a: T, s: seq<T>, v: T, ge: (T, T) -> bool)
    ensures Ties([a] + s, v, ge) == (if Tie(a, v, ge) then [a] else []) + Ties(s, v, ge)
    decreases |s|
  {
    if s != [] {
      var s' := s[..|s| - 1];
      TiesCons(a, s', v, ge);
      assert ([a] + s)[..|s|] == [a] + s';
    }
  }

  lemma {:induction false} TiesNone<T(!new)>(x: T, s: seq<T>, v: T, ge: (T, T) -> bool)
    requires Preorder(ge) && SortedBy([x] + s, ge) && Tie(x, v, ge) && s != [] && !ge(s[0], x)
    ensures Ties(s, v, ge) == []
    decreases |s|
  {
    var s' := s[..|s| - 1];
    if |s| > 1 {
      assert ([x] + s)[1] == s[0] && ([x] + s)[|s|] == s[|s| - 1];
      assert ge(s[0], s[|s| - 1]);
    }
    assert !Tie(s[|s| - 1], v, ge);
    if s' != [] {
      assert SortedBy([x] + s', ge) by {
        forall i, j | 0 <= i < j < |s'| + 1 ensures ge(([x] + s')[i], ([x] + s')[j]) {
          assert ([x] + s')[i] == ([x] + s)[i] && ([x] + s')[j] == ([x] + s)[j];
        }
      }
      TiesNone(x, s', v, ge);
    }
  }

  lemma {:induction false} InsertTies<T(!new)>(x: T, s: seq<T>, v: T, ge: (T, T) -> bool)
    requires Preorder(ge) && SortedBy(s, ge)
    ensures Ties(Insert(x, s, ge), v, ge) == Ties(s, v, ge) + (if Tie(x, v, ge) then [x] else [])
    decreases |s|
  {
    if s == [] {
      assert Ties([x], v, ge) == Ties([], v, ge) + (if Tie(x, v, ge) then [x] else []);
    } else if ge(s[0], x) {
      InsertTies(x, s[1..], v, ge);
      TiesCons(s[0], Insert(x, s[1..], ge), v, ge);
      TiesCons(s[0], s[1..], v, ge);
      assert s == [s[0]] + s[1..];
    } else {
      TiesCons(x, s, v, ge);
      if Tie(x, v, ge) {
        assert SortedBy([x] + s, ge) by {
          forall i, j | 0 <= i < j < |s| + 1 ensures ge(([x] + s)[i], ([x] + s)[j]) {
            if i == 0 {
              assert ge(x, s[0]);
              if j > 1 { assert ge(s[0], s[j - 1]); }
            }
          }
        }
        TiesNone(x, s, v, ge);
      }
    }
  }

  /**
   * Stability: the elements that tie with any `v` appear in the sorted
   * output in exactly their input order.
   */
  lemma {:induction false} SortStable<T(!new)>(xs: seq<T>, v: T, ge: (T, T) -> bool)
    requires Preorder(ge)
    ensures Ties(Sort(xs, ge), v, ge) == Ties(xs, v, ge)
    decreases |xs|
  {
    if xs != [] {
      var init := xs[..|xs| - 1];
      SortStable(init, v, ge);
      SortSorted(init, ge);
      InsertTies(xs[|xs| - 1], Sort(init, ge), v, ge);
    }
  }

  /** Filtering keeps a sorted sequence sorted. */
  lemma {:induction false} FilterSorted<T>(xs: seq<T>, p: T -> bool, ge: (T, T) -> bool)
    requires SortedBy(xs, ge)
    ensures SortedBy(Filter(xs, p), ge)
    decreases |xs|
  {
    if xs != [] {
      var rest := xs[1..];
      assert SortedBy(rest, ge) by {
        forall i, j | 0 <= i < j < |rest| ensures ge(rest[i], rest[j]) {
          assert rest[i] == xs[i + 1] && rest[j] == xs[j + 1];
        }
      }
      FilterSorted(rest, p, ge);
      var f := Filter(rest, p);
      forall j | 0 <= j < |f| ensures ge(xs[0], f[j]) {
        var k :| 0 <= k < |rest| && rest[k] == f[j];
        assert xs[k + 1] == f[j];
      }
    }
  }

  /** Filtering keeps a duplicate-free sequence duplicate-free. */
  lemma {:induction false} FilterDistinct<T>(xs: seq<T>, p: T -> bool)
    requires Distinct(xs)
    ensures Distinct(Filter(xs, p))
    decreases |xs|
  {
    if xs != [] {
      var rest := xs[1..];
      FilterDistinct(rest, p);
      var f := Filter(rest, p);
      forall j | 0 <= j < |f| ensures f[j] != xs[0] {
        var k :| 0 <= k < |rest| && rest[k] == f[j];
        assert xs[k + 1] == f[j];
      }
    }
  }

  /** An element that every element of `s` may stay ahead of goes last. */
  lemma {:induction false} InsertAfterAll<T>(x: T, s: seq<T>, ge: (T, T) -> bool)
    requires forall k :: 0 <= k < |s| ==> ge(s[k], x)
    ensures Insert(x, s, ge) == s + [x]
    decreases |s|
  {
    if s != [] {
      InsertAfterAll(x, s[1..], ge);
      assert s == [s[0]] + s[1..];
    }
  }

  /** When all elements tie, sorting keeps the input order. */
  lemma {:induction false} SortAllTied<T>(xs: seq<T>, ge: (T, T) -> bool)
    requires forall i, j :: 0 <= i < |xs| && 0 <= j < |xs| ==> ge(xs[i], xs[j])
    ensures Sort(xs, ge) == xs
    decreases |xs|
  {
    if xs != [] {
      var init := xs[..|xs| - 1];
      SortAllTied(init, ge);
      InsertAfterAll(xs[|xs| - 1], init, ge);
      assert init + [xs[|xs| - 1]] == xs;
    }
  }
}
