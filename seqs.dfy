/**
 * List idioms used throughout the server: Python slicing `xs[:n]`,
 * "first occurrence wins" de-duplication by a key, and order-preserving
 * subsequences.
 */
module Seqs {

  /** `xs[:n]` with Python's slice semantics (a negative `n` counts from the end). */
  function Take<T>(xs: seq<T>, n: int): (r: seq<T>)
    ensures |r| <= |xs| && r == xs[..|r|]
    ensures n >= 0 ==> |r| == (if n < |xs| then n else |xs|)
  {
    if n >= 0 then (if n < |xs| then xs[..n] else xs)
    else if |xs| + n > 0 then xs[..|xs| + n]
    else []
  }

  /** `xs[n:]` with Python's slice semantics (a negative `n` counts from the end). */
  function Drop<T>(xs: seq<T>, n: int): (r: seq<T>)
    ensures |r| <= |xs| && r == xs[|xs| - |r|..]
  {
    if n >= 0 then (if n < |xs| then xs[n..] else [])
    else if |xs| + n > 0 then xs[|xs| + n..]
    else xs
  }

  function Min(a: int, b: int): int { if a <= b then a else b }

  function Max(a: int, b: int): int { if a >= b then a else b }

  // ---------------------------------------------------------------------
  // Keys and de-duplication
  // ---------------------------------------------------------------------

  function Keys<T, K>(xs: seq<T>, key: T -> K): (r: seq<K>)
    ensures |r| == |xs|
    ensures forall i :: 0 <= i < |xs| ==> r[i] == key(xs[i])
  {
    seq(|xs|, i requires 0 <= i < |xs| => key(xs[i]))
  }

  predicate DistinctKeys<T, K(==)>(xs: seq<T>, key: T -> K) {
    forall i, j :: 0 <= i < j < |xs| ==> key(xs[i]) != key(xs[j])
  }

  predicate Distinct<T(==)>(xs: seq<T>) {
    forall i, j :: 0 <= i < j < |xs| ==> xs[i] != xs[j]
  }

  /** The first element of `xs` whose key is `k`. */
  function FirstWithKey<T, K(==)>(xs: seq<T>, key: T -> K, k: K): T
    requires k in Keys(xs, key)
  {
    if key(xs[0]) == k then xs[0] else FirstWithKey(xs[1..], key, k)
  }

  /**
   * Keeps the first element for each key, in input order: the loop
   * `for x in xs: if key(x) not in seen: seen.add(key(x)); out.append(x)`.
   */
  function DedupBy<T, K(==)>(xs: seq<T>, key: T -> K): seq<T>
  {
    if xs == [] then []
    else
      var d := DedupBy(xs[..|xs| - 1], key);
      if key(xs[|xs| - 1]) in Keys(d, key) then d else d + [xs[|xs| - 1]]
  }

  /** `list(dict.fromkeys(xs))`: the distinct values in first-seen order. */
  function Dedup<T(==)>(xs: seq<T>): seq<T>
  {
    if xs == [] then []
    else
      var d := Dedup(xs[..|xs| - 1]);
      if xs[|xs| - 1] in d then d else d + [xs[|xs| - 1]]
  }

  /** De-duplication keeps exactly the values of the input, once each, in first-seen order. */
  lemma {:induction false} DedupProperties<T(!new)>(xs: seq<T>)
    ensures Distinct(Dedup(xs))
    ensures forall x :: x in Dedup(xs) <==> x in xs
    ensures IsSubseq(Dedup(xs), xs)
    ensures |Dedup(xs)| <= |xs|
    ensures xs != [] ==> Dedup(xs)[0] == xs[0]
    decreases |xs|
  {
    if xs == [] {
      assert Embeds(Dedup(xs), xs, []);
    } else {
      var init := xs[..|xs| - 1];
      var last := xs[|xs| - 1];
      var d := Dedup(init);
      DedupProperties(init);
      assert xs == init + [last];
      var idx: seq<nat> :| Embeds(d, init, idx);
      EmbedsExtend(d, init, idx, last);
      if last in d {
        assert Embeds(Dedup(xs), xs, idx);
      } else {
        assert Embeds(Dedup(xs), xs, idx + [|init|]);
      }
      if init == [] {
        assert Dedup(xs) == [last];
      }
    }
  }

  lemma {:induction false} DistinctCount<T>(a: seq<T>, x: T)
    requires Distinct(a)
    ensures multiset(a)[x] <= 1
    decreases |a|
  {
    if a != [] {
      var init := a[..|a| - 1];
      DistinctCount(init, x);
      assert a == init + [a[|a| - 1]];
      if a[|a| - 1] == x {
        assert x !in init;
      }
    }
  }

  lemma TwoPositions<T>(b: seq<T>, i: nat, j: nat)
    requires i < j < |b|
    ensures b[i] == b[j] ==> multiset(b)[b[j]] >= 2
  {
    assert b == b[..j] + [b[j]] + b[j + 1..];
    assert b[i] in b[..j];
  }

  /** A prefix of a duplicate-free list is duplicate-free. */
  lemma DistinctPrefix<T>(xs: seq<T>, n: nat)
    requires Distinct(xs) && n <= |xs|
    ensures Distinct(xs[..n])
  {
    assert forall i :: 0 <= i < n ==> xs[..n][i] == xs[i];
  }

  /** A rearrangement of a duplicate-free sequence is duplicate-free. */
  lemma DistinctPerm<T>(a: seq<T>, b: seq<T>)
    requires Distinct(a) && multiset(a) == multiset(b)
    ensures Distinct(b)
  {
    forall i, j | 0 <= i < j < |b| ensures b[i] != b[j] {
      TwoPositions(b, i, j);
      DistinctCount(a, b[j]);
    }
  }

  /** `a` is `b` with some elements removed, order preserved; `idx` says where each element came from. */
  ghost predicate Embeds<T>(a: seq<T>, b: seq<T>, idx: seq<nat>) {
    |idx| == |a|
    && (forall i :: 0 <= i < |idx| ==> idx[i] < |b| && b[idx[i]] == a[i])
    && (forall i, j :: 0 <= i < j < |idx| ==> idx[i] < idx[j])
  }

  ghost predicate IsSubseq<T>(a: seq<T>, b: seq<T>) {
    exists idx: seq<nat> :: Embeds(a, b, idx)
  }

  lemma EmbedsExtend<T>(a: seq<T>, b: seq<T>, idx: seq<nat>, x: T)
    requires Embeds(a, b, idx)
    ensures Embeds(a, b + [x], idx)
    ensures Embeds(a + [x], b + [x], idx + [|b|])
  {
  }

  function Shift(idx: seq<nat>): (r: seq<nat>)
    ensures |r| == |idx| && forall i :: 0 <= i < |idx| ==> r[i] == idx[i] + 1
  {
    seq(|idx|, i requires 0 <= i < |idx| => idx[i] + 1)
  }

  lemma EmbedsCons<T>(a: seq<T>, b: seq<T>, idx: seq<nat>, x: T)
    requires Embeds(a, b, idx)
    ensures Embeds(a, [x] + b, Shift(idx))
    ensures Embeds([x] + a, [x] + b, [0] + Shift(idx))
  {
  }

  /** The elements of `xs` satisfying `p`, in order: `[x for x in xs if p(x)]`. */
  function Filter<T>(xs: seq<T>, p: T -> bool): (r: seq<T>)
    ensures forall i :: 0 <= i < |r| ==> r[i] in xs && p(r[i])
    ensures forall i :: 0 <= i < |xs| && p(xs[i]) ==> xs[i] in r
    ensures |r| <= |xs|
  {
    if xs == [] then []
    else (if p(xs[0]) then [xs[0]] else []) + Filter(xs[1..], p)
  }

  /** Filtering keeps every element that passes as often as it occurs, and no other. */
  lemma {:induction false} FilterMultiset<T>(xs: seq<T>, p: T -> bool, w: T)
    ensures multiset(Filter(xs, p))[w] == if p(w) then multiset(xs)[w] else 0
    decreases |xs|
  {
    if xs != [] {
      FilterMultiset(xs[1..], p, w);
      assert xs == [xs[0]] + xs[1..];
    }
  }

  /** Filtering with a stronger condition keeps a subsequence of the weaker filter's output. */
  lemma {:induction false} FilterSubseq<T>(xs: seq<T>, p: T -> bool, q: T -> bool)
    requires forall x :: p(x) ==> q(x)
    ensures IsSubseq(Filter(xs, p), Filter(xs, q))
    decreases |xs|
  {
    if xs == [] {
      assert Embeds(Filter(xs, p), Filter(xs, q), []);
    } else {
      FilterSubseq(xs[1..], p, q);
      var a := Filter(xs[1..], p);
      var b := Filter(xs[1..], q);
      var idx: seq<nat> :| Embeds(a, b, idx);
      EmbedsCons(a, b, idx, xs[0]);
      if p(xs[0]) {
        assert Filter(xs, p) == [xs[0]] + a && Filter(xs, q) == [xs[0]] + b;
        assert Embeds(Filter(xs, p), Filter(xs, q), [0] + Shift(idx));
      } else if q(xs[0]) {
        assert Filter(xs, p) == a && Filter(xs, q) == [xs[0]] + b;
        assert Embeds(Filter(xs, p), Filter(xs, q), Shift(idx));
      } else {
        assert Filter(xs, p) == a && Filter(xs, q) == b;
        assert Embeds(Filter(xs, p), Filter(xs, q), idx);
      }
    }
  }

  /** A filter's output is an ordered subsequence of its input. */
  lemma FilterIsSubseq<T>(xs: seq<T>, p: T -> bool)
    ensures IsSubseq(Filter(xs, p), xs)
  {
    FilterSubseq(xs, p, x => true);
    FilterAll(xs);
  }

  lemma {:induction false} FilterAll<T>(xs: seq<T>)
    ensures Filter(xs, x => true) == xs
    decreases |xs|
  {
    if xs != [] {
      FilterAll(xs[1..]);
    }
  }

  /** The result of DedupBy, with its provenance: an ordered subsequence of the input. */
  lemma {:induction false} DedupByProperties<T, K(!new)>(xs: seq<T>, key: T -> K)
    ensures DistinctKeys(DedupBy(xs, key), key)
    ensures forall k :: k in Keys(DedupBy(xs, key), key) <==> k in Keys(xs, key)
    ensures IsSubseq(DedupBy(xs, key), xs)
    ensures forall x :: x in DedupBy(xs, key) ==> x == FirstWithKey(xs, key, key(x))
    decreases |xs|
  {
    if xs == [] {
      assert Embeds(DedupBy(xs, key), xs, []);
    } else {
      var init := xs[..|xs| - 1];
      var last := xs[|xs| - 1];
      var d := DedupBy(init, key);
      DedupByProperties(init, key);
      assert forall k :: k in Keys(d, key) <==> k in Keys(init, key);
      assert xs == init + [last];
      var idx: seq<nat> :| Embeds(d, init, idx);
      forall k ensures k in Keys(xs, key) <==> k in Keys(init, key) || k == key(last) {
        if k in Keys(xs, key) {
          var i :| 0 <= i < |xs| && Keys(xs, key)[i] == k;
          if i < |init| { assert Keys(init, key)[i] == k; }
        }
        if k in Keys(init, key) {
          var i :| 0 <= i < |init| && Keys(init, key)[i] == k;
          assert Keys(xs, key)[i] == k;
        }
        if k == key(last) { assert Keys(xs, key)[|xs| - 1] == k; }
      }
      forall x | x in d ensures x == FirstWithKey(xs, key, key(x)) {
        FirstWithKeyExtend(init, key, key(x), last);
      }
      EmbedsExtend(d, init, idx, last);
      var kl := key(last);
      assert kl in Keys(d, key) <==> kl in Keys(init, key);
      if kl in Keys(d, key) {
        assert DedupBy(xs, key) == d;
        assert key(last) in Keys(init, key);
        assert Embeds(DedupBy(xs, key), xs, idx);
      } else {
        assert DedupBy(xs, key) == d + [last];
        assert kl !in Keys(init, key);
        FirstWithKeyNew(init, key, last);
        assert Keys(d + [last], key) == Keys(d, key) + [key(last)];
        assert Embeds(DedupBy(xs, key), xs, idx + [|init|]);
        forall i, j | 0 <= i < j < |d| + 1 ensures key((d + [last])[i]) != key((d + [last])[j]) {
          if j == |d| { assert Keys(d, key)[i] == key(d[i]); }
        }
      }
    }
  }

  lemma {:induction false} FirstWithKeyExtend<T, K(!new)>(xs: seq<T>, key: T -> K, k: K, x: T)
    requires k in Keys(xs, key)
    ensures k in Keys(xs + [x], key)
    ensures FirstWithKey(xs + [x], key, k) == FirstWithKey(xs, key, k)
    decreases |xs|
  {
    assert Keys(xs + [x], key)[..|xs|] == Keys(xs, key);
    if key(xs[0]) != k {
      assert (xs + [x])[1..] == xs[1..] + [x];
      assert k in Keys(xs[1..], key) by {
        var i :| 0 <= i < |xs| && Keys(xs, key)[i] == k;
        assert Keys(xs[1..], key)[i - 1] == k;
      }
      FirstWithKeyExtend(xs[1..], key, k, x);
    }
  }

  lemma {:induction false} FirstWithKeyNew<T, K(!new)>(xs: seq<T>, key: T -> K, x: T)
    requires key(x) !in Keys(xs, key)
    ensures key(x) in Keys(xs + [x], key)
    ensures FirstWithKey(xs + [x], key, key(x)) == x
    decreases |xs|
  {
    assert Keys(xs + [x], key)[|xs|] == key(x);
    if xs != [] {
      assert key(xs[0]) != key(x) by { assert Keys(xs, key)[0] == key(xs[0]); }
      assert (xs + [x])[1..] == xs[1..] + [x];
      forall i | 0 <= i < |xs| - 1 ensures Keys(xs[1..], key)[i] != key(x) {
        assert Keys(xs, key)[i + 1] != key(x);
      }
      FirstWithKeyNew(xs[1..], key, x);
    }
  }

  /** `DedupBy` of a sequence extended by one element. */
  lemma DedupBySnoc<T, K>(xs: seq<T>, x: T, key: T -> K)
    ensures DedupBy(xs + [x], key)
         == if key(x) in Keys(DedupBy(xs, key), key) then DedupBy(xs, key) else DedupBy(xs, key) + [x]
  {
    assert (xs + [x])[..|xs|] == xs;
  }

  /** One step of the "first occurrence wins" loop, with `seen` the keys kept so far. */
  lemma DedupByStep<T, K(!new)>(prefix: seq<T>, x: T, key: T -> K, out: seq<T>, seen: set<K>)
    requires out == DedupBy(prefix, key)
    requires forall k :: k in seen <==> k in Keys(out, key)
    ensures key(x) in seen ==> DedupBy(prefix + [x], key) == out
    ensures key(x) !in seen ==>
              DedupBy(prefix + [x], key) == out + [x]
              && forall k :: k in seen + {key(x)} <==> k in Keys(out + [x], key)
  {
    DedupBySnoc(prefix, x, key);
    var kx := key(x);
    assert kx in seen <==> kx in Keys(out, key);
    assert Keys(out + [x], key) == Keys(out, key) + [kx];
  }

  /**
   * The "first occurrence wins" loop over one more batch: given the output
   * so far for `done` and the set of its keys, appends the elements of
   * `batch` whose key is not yet seen.
   */
  method AppendUnseen<T, K(!new)>(out: seq<T>, seen: set<K>, batch: seq<T>, key: T -> K, ghost done: seq<T>)
    returns (out': seq<T>, seen': set<K>)
    requires out == DedupBy(done, key)
    requires forall k :: k in seen <==> k in Keys(out, key)
    ensures out' == DedupBy(done + batch, key)
    ensures forall k :: k in seen' <==> k in Keys(out', key)
  {
    out', seen' := out, seen;
    var j := 0;
    assert done + batch[..0] == done;
    while j < |batch|
      invariant 0 <= j <= |batch|
      invariant out' == DedupBy(done + batch[..j], key)
      invariant forall k :: k in seen' <==> k in Keys(out', key)
    {
      var x := batch[j];
      assert batch[..j + 1] == batch[..j] + [x];
      assert done + batch[..j + 1] == (done + batch[..j]) + [x];
      DedupByStep(done + batch[..j], x, key, out', seen');
      if key(x) !in seen' {
        seen' := seen' + {key(x)};
        out' := out' + [x];
      }
      j := j + 1;
    }
    assert batch[..j] == batch;
  }

  /** A non-empty list is its front followed by its last element. */
  lemma InitLast<T>(xs: seq<T>)
    requires xs != []
    ensures xs == xs[..|xs| - 1] + [xs[|xs| - 1]]
  {
  }

  /** The concatenation of a list of lists: `[x for xs in xss for x in xs]`. */
  function Concat<T>(xss: seq<seq<T>>): seq<T>
  {
    if xss == [] then [] else Concat(xss[..|xss| - 1]) + xss[|xss| - 1]
  }

  lemma ConcatSnoc<T>(xss: seq<seq<T>>, x: seq<T>)
    ensures Concat(xss + [x]) == Concat(xss) + x
  {
    assert (xss + [x])[..|xss|] == xss;
  }

  lemma {:induction false} ConcatCons<T>(x: seq<T>, xss: seq<seq<T>>)
    ensures Concat([x] + xss) == x + Concat(xss)
    decreases |xss|
  {
    if xss == [] {
      assert ([x] + xss)[..0] == [];
    } else {
      var init := xss[..|xss| - 1];
      ConcatCons(x, init);
      assert [x] + xss == ([x] + init) + [xss[|xss| - 1]];
      ConcatSnoc([x] + init, xss[|xss| - 1]);
    }
  }

  /** Distinct keys make distinct elements. */
  lemma DistinctKeysDistinct<T, K>(xs: seq<T>, key: T -> K)
    requires DistinctKeys(xs, key)
    ensures Distinct(xs)
  {
    forall i, j | 0 <= i < j < |xs| ensures xs[i] != xs[j] {
      assert key(xs[i]) != key(xs[j]);
    }
  }

  /** A rearrangement of a list with distinct keys has distinct keys. */
  lemma DistinctKeysPerm<T, K>(a: seq<T>, b: seq<T>, key: T -> K)
    requires DistinctKeys(a, key) && multiset(a) == multiset(b)
    ensures DistinctKeys(b, key)
  {
    DistinctKeysDistinct(a, key);
    forall i, j | 0 <= i < j < |b| ensures key(b[i]) != key(b[j]) {
      assert b[i] in multiset(a) && b[j] in multiset(a);
      var p :| 0 <= p < |a| && a[p] == b[i];
      var q :| 0 <= q < |a| && a[q] == b[j];
      if key(b[i]) == key(b[j]) {
        assert p == q;
        TwoPositions(b, i, j);
        DistinctCount(a, b[j]);
      }
    }
  }

  /** A subsequence of a subsequence is a subsequence. */
  lemma SubseqTrans<T>(a: seq<T>, b: seq<T>, c: seq<T>)
    requires IsSubseq(a, b) && IsSubseq(b, c)
    ensures IsSubseq(a, c)
  {
    var i1: seq<nat> :| Embeds(a, b, i1);
    var i2: seq<nat> :| Embeds(b, c, i2);
    var idx: seq<nat> := seq(|i1|, k requires 0 <= k < |i1| => i2[i1[k]]);
    assert Embeds(a, c, idx);
  }

  /** Filtering a list with one more element at the end. */
  lemma {:induction false} FilterSnoc<T>(xs: seq<T>, x: T, p: T -> bool)
    ensures Filter(xs + [x], p) == Filter(xs, p) + (if p(x) then [x] else [])
    decreases |xs|
  {
    if xs == [] {
      assert xs + [x] == [x];
    } else {
      assert (xs + [x])[1..] == xs[1..] + [x];
      FilterSnoc(xs[1..], x, p);
    }
  }

  /** Filtering a concatenation filters each part. */
  lemma {:induction false} FilterAppend<T>(a: seq<T>, b: seq<T>, p: T -> bool)
    ensures Filter(a + b, p) == Filter(a, p) + Filter(b, p)
    decreases |a|
  {
    if a == [] {
      assert a + b == b;
    } else {
      assert (a + b)[1..] == a[1..] + b;
      FilterAppend(a[1..], b, p);
    }
  }

  /** A prefix is a subsequence. */
  lemma PrefixSubseq<T>(xs: seq<T>, n: nat)
    requires n <= |xs|
    ensures IsSubseq(xs[..n], xs)
  {
    assert Embeds(xs[..n], xs, seq(n, i requires 0 <= i < n => i));
  }

  /** The elements of a subsequence are elements of the whole. */
  lemma SubseqMembers<T>(a: seq<T>, b: seq<T>, x: T)
    requires IsSubseq(a, b) && x in a
    ensures x in b
  {
    var idx: seq<nat> :| Embeds(a, b, idx);
    var i :| 0 <= i < |a| && a[i] == x;
    assert b[idx[i]] == x;
  }
}
