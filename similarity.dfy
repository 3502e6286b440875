/**
 * Jaccard similarity of two finite sets, `|a ∩ b| / |a ∪ b|`, as used for
 * word sets and page-id sets throughout the server.
 */
module Similarity {

  /** A subset is no larger than its superset, and strictly smaller when proper. */
  lemma {:induction false} SubsetCard<T>(a: set<T>, b: set<T>)
    requires a <= b
    ensures |a| <= |b|
    ensures a != b ==> |a| < |b|
    decreases |b|
  {
    if a != b {
      var x :| x in b && x !in a;
      assert b - {x} + {x} == b;
      SubsetCard(a, b - {x});
    }
  }

  lemma IntersectionFitsUnion<T>(a: set<T>, b: set<T>)
    ensures |a * b| <= |a + b|
    ensures |a * b| == |a + b| ==> a == b
  {
    SubsetCard(a * b, a + b);
  }

  /** The Jaccard similarity; `0` when both sets are empty. */
  function Jaccard<T>(a: set<T>, b: set<T>): (r: real)
    ensures 0.0 <= r <= 1.0
    ensures r == 1.0 ==> a == b
    ensures a * b == {} ==> r == 0.0
  {
    IntersectionFitsUnion(a, b);
    if |a + b| == 0 then 0.0 else (|a * b| as real) / (|a + b| as real)
  }

  /** Similarity does not depend on the order of its arguments. */
  lemma JaccardSymmetric<T>(a: set<T>, b: set<T>)
    ensures Jaccard(a, b) == Jaccard(b, a)
  {
    assert a * b == b * a && a + b == b + a;
  }

  /** A non-empty set is fully similar to itself. */
  lemma JaccardSelf<T>(a: set<T>)
    requires a != {}
    ensures Jaccard(a, a) == 1.0
  {
    assert a * a == a && a + a == a;
  }
}
