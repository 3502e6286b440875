/**
 * Maximal marginal relevance: a greedy re-selection of search results
 * that trades a result's relevance to the query against its similarity
 * to the results already chosen. Vectors are abstract: `rel(e)` is the
 * cosine similarity of a (normalised) result vector with the normalised
 * query vector, `sim(e, f)` that of two result vectors.
 */
module Mmr {
  import opened Wrappers
  import opened Seqs

  /** The default of `MAX_MMR_ITEMS`. */
  const DefaultMaxItems: int := 100

  /** The largest similarity of `e` to the chosen vectors; 0 when none is chosen. */
  function MaxSim<V>(sim: (V, V) -> real, e: V, chosen: seq<V>): (r: real)
    ensures chosen == [] ==> r == 0.0
    ensures forall i :: 0 <= i < |chosen| ==> sim(e, chosen[i]) <= r
    ensures chosen != [] ==> exists i :: 0 <= i < |chosen| && r == sim(e, chosen[i])
  {
    if chosen == [] then 0.0
    else if |chosen| == 1 then sim(e, chosen[0])
    else
      var m := MaxSim(sim, e, chosen[..|chosen| - 1]);
      var last := sim(e, chosen[|chosen| - 1]);
      if last > m then last else m
  }

  /** The vectors of the chosen indices, in selection order. */
  function ChosenVectors<V>(embs: seq<V>, selected: seq<nat>): (r: seq<V>)
    requires forall s :: s in selected ==> s < |embs|
    ensures |r| == |selected| && forall i :: 0 <= i < |r| ==> selected[i] in selected && r[i] == embs[selected[i]]
  {
    seq(|selected|, i requires 0 <= i < |selected| => assert selected[i] in selected; embs[selected[i]])
  }

  /** `λ·rel − (1 − λ)·max-sim-to-selected` of candidate `i`. */
  function MmrScore<V>(lambda: real, rel: V -> real, sim: (V, V) -> real, embs: seq<V>, selected: seq<nat>, i: nat): real
    requires i < |embs| && forall s :: s in selected ==> s < |embs|
  {
    lambda * rel(embs[i]) - (1.0 - lambda) * MaxSim(sim, embs[i], ChosenVectors(embs, selected))
  }

  /**
   * `pick` is the greedy choice after `prefix`: an index not yet chosen
   * whose score is the largest, and the smallest such index.
   */
  ghost predicate GreedyPick<V>(lambda: real, rel: V -> real, sim: (V, V) -> real, embs: seq<V>, prefix: seq<nat>, pick: nat)
  {
    (forall s :: s in prefix ==> s < |embs|)
    && pick < |embs| && pick !in prefix
    && (forall j: nat :: j < |embs| && j !in prefix ==>
          MmrScore(lambda, rel, sim, embs, prefix, j) <= MmrScore(lambda, rel, sim, embs, prefix, pick))
    && (forall j: nat :: j < pick && j !in prefix ==>
          MmrScore(lambda, rel, sim, embs, prefix, j) < MmrScore(lambda, rel, sim, embs, prefix, pick))
  }

  /** `argmax`: the first position of the largest score. */
  method ArgMax(scores: seq<real>) returns (best: nat)
    requires scores != []
    ensures best < |scores|
    ensures forall i :: 0 <= i < |scores| ==> scores[i] <= scores[best]
    ensures forall i :: 0 <= i < best ==> scores[i] < scores[best]
  {
    best := 0;
    var i := 1;
    while i < |scores|
      invariant 1 <= i <= |scores| && best < i
      invariant forall j :: 0 <= j < i ==> scores[j] <= scores[best]
      invariant forall j :: 0 <= j < best ==> scores[j] < scores[best]
    {
      if scores[i] > scores[best] {
        best := i;
      }
      i := i + 1;
    }
  }

  /** The indices not yet chosen, in increasing order. */
  ghost predicate IsRemaining(n: nat, selected: seq<nat>, remaining: seq<nat>) {
    (forall p, q :: 0 <= p < q < |remaining| ==> remaining[p] < remaining[q])
    && (forall p :: 0 <= p < |remaining| ==> remaining[p] < n)
    && (forall i: nat :: i < n ==> (i in remaining <==> i !in selected))
  }

  /** The first best position of the remaining list names the greedy pick. */
  lemma PickIsGreedy<V>(lambda: real, rel: V -> real, sim: (V, V) -> real, embs: seq<V>, selected: seq<nat>,
                        remaining: seq<nat>, scores: seq<real>, b: nat)
    requires forall s :: s in selected ==> s < |embs|
    requires IsRemaining(|embs|, selected, remaining)
    requires |scores| == |remaining| && b < |scores|
    requires forall p :: 0 <= p < |remaining| ==> scores[p] == MmrScore(lambda, rel, sim, embs, selected, remaining[p])
    requires forall p :: 0 <= p < |scores| ==> scores[p] <= scores[b]
    requires forall p :: 0 <= p < b ==> scores[p] < scores[b]
    ensures GreedyPick(lambda, rel, sim, embs, selected, remaining[b])
  {
    var pick := remaining[b];
    forall j: nat | j < |embs| && j !in selected
      ensures MmrScore(lambda, rel, sim, embs, selected, j) <= MmrScore(lambda, rel, sim, embs, selected, pick)
      ensures j < pick ==> MmrScore(lambda, rel, sim, embs, selected, j) < MmrScore(lambda, rel, sim, embs, selected, pick)
    {
      var p :| 0 <= p < |remaining| && remaining[p] == j;
      if j < pick {
        assert p < b;
      }
    }
  }

  /** Removing the pick keeps the remaining list in step with the chosen indices. */
  lemma PopRemaining(n: nat, selected: seq<nat>, remaining: seq<nat>, b: nat)
    requires IsRemaining(n, selected, remaining) && b < |remaining|
    ensures IsRemaining(n, selected + [remaining[b]], remaining[..b] + remaining[b + 1..])
  {
    var rest := remaining[..b] + remaining[b + 1..];
    PopSorted(remaining, b);
    assert forall p :: 0 <= p < |rest| ==> rest[p] in remaining;
    PopMembers(n, selected, remaining, b);
  }

  lemma PopSorted(remaining: seq<nat>, b: nat)
    requires b < |remaining|
    requires forall p, q :: 0 <= p < q < |remaining| ==> remaining[p] < remaining[q]
    ensures var rest := remaining[..b] + remaining[b + 1..];
            forall p, q :: 0 <= p < q < |rest| ==> rest[p] < rest[q]
  {
    var rest := remaining[..b] + remaining[b + 1..];
    forall p, q | 0 <= p < q < |rest| ensures rest[p] < rest[q] {
      var p' := if p < b then p else p + 1;
      var q' := if q < b then q else q + 1;
      assert rest[p] == remaining[p'] && rest[q] == remaining[q'];
    }
  }

  lemma PopMembers(n: nat, selected: seq<nat>, remaining: seq<nat>, b: nat)
    requires IsRemaining(n, selected, remaining) && b < |remaining|
    ensures var rest := remaining[..b] + remaining[b + 1..];
            forall i: nat :: i < n ==> (i in rest <==> i !in selected + [remaining[b]])
  {
    var rest := remaining[..b] + remaining[b + 1..];
    forall i: nat | i < n ensures i in rest <==> i !in selected + [remaining[b]] {
      if i in rest {
        var p :| 0 <= p < |rest| && rest[p] == i;
        var p' := if p < b then p else p + 1;
        assert remaining[p'] == i;
        assert p' != b;
        if p' < b { assert remaining[p'] < remaining[b]; } else { assert remaining[b] < remaining[p']; }
      }
      if i in remaining && i != remaining[b] {
        var p :| 0 <= p < |remaining| && remaining[p] == i;
        if p < b { assert rest[p] == i; } else { assert rest[p - 1] == i; }
      }
    }
  }

  /** Every chosen index is the greedy pick after those chosen before it. */
  ghost predicate GreedySequence<V>(lambda: real, rel: V -> real, sim: (V, V) -> real, embs: seq<V>, selected: seq<nat>) {
    forall t :: 0 <= t < |selected| ==> GreedyPick(lambda, rel, sim, embs, selected[..t], selected[t])
  }

  /** Appending the greedy pick extends a greedy sequence, keeping it duplicate-free. */
  lemma GreedyExtend<V>(lambda: real, rel: V -> real, sim: (V, V) -> real, embs: seq<V>, before: seq<nat>, pick: nat)
    requires GreedySequence(lambda, rel, sim, embs, before) && Distinct(before)
    requires GreedyPick(lambda, rel, sim, embs, before, pick)
    ensures GreedySequence(lambda, rel, sim, embs, before + [pick]) && Distinct(before + [pick])
  {
    var after := before + [pick];
    forall t | 0 <= t < |after|
      ensures GreedyPick(lambda, rel, sim, embs, after[..t], after[t])
    {
      if t < |before| {
        assert after[..t] == before[..t];
      } else {
        assert after[..t] == before;
      }
    }
  }

  /**
   * The selection loop: while fewer than `k` indices are chosen and some
   * remain, score every remaining index against the chosen ones and take
   * the first best. The chosen indices are distinct, there are
   * `min(k, n)` of them, and each is the greedy pick after those before it.
   */
  method Select<V>(lambda: real, rel: V -> real, sim: (V, V) -> real, embs: seq<V>, k: int)
    returns (selected: seq<nat>)
    ensures |selected| == Min(Max(k, 0), |embs|)
    ensures Distinct(selected) && forall s :: s in selected ==> s < |embs|
    ensures GreedySequence(lambda, rel, sim, embs, selected)
  {
    selected := [];
    var remaining: seq<nat> := seq(|embs|, i requires 0 <= i < |embs| => i);
    forall i: nat | i < |embs|
      ensures remaining[i] == i && i in remaining
    {
      assert remaining[i] == i;
    }
    while |selected| < k && |remaining| > 0
      invariant forall s :: s in selected ==> s < |embs|
      invariant Distinct(selected)
      invariant IsRemaining(|embs|, selected, remaining)
      invariant |selected| + |remaining| == |embs|
      invariant |selected| <= Max(k, 0)
      invariant GreedySequence(lambda, rel, sim, embs, selected)
      decreases |remaining|
    {
      var scores := seq(|remaining|, p requires 0 <= p < |remaining| => MmrScore(lambda, rel, sim, embs, selected, remaining[p]));
      var b := ArgMax(scores);
      PickIsGreedy(lambda, rel, sim, embs, selected, remaining, scores, b);
      PopRemaining(|embs|, selected, remaining, b);
      GreedyExtend(lambda, rel, sim, embs, selected, remaining[b]);
      selected := selected + [remaining[b]];
      remaining := remaining[..b] + remaining[b + 1..];
    }
  }

  /** The vectors of results that all have one. */
  function Vectors<T, V>(valid: seq<T>, embedding: T -> Option<V>): (r: seq<V>)
    requires forall i :: 0 <= i < |valid| ==> embedding(valid[i]).Some?
    ensures |r| == |valid| && forall i :: 0 <= i < |r| ==> r[i] == embedding(valid[i]).value
  {
    seq(|valid|, i requires 0 <= i < |valid| => embedding(valid[i]).value)
  }

  /**
   * `maximal_marginal_relevance`. `embedding(r)` is a result's vector,
   * `None` when the result has none; `usable(e)` says its norm is
   * positive; `queryNonZero` that the query vector's is. Nothing for no
   * results or `k <= 0`; the results themselves when they fit in `k`;
   * otherwise `k` is capped at `maxItems`, and the first `k` results are
   * returned when some result has no vector, none is usable or the
   * query vector is zero.
   */
  method MaximalMarginalRelevance<T, V>(results: seq<T>, embedding: T -> Option<V>, usable: V -> bool,
                                       queryNonZero: bool, rel: V -> real, sim: (V, V) -> real,
                                       lambda: real, k: int, maxItems: int)
    returns (out: seq<T>)
    ensures results == [] || k <= 0 ==> out == []
    ensures results != [] && 0 < k && |results| <= k ==> out == results
    ensures forall x :: x in out ==> x in results
    ensures maxItems >= 0 ==> |out| <= Max(k, 0)
    ensures results != [] && 0 < k < |results| ==>
              var cap := if k > maxItems then maxItems else k;
              var valid := Filter(results, (r: T) => embedding(r).Some? && usable(embedding(r).value));
              if (exists i :: 0 <= i < |results| && embedding(results[i]).None?) || valid == [] || !queryNonZero
              then out == Take(results, cap)
              else
                |out| == Min(Max(cap, 0), |valid|)
                && exists selected: seq<nat> ::
                     Distinct(selected) && |selected| == |out|
                     && (forall t :: 0 <= t < |selected| ==> selected[t] < |valid| && out[t] == valid[selected[t]])
                     && GreedySequence(lambda, rel, sim, Vectors(valid, embedding), selected)
  {
    if results == [] || k <= 0 {
      return [];
    }
    if |results| <= k {
      return results;
    }
    var cap := if k > maxItems then maxItems else k;
    if exists i :: 0 <= i < |results| && embedding(results[i]).None? {
      return Take(results, cap);
    }
    var valid := Filter(results, (r: T) => embedding(r).Some? && usable(embedding(r).value));
    if valid == [] || !queryNonZero {
      return Take(results, cap);
    }
    var embs := Vectors(valid, embedding);
    var selected := Select(lambda, rel, sim, embs, cap);
    out := seq(|selected|, t requires 0 <= t < |selected| => valid[selected[t]]);
    forall x | x in out ensures x in results {
      var t :| 0 <= t < |out| && out[t] == x;
      assert valid[selected[t]] in results;
    }
  }

  /**
   * The first greedy pick is the most relevant usable result, whenever
   * relevance has positive weight.
   */
  lemma FirstPickMostRelevant<V>(lambda: real, rel: V -> real, sim: (V, V) -> real, embs: seq<V>, pick: nat)
    requires 0.0 < lambda
    requires GreedyPick(lambda, rel, sim, embs, [], pick)
    ensures forall j :: 0 <= j < |embs| ==> rel(embs[j]) <= rel(embs[pick])
  {
    forall j | 0 <= j < |embs| ensures rel(embs[j]) <= rel(embs[pick]) {
      assert MmrScore(lambda, rel, sim, embs, [], j) <= MmrScore(lambda, rel, sim, embs, [], pick);
      assert ChosenVectors(embs, []) == [];
      ScaleLe(lambda, rel(embs[j]), rel(embs[pick]));
    }
  }

  lemma ScaleLe(c: real, a: real, b: real)
    requires 0.0 < c && c * a <= c * b
    ensures a <= b
  {
  }

  /** `λ = clamp(1 − diversity_weight, 0, 1)`. */
  function MmrLambda(diversityWeight: real): (r: real)
    ensures 0.0 <= r <= 1.0
    ensures 0.0 <= diversityWeight <= 1.0 ==> r == 1.0 - diversityWeight
    ensures diversityWeight >= 1.0 ==> r == 0.0
    ensures diversityWeight <= 0.0 ==> r == 1.0
  {
    var l := 1.0 - diversityWeight;
    if l > 1.0 then 1.0 else if l < 0.0 then 0.0 else l
  }

  /** `mmr_rerank`: MMR with `λ = clamp(1 − diversity_weight, 0, 1)` and `k = top_k`. */
  method MmrRerank<T, V>(results: seq<T>, embedding: T -> Option<V>, usable: V -> bool, queryNonZero: bool,
                         rel: V -> real, sim: (V, V) -> real, diversityWeight: real, topK: int, maxItems: int)
    returns (out: seq<T>)
    ensures results == [] || topK <= 0 ==> out == []
    ensures results != [] && 0 < topK && |results| <= topK ==> out == results
    ensures forall x :: x in out ==> x in results
    ensures |out| <= |results|
    ensures maxItems >= 0 ==> |out| <= Max(topK, 0)
    ensures results != [] && 0 < topK < |results| ==>
              var cap := if topK > maxItems then maxItems else topK;
              var valid := Filter(results, (r: T) => embedding(r).Some? && usable(embedding(r).value));
              if (exists i :: 0 <= i < |results| && embedding(results[i]).None?) || valid == [] || !queryNonZero
              then out == Take(results, cap)
              else
                |out| == Min(Max(cap, 0), |valid|)
                && exists selected: seq<nat> ::
                     Distinct(selected) && |selected| == |out|
                     && (forall t :: 0 <= t < |selected| ==> selected[t] < |valid| && out[t] == valid[selected[t]])
                     && GreedySequence(MmrLambda(diversityWeight), rel, sim, Vectors(valid, embedding), selected)
  {
    out := MaximalMarginalRelevance(results, embedding, usable, queryNonZero, rel, sim, MmrLambda(diversityWeight), topK, maxItems);
  }
}
