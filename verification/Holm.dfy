/**
Holm's step-down correction, as the comparison script computes it: sort the p-values, scale
each by the number of hypotheses not yet passed, and carry a running maximum.

P-values are exact reals in place of the script's floats.
 */
module Holm {
  import opened FiniteSets

  function Min(x: real, y: real): real { if x <= y then x else y }

  function Max(x: real, y: real): real { if x >= y then x else y }

  predicate NonNegative(ps: seq<real>) { forall i :: 0 <= i < |ps| ==> ps[i] >= 0.0 }

  // ----- Sorted orders -----------------------------------------------------------------------

  /** order lists every index of ps once, by ascending p-value. */
  predicate SortedOrder(ps: seq<real>, order: seq<nat>) {
    |order| == |ps|
    && (forall r :: 0 <= r < |order| ==> order[r] < |ps|)
    && (forall r, s :: 0 <= r < s < |order| ==> order[r] != order[s])
    && (forall r, s :: 0 <= r <= s < |order| ==> ps[order[r]] <= ps[order[s]])
  }

  function InsertIndex(ps: seq<real>, i: nat, order: seq<nat>): (out: seq<nat>)
    requires i < |ps| && forall r :: 0 <= r < |order| ==> order[r] < |ps|
    ensures |out| == |order| + 1 && forall r :: 0 <= r < |out| ==> out[r] < |ps|
  {
    if |order| == 0 || ps[order[|order| - 1]] <= ps[i] then order + [i]
    else InsertIndex(ps, i, order[..|order| - 1]) + [order[|order| - 1]]
  }

  /** The stable order of the first n indices. */
  function Order(ps: seq<real>, n: nat): (out: seq<nat>)
    requires n <= |ps|
    ensures |out| == n && forall r :: 0 <= r < n ==> out[r] < |ps|
  {
    if n == 0 then [] else InsertIndex(ps, n - 1, Order(ps, n - 1))
  }

  /** order lists some indices below bound, none twice, by ascending p-value. */
  predicate Arranged(ps: seq<real>, order: seq<nat>, bound: nat) {
    bound <= |ps|
    && (forall r :: 0 <= r < |order| ==> order[r] < bound)
    && (forall r, s :: 0 <= r < s < |order| ==> order[r] != order[s] && ps[order[r]] <= ps[order[s]])
  }

  lemma {:induction false} AppendArranged(ps: seq<real>, order: seq<nat>, x: nat, bound: nat)
    requires Arranged(ps, order, bound) && x < bound
    requires forall r :: 0 <= r < |order| ==> order[r] != x && ps[order[r]] <= ps[x]
    ensures Arranged(ps, order + [x], bound)
  {
  }

  lemma {:induction false} Widen(ps: seq<real>, order: seq<nat>, bound: nat)
    requires Arranged(ps, order, bound) && bound < |ps|
    ensures Arranged(ps, order, bound + 1)
    ensures forall r :: 0 <= r < |order| ==> order[r] != bound
  {
  }

  lemma {:induction false} ArrangedFront(ps: seq<real>, order: seq<nat>, bound: nat)
    requires Arranged(ps, order, bound) && |order| > 0
    ensures Arranged(ps, order[..|order| - 1], bound)
    ensures forall r :: 0 <= r < |order| - 1 ==>
              order[r] != order[|order| - 1] && ps[order[r]] <= ps[order[|order| - 1]]
  {
  }

  lemma {:induction false} InsertArranged(ps: seq<real>, i: nat, order: seq<nat>)
    requires i < |ps| && Arranged(ps, order, i)
    ensures Arranged(ps, InsertIndex(ps, i, order), i + 1)
    ensures forall x :: x in InsertIndex(ps, i, order) ==> x in order || x == i
  {
    hide Arranged;
    Widen(ps, order, i);
    if |order| > 0 { ArrangedFront(ps, order, i); }
    if |order| == 0 || ps[order[|order| - 1]] <= ps[i] {
      AppendArranged(ps, order, i, i + 1);
    } else {
      var front, last := order[..|order| - 1], order[|order| - 1];
      InsertArranged(ps, i, front);
      var t := InsertIndex(ps, i, front);
      assert last < i by { LastBelow(ps, order, i); }
      forall r | 0 <= r < |t|
        ensures t[r] != last && ps[t[r]] <= ps[last]
      {
        assert t[r] in t;
        if t[r] != i {
          var k :| 0 <= k < |front| && front[k] == t[r];
          assert order[k] == t[r];
        }
      }
      AppendArranged(ps, t, last, i + 1);
    }
  }

  lemma {:induction false} LastBelow(ps: seq<real>, order: seq<nat>, bound: nat)
    requires Arranged(ps, order, bound) && |order| > 0
    ensures order[|order| - 1] < bound
  {
  }

  lemma {:induction false} OrderArranged(ps: seq<real>, n: nat)
    requires n <= |ps|
    ensures Arranged(ps, Order(ps, n), n)
  {
    hide InsertIndex, Arranged;
    if n == 0 {
      NoneArranged(ps);
    } else {
      OrderArranged(ps, n - 1);
      InsertArranged(ps, n - 1, Order(ps, n - 1));
    }
  }

  lemma {:induction false} NoneArranged(ps: seq<real>)
    ensures Arranged(ps, [], 0)
  {
  }

  // ----- The running maximum -----------------------------------------------------------------

  /** The scaled p-value at one rank, capped at one. */
  function Scaled(ps: seq<real>, order: seq<nat>, r: nat): real
    requires SortedOrder(ps, order) && r < |ps|
  {
    Min(1.0, (|ps| - r) as real * ps[order[r]])
  }

  /** The running maximum after the first k ranks. */
  function Running(ps: seq<real>, order: seq<nat>, k: nat): real
    requires SortedOrder(ps, order) && k <= |ps|
  {
    if k == 0 then 0.0 else Max(Running(ps, order, k - 1), Scaled(ps, order, k - 1))
  }

  lemma {:induction false} RunningIsMax(ps: seq<real>, order: seq<nat>, k: nat)
    requires SortedOrder(ps, order) && k <= |ps| && NonNegative(ps)
    ensures forall r :: 0 <= r < k ==> Scaled(ps, order, r) <= Running(ps, order, k)
    ensures k > 0 ==> exists r :: 0 <= r < k && Scaled(ps, order, r) == Running(ps, order, k)
  {
    hide Scaled;
    if k > 0 {
      RunningIsMax(ps, order, k - 1);
      if k == 1 || Running(ps, order, k - 1) <= Scaled(ps, order, k - 1) {
        if k == 1 { ScaledNonNegative(ps, order, 0); }
        assert Scaled(ps, order, k - 1) == Running(ps, order, k);
      }
    }
  }

  lemma {:induction false} ScaledNonNegative(ps: seq<real>, order: seq<nat>, r: nat)
    requires SortedOrder(ps, order) && r < |ps| && NonNegative(ps)
    ensures Scaled(ps, order, r) >= 0.0
  {
    Product((|ps| - r) as real, 0.0, ps[order[r]]);
  }

  lemma {:induction false} Product(x: real, y: real, p: real)
    requires x >= y && p >= 0.0
    ensures x * p >= y * p
  {
  }

  // ----- The definition without an order --------------------------------------------------------

  ghost function Smaller(ps: seq<real>, x: real): set<nat> {
    set i: nat | i < |ps| && ps[i] < x
  }

  /** Hypothesis j's p-value times the number of hypotheses whose p-value is not smaller. */
  ghost function Corrected(ps: seq<real>, j: nat): real
    requires j < |ps|
  {
    Min(1.0, (|ps| - |Smaller(ps, ps[j])|) as real * ps[j])
  }

  /** v is the greatest corrected p-value among the hypotheses at or below i's. */
  ghost predicate HolmValue(ps: seq<real>, i: nat, v: real)
    requires i < |ps|
  {
    && (forall j :: 0 <= j < |ps| && ps[j] <= ps[i] ==> Corrected(ps, j) <= v)
    && exists j :: 0 <= j < |ps| && ps[j] <= ps[i] && Corrected(ps, j) == v
  }

  lemma {:induction false} PrefixSize(ps: seq<real>, order: seq<nat>, b: nat)
    requires SortedOrder(ps, order) && b <= |ps|
    ensures var s := set r | 0 <= r < b :: order[r]; |s| == b
  {
    var s := set r | 0 <= r < b :: order[r];
    if b == 0 {
      assert s == {};
    } else {
      var t := set r | 0 <= r < b - 1 :: order[r];
      PrefixSize(ps, order, b - 1);
      assert s == t + {order[b - 1]};
      assert order[b - 1] !in t;
    }
  }

  /** Every index occurs in the order. */
  lemma {:induction false} Covers(ps: seq<real>, order: seq<nat>, i: nat) returns (r: nat)
    requires SortedOrder(ps, order) && i < |ps|
    ensures r < |ps| && order[r] == i
  {
    var s := set r | 0 <= r < |ps| :: order[r];
    var all := Indices(|ps|);
    PrefixSize(ps, order, |ps|);
    IndicesExact(|ps|);
    assert s <= all;
    if i !in s {
      assert s <= all - {i};
      SubsetSize(s, all - {i});
    }
    r :| 0 <= r < |ps| && order[r] == i;
  }

  ghost function Indices(n: nat): set<nat> {
    if n == 0 then {} else Indices(n - 1) + {n - 1}
  }

  lemma {:induction false} IndicesExact(n: nat)
    ensures |Indices(n)| == n && forall k: nat :: k in Indices(n) <==> k < n
  {
    if n > 0 {
      IndicesExact(n - 1);
    }
  }

  /** The rank where a tie group starts is the number of smaller p-values. */
  lemma {:induction false} FirstOfGroup(ps: seq<real>, order: seq<nat>, r: nat) returns (f: nat)
    requires SortedOrder(ps, order) && r < |ps|
    ensures f <= r && ps[order[f]] == ps[order[r]] && f == |Smaller(ps, ps[order[r]])|
  {
    var x := ps[order[r]];
    f := r;
    while f > 0 && ps[order[f - 1]] == x
      invariant f <= r && ps[order[f]] == x
    {
      f := f - 1;
    }
    var before := set s | 0 <= s < f :: order[s];
    PrefixSize(ps, order, f);
    forall i: nat ensures i in Smaller(ps, x) <==> i in before {
      if i in Smaller(ps, x) {
        var s := Covers(ps, order, i);
        assert s < f;
      }
      if i in before {
        var s :| 0 <= s < f && order[s] == i;
        assert ps[order[s]] <= ps[order[f - 1]];
      }
    }
    assert Smaller(ps, x) == before;
  }

  /** At any rank, no tie member is scaled by more than the first of its group. */
  lemma {:induction false} ScaledVersusCorrected(ps: seq<real>, order: seq<nat>, r: nat) returns (f: nat)
    requires SortedOrder(ps, order) && r < |ps| && NonNegative(ps)
    ensures f <= r && Scaled(ps, order, f) == Corrected(ps, order[r]) && Scaled(ps, order, r) <= Corrected(ps, order[r])
  {
    f := FirstOfGroup(ps, order, r);
    Product((|ps| - f) as real, (|ps| - r) as real, ps[order[r]]);
  }

  /** Whatever sorted order is used, the running maximum gives hypothesis i its Holm value. */
  lemma {:induction false} RunningIsHolm(ps: seq<real>, order: seq<nat>, r: nat)
    requires SortedOrder(ps, order) && r < |ps| && NonNegative(ps)
    ensures HolmValue(ps, order[r], Running(ps, order, r + 1))
  {
    hide Scaled, Corrected, Running;
    var i, v := order[r], Running(ps, order, r + 1);
    RunningIsMax(ps, order, r + 1);
    forall j | 0 <= j < |ps| && ps[j] <= ps[i] ensures Corrected(ps, j) <= v {
      var s := Covers(ps, order, j);
      var f := ScaledVersusCorrected(ps, order, s);
      if s > r {
        assert ps[order[r]] <= ps[order[s]];
        var g := ScaledVersusCorrected(ps, order, r);
        CorrectedTied(ps, j, i);
      }
    }
    var q :| 0 <= q < r + 1 && Scaled(ps, order, q) == v;
    var f := ScaledVersusCorrected(ps, order, q);
    assert ps[order[q]] <= ps[order[r]];
    assert Corrected(ps, order[q]) == v;
  }

  lemma {:induction false} CorrectedTied(ps: seq<real>, i: nat, j: nat)
    requires i < |ps| && j < |ps| && ps[i] == ps[j]
    ensures Corrected(ps, i) == Corrected(ps, j)
  {
  }

  // ----- The algorithm --------------------------------------------------------------------------

  function SortIndices(ps: seq<real>): (order: seq<nat>)
    ensures SortedOrder(ps, order) && |order| == |ps|
  {
    OrderArranged(ps, |ps|);
    Order(ps, |ps|)
  }

  lemma {:induction false} OrderDistinct(ps: seq<real>, order: seq<nat>, r: nat)
    requires SortedOrder(ps, order) && r < |ps|
    ensures order[r] < |ps| && forall q :: 0 <= q < r ==> order[q] < |ps| && order[q] != order[r]
  {
  }

  method HolmAdjust(ps: seq<real>) returns (adj: array<real>)
    ensures fresh(adj) && adj.Length == |ps|
    ensures NonNegative(ps) ==> forall i :: 0 <= i < |ps| ==> HolmValue(ps, i, adj[i])
    ensures NonNegative(ps) ==>
              forall i, j :: 0 <= i < |ps| && 0 <= j < |ps| && ps[i] <= ps[j] ==> adj[i] <= adj[j]
  {
    hide HolmValue, Scaled, SortedOrder, Max;
    var n := |ps|;
    var order := SortIndices(ps);
    adj := new real[n](_ => 0.0);
    var running := 0.0;
    for rank := 0 to n
      invariant running == Running(ps, order, rank)
      invariant forall r :: 0 <= r < rank ==> order[r] < n
      invariant forall r :: 0 <= r < rank ==> adj[order[r]] == Running(ps, order, r + 1)
    {
      running := Max(running, Scaled(ps, order, rank));
      OrderDistinct(ps, order, rank);
      adj[order[rank]] := running;
    }
    if NonNegative(ps) {
      forall i | 0 <= i < n ensures HolmValue(ps, i, adj[i]) {
        var r := Covers(ps, order, i);
        RunningIsHolm(ps, order, r);
      }
      forall i, j | 0 <= i < n && 0 <= j < n && ps[i] <= ps[j] ensures adj[i] <= adj[j] {
        HolmMonotone(ps, i, j, adj[i], adj[j]);
      }
    }
  }

  /** The Holm value is determined by the p-values alone, and grows with them. */
  lemma {:induction false} HolmMonotone(ps: seq<real>, i: nat, j: nat, vi: real, vj: real)
    requires i < |ps| && j < |ps| && HolmValue(ps, i, vi) && HolmValue(ps, j, vj)
    ensures ps[i] <= ps[j] ==> vi <= vj
    ensures ps[i] == ps[j] ==> vi == vj
  {
    hide Corrected;
  }

  // ----- Step-down ------------------------------------------------------------------------------

  /** Holm's sequential procedure: from rank k on, reject while the scaled p-value is within alpha. */
  function Rejections(ps: seq<real>, order: seq<nat>, alpha: real, k: nat): nat
    requires SortedOrder(ps, order) && k <= |ps|
    decreases |ps| - k
  {
    if k < |ps| && (|ps| - k) as real * ps[order[k]] <= alpha then Rejections(ps, order, alpha, k + 1) else k
  }

  lemma {:induction false} RejectionsStop(ps: seq<real>, order: seq<nat>, alpha: real, k: nat)
    requires SortedOrder(ps, order) && k <= |ps|
    ensures var stop := Rejections(ps, order, alpha, k);
            && k <= stop <= |ps|
            && (forall r :: k <= r < stop ==> (|ps| - r) as real * ps[order[r]] <= alpha)
            && (stop < |ps| ==> (|ps| - stop) as real * ps[order[stop]] > alpha)
    decreases |ps| - k
  {
    if k < |ps| && (|ps| - k) as real * ps[order[k]] <= alpha {
      RejectionsStop(ps, order, alpha, k + 1);
    }
  }

  /**
  For every level below one, an adjusted p-value is within the level exactly when the
  sequential procedure rejects that hypothesis, whichever sorted order it walks.
   */
  lemma {:induction false} StepDown(ps: seq<real>, order: seq<nat>, alpha: real, r: nat, v: real)
    requires SortedOrder(ps, order) && r < |ps| && NonNegative(ps) && alpha < 1.0
    requires HolmValue(ps, order[r], v)
    ensures v <= alpha <==> r < Rejections(ps, order, alpha, 0)
  {
    hide HolmValue, Running, Rejections;
    RunningIsHolm(ps, order, r);
    HolmMonotone(ps, order[r], order[r], v, Running(ps, order, r + 1));
    RunningIsMax(ps, order, r + 1);
    RejectionsStop(ps, order, alpha, 0);
    var stop := Rejections(ps, order, alpha, 0);
    if r < stop {
      var q :| 0 <= q < r + 1 && Scaled(ps, order, q) == v;
      assert (|ps| - q) as real * ps[order[q]] <= alpha;
    } else {
      assert Scaled(ps, order, stop) <= v;
    }
  }
}
