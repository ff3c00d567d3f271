/**
The Mann-Whitney U statistic, computed two ways by the benchmark scripts: by comparing every
pair, and from mid-ranks of the pooled sample. Both are proved to be the same number, ties
included, and the tie correction to keep the variance from going negative.

Half ranks and half wins are kept as doubled integers.
 */
module RankSum {
  import opened Arithmetic

  // ----- Specification: pairs -------------------------------------------------------------

  /** Twice the score of x against y: a win is 1, a tie one half. */
  function Score2(x: real, y: real): int {
    if x > y then 2 else if x == y then 1 else 0
  }

  function Row2(x: real, ys: seq<real>): int {
    if |ys| == 0 then 0 else Row2(x, ys[..|ys| - 1]) + Score2(x, ys[|ys| - 1])
  }

  /** Twice the pairwise count of wins of xs over ys. */
  function Pairs2(xs: seq<real>, ys: seq<real>): int {
    if |xs| == 0 then 0 else Pairs2(xs[..|xs| - 1], ys) + Row2(xs[|xs| - 1], ys)
  }

  /** How often x occurs in ys. */
  function Times(x: real, ys: seq<real>): nat {
    if |ys| == 0 then 0 else Times(x, ys[..|ys| - 1]) + if ys[|ys| - 1] == x then 1 else 0
  }

  /** One term t^2 - 1 for each member of xs, t being the size of its tie group in pool. */
  function TieTerms(xs: seq<real>, pool: seq<real>): int {
    if |xs| == 0 then 0
    else TieTerms(xs[..|xs| - 1], pool) + Square(Times(xs[|xs| - 1], pool)) - 1
  }

  /** The tie correction: t^3 - t summed over the tie groups. */
  function TieSum(pool: seq<real>): int { TieTerms(pool, pool) }

  function Square(t: int): int { t * t }

  // ----- The pairwise statistic ---------------------------------------------------------------

  method UStat(a: seq<real>, b: seq<real>) returns (u: real)
    ensures u == Pairs2(a, b) as real / 2.0
  {
    u := 0.0;
    for i := 0 to |a|
      invariant u == Pairs2(a[..i], b) as real / 2.0
    {
      var x := a[i];
      ghost var before := u;
      for j := 0 to |b|
        invariant u == before + Row2(x, b[..j]) as real / 2.0
      {
        assert b[..j + 1][..j] == b[..j];
        u := u + (if x > b[j] then 1.0 else if x == b[j] then 0.5 else 0.0);
      }
      assert b[..|b|] == b;
      assert a[..i + 1][..i] == a[..i];
    }
    assert a[..|a|] == a;
  }

  // ----- Pooling and sorting ----------------------------------------------------------------

  /** One pooled observation and the sample it came from. */
  datatype Obs = Obs(v: real, fromA: bool)

  function Tagged(xs: seq<real>, fromA: bool): seq<Obs> {
    seq(|xs|, i requires 0 <= i < |xs| => Obs(xs[i], fromA))
  }

  function Values(all: seq<Obs>): (vs: seq<real>)
    ensures |vs| == |all| && forall i :: 0 <= i < |vs| ==> vs[i] == all[i].v
  {
    seq(|all|, i requires 0 <= i < |all| => all[i].v)
  }

  function Insert(x: Obs, s: seq<Obs>): seq<Obs> {
    if |s| == 0 || s[|s| - 1].v <= x.v then s + [x]
    else Insert(x, s[..|s| - 1]) + [s[|s| - 1]]
  }

  /** A stable sort by value. */
  function SortByValue(s: seq<Obs>): seq<Obs> {
    if |s| == 0 then [] else Insert(s[|s| - 1], SortByValue(s[..|s| - 1]))
  }

  predicate Ascending(vs: seq<real>) {
    forall i, j :: 0 <= i <= j < |vs| ==> vs[i] <= vs[j]
  }

  lemma {:induction false} InsertAscending(x: Obs, s: seq<Obs>)
    requires Ascending(Values(s))
    ensures Ascending(Values(Insert(x, s)))
    ensures forall o :: o in Insert(x, s) ==> o == x || o in s
    ensures |Insert(x, s)| == |s| + 1
  {
    if |s| == 0 || s[|s| - 1].v <= x.v {
      var vs := Values(s);
      forall i, j | 0 <= i <= j < |s| + 1 ensures Values(s + [x])[i] <= Values(s + [x])[j] {
        if j == |s| && i < |s| {
          assert vs[i] <= vs[|s| - 1];
        } else if j < |s| {
          assert vs[i] <= vs[j];
        }
      }
    } else {
      var front, last := s[..|s| - 1], s[|s| - 1];
      assert forall i :: 0 <= i < |front| ==> Values(front)[i] == Values(s)[i];
      InsertAscending(x, front);
      var t := Insert(x, front);
      forall i, j | 0 <= i <= j < |t| + 1 ensures Values(t + [last])[i] <= Values(t + [last])[j] {
        if j < |t| {
          assert Values(t)[i] <= Values(t)[j];
        } else if i < |t| {
          assert t[i] in t;
          if t[i] != x {
            var k :| 0 <= k < |front| && front[k] == t[i];
            assert Values(s)[k] <= Values(s)[|s| - 1];
          }
        }
      }
    }
  }

  lemma {:induction false} SortAscending(s: seq<Obs>)
    ensures Ascending(Values(SortByValue(s))) && |SortByValue(s)| == |s|
  {
    if |s| > 0 {
      SortAscending(s[..|s| - 1]);
      InsertAscending(s[|s| - 1], SortByValue(s[..|s| - 1]));
    }
  }

  // ----- Sums that do not depend on the order ---------------------------------------------------

  /** Twice the sum of the mid-ranks, within pool, of the members of all that came from a. */
  function RankSum2(all: seq<Obs>, pool: seq<real>): int {
    if |all| == 0 then 0
    else
      var o := all[|all| - 1];
      RankSum2(all[..|all| - 1], pool) + if o.fromA then Row2(o.v, pool) + 1 else 0
  }

  lemma {:induction false} ValuesSnoc(s: seq<Obs>, x: Obs)
    ensures Values(s + [x]) == Values(s) + [x.v]
  {
  }

  lemma {:induction false} SnocParts<T>(s: seq<T>, x: T)
    ensures |s + [x]| == |s| + 1 && (s + [x])[|s|] == x && (s + [x])[..|s|] == s
  {
  }

  lemma {:induction false} RowSnoc(s: seq<Obs>, x: Obs, v: real)
    ensures Row2(v, Values(s + [x])) == Row2(v, Values(s)) + Score2(v, x.v)
  {
    hide Score2;
    ValuesSnoc(s, x);
    SnocParts(Values(s), x.v);
  }

  lemma {:induction false} InsertRow(x: Obs, s: seq<Obs>, v: real)
    ensures Row2(v, Values(Insert(x, s))) == Row2(v, Values(s)) + Score2(v, x.v)
  {
    hide Row2, Score2, Values;
    if |s| == 0 || s[|s| - 1].v <= x.v {
      RowSnoc(s, x, v);
    } else {
      var front, last := s[..|s| - 1], s[|s| - 1];
      assert s == front + [last];
      InsertRow(x, front, v);
      RowSnoc(front, last, v);
      RowSnoc(Insert(x, front), last, v);
    }
  }

  lemma {:induction false} TimesSnoc(s: seq<Obs>, x: Obs, v: real)
    ensures Times(v, Values(s + [x])) == Times(v, Values(s)) + (if x.v == v then 1 else 0)
  {
    hide Score2;
    ValuesSnoc(s, x);
    SnocParts(Values(s), x.v);
  }

  lemma {:induction false} InsertTimes(x: Obs, s: seq<Obs>, v: real)
    ensures Times(v, Values(Insert(x, s))) == Times(v, Values(s)) + (if x.v == v then 1 else 0)
  {
    hide Times, Score2, Values;
    if |s| == 0 || s[|s| - 1].v <= x.v {
      TimesSnoc(s, x, v);
    } else {
      var front, last := s[..|s| - 1], s[|s| - 1];
      assert s == front + [last];
      InsertTimes(x, front, v);
      TimesSnoc(front, last, v);
      TimesSnoc(Insert(x, front), last, v);
    }
  }

  lemma {:induction false} InsertRanks(x: Obs, s: seq<Obs>, pool: seq<real>)
    ensures RankSum2(Insert(x, s), pool) == RankSum2(s + [x], pool)
  {
    hide Row2;
    SnocParts(s, x);
    if !(|s| == 0 || s[|s| - 1].v <= x.v) {
      var front, last := s[..|s| - 1], s[|s| - 1];
      InsertRanks(x, front, pool);
      SnocParts(front, x);
      SnocParts(Insert(x, front), last);
    }
  }

  lemma {:induction false} TiesSnoc(s: seq<Obs>, x: Obs, pool: seq<real>)
    ensures TieTerms(Values(s + [x]), pool) == TieTerms(Values(s), pool) + Square(Times(x.v, pool)) - 1
  {
    hide Square, Times;
    ValuesSnoc(s, x);
    SnocParts(Values(s), x.v);
  }

  lemma {:induction false} InsertTies(x: Obs, s: seq<Obs>, pool: seq<real>)
    ensures TieTerms(Values(Insert(x, s)), pool) == TieTerms(Values(s), pool) + Square(Times(x.v, pool)) - 1
  {
    hide TieTerms, Square, Times, Values;
    if |s| == 0 || s[|s| - 1].v <= x.v {
      TiesSnoc(s, x, pool);
    } else {
      var front, last := s[..|s| - 1], s[|s| - 1];
      assert s == front + [last];
      InsertTies(x, front, pool);
      TiesSnoc(front, last, pool);
      TiesSnoc(Insert(x, front), last, pool);
    }
  }

  lemma {:induction false} RanksSnoc(s: seq<Obs>, x: Obs, pool: seq<real>)
    ensures RankSum2(s + [x], pool) == RankSum2(s, pool) + if x.fromA then Row2(x.v, pool) + 1 else 0
  {
    hide Row2;
    SnocParts(s, x);
  }

  lemma {:induction false} SortSums(s: seq<Obs>, v: real, pool: seq<real>)
    ensures Row2(v, Values(SortByValue(s))) == Row2(v, Values(s))
    ensures Times(v, Values(SortByValue(s))) == Times(v, Values(s))
    ensures RankSum2(SortByValue(s), pool) == RankSum2(s, pool)
    ensures TieTerms(Values(SortByValue(s)), pool) == TieTerms(Values(s), pool)
  {
    hide Score2, Square, Insert, Row2, Times, TieTerms, RankSum2, Values;
    if |s| > 0 {
      var front, x := s[..|s| - 1], s[|s| - 1];
      assert s == front + [x];
      var t := SortByValue(front);
      SortSums(front, v, pool);
      InsertRow(x, t, v);
      InsertTimes(x, t, v);
      InsertRanks(x, t, pool);
      InsertTies(x, t, pool);
      RowSnoc(front, x, v);
      TimesSnoc(front, x, v);
      TiesSnoc(front, x, pool);
      RanksSnoc(front, x, pool);
      RanksSnoc(t, x, pool);
    }
  }

  /** The rank sum and the tie terms depend on the pool only through its counts. */
  lemma {:induction false} PoolOrder(all: seq<Obs>, p: seq<real>, q: seq<real>)
    requires forall v :: Row2(v, p) == Row2(v, q) && Times(v, p) == Times(v, q)
    ensures RankSum2(all, p) == RankSum2(all, q)
    ensures TieTerms(Values(all), p) == TieTerms(Values(all), q)
  {
    hide Square;
    if |all| > 0 {
      PoolOrder(all[..|all| - 1], p, q);
      assert all == all[..|all| - 1] + [all[|all| - 1]];
      ValuesSnoc(all[..|all| - 1], all[|all| - 1]);
      SnocParts(Values(all[..|all| - 1]), all[|all| - 1].v);
    }
  }

  // ----- Algebra of the pair count ----------------------------------------------------------------

  lemma {:induction false} RowConcat(x: real, p: seq<real>, q: seq<real>)
    ensures Row2(x, p + q) == Row2(x, p) + Row2(x, q)
    ensures Times(x, p + q) == Times(x, p) + Times(x, q)
  {
    if |q| == 0 {
      assert p + q == p;
    } else {
      assert (p + q)[..|p + q| - 1] == p + q[..|q| - 1];
      RowConcat(x, p, q[..|q| - 1]);
    }
  }

  lemma {:induction false} PairsConcat(xs: seq<real>, p: seq<real>, q: seq<real>)
    ensures Pairs2(xs, p + q) == Pairs2(xs, p) + Pairs2(xs, q)
  {
    if |xs| > 0 {
      PairsConcat(xs[..|xs| - 1], p, q);
      RowConcat(xs[|xs| - 1], p, q);
    }
  }

  /** Adding y to the right-hand sample adds what y does not win against each x. */
  lemma {:induction false} PairsSnoc(xs: seq<real>, ys: seq<real>, y: real)
    ensures Pairs2(xs, ys + [y]) == Pairs2(xs, ys) + 2 * |xs| - Row2(y, xs)
  {
    if |xs| > 0 {
      PairsSnoc(xs[..|xs| - 1], ys, y);
      SnocParts(ys, y);
    }
  }

  /** Within one sample every pair is decided once and every member ties with itself. */
  lemma {:induction false} SelfPairs(xs: seq<real>)
    ensures Pairs2(xs, xs) == |xs| * |xs|
  {
    if |xs| > 0 {
      var front, x := xs[..|xs| - 1], xs[|xs| - 1];
      assert xs == front + [x];
      SelfPairs(front);
      PairsSnoc(front, front, x);
      SnocParts(front, x);
    }
  }

  /** The two samples' statistics share out all the pairs between them. */
  lemma {:induction false} Complement(a: seq<real>, b: seq<real>)
    ensures Pairs2(a, b) + Pairs2(b, a) == 2 * |a| * |b|
  {
    if |b| > 0 {
      var front, y := b[..|b| - 1], b[|b| - 1];
      assert b == front + [y];
      Complement(a, front);
      PairsSnoc(a, front, y);
    } else {
      NoPairs(a);
    }
  }

  lemma {:induction false} NoPairs(a: seq<real>)
    ensures Pairs2(a, []) == 0
  {
    if |a| > 0 {
      NoPairs(a[..|a| - 1]);
    }
  }

  lemma {:induction false} TaggedRankSum(a: seq<real>, b: seq<real>, pool: seq<real>)
    ensures RankSum2(Tagged(a, true) + Tagged(b, false), pool) == Pairs2(a, pool) + |a|
  {
    if |b| > 0 {
      var b' := b[..|b| - 1];
      assert Tagged(a, true) + Tagged(b, false) == (Tagged(a, true) + Tagged(b', false)) + [Obs(b[|b| - 1], false)];
      SnocParts(Tagged(a, true) + Tagged(b', false), Obs(b[|b| - 1], false));
      TaggedRankSum(a, b', pool);
    } else if |a| > 0 {
      var a' := a[..|a| - 1];
      assert Tagged(a, true) + Tagged(b, false) == (Tagged(a', true) + Tagged(b, false)) + [Obs(a[|a| - 1], true)];
      SnocParts(Tagged(a', true) + Tagged(b, false), Obs(a[|a| - 1], true));
      TaggedRankSum(a', b, pool);
    }
  }

  // ----- Mid-ranks of a sorted pool -----------------------------------------------------------------

  lemma {:induction false} RowBelow(x: real, ys: seq<real>)
    requires forall i :: 0 <= i < |ys| ==> ys[i] < x
    ensures Row2(x, ys) == 2 * |ys| && Times(x, ys) == 0
  {
    if |ys| > 0 {
      RowBelow(x, ys[..|ys| - 1]);
    }
  }

  lemma {:induction false} RowEqual(x: real, ys: seq<real>)
    requires forall i :: 0 <= i < |ys| ==> ys[i] == x
    ensures Row2(x, ys) == |ys| && Times(x, ys) == |ys|
  {
    if |ys| > 0 {
      RowEqual(x, ys[..|ys| - 1]);
    }
  }

  lemma {:induction false} RowAbove(x: real, ys: seq<real>)
    requires forall i :: 0 <= i < |ys| ==> ys[i] > x
    ensures Row2(x, ys) == 0 && Times(x, ys) == 0
  {
    if |ys| > 0 {
      RowAbove(x, ys[..|ys| - 1]);
    }
  }

  /** Positions i..j of a sorted pool are exactly the members equal to its i-th. */
  predicate TieGroup(vs: seq<real>, i: nat, j: nat) {
    i <= j < |vs|
    && (forall k :: 0 <= k < i ==> vs[k] < vs[i])
    && (forall k :: i <= k <= j ==> vs[k] == vs[i])
    && (forall k :: j < k < |vs| ==> vs[k] > vs[i])
  }

  lemma {:induction false} GroupRank(vs: seq<real>, i: nat, j: nat)
    requires TieGroup(vs, i, j)
    ensures Row2(vs[i], vs) + 1 == i + j + 2
    ensures Times(vs[i], vs) == j - i + 1
  {
    var x := vs[i];
    var p, q, r := vs[..i], vs[i..j + 1], vs[j + 1..];
    assert vs == (p + q) + r;
    RowConcat(x, p + q, r);
    RowConcat(x, p, q);
    RowBelow(x, p);
    RowEqual(x, q);
    RowAbove(x, r);
  }

  /** The tie terms of a whole group of size t come to t^3 - t. */
  lemma {:induction false} GroupTies(vs: seq<real>, i: nat, j: nat, k: nat)
    requires TieGroup(vs, i, j) && i <= k <= j + 1
    ensures var t := j - i + 1;
            TieTerms(vs[..k], vs) == TieTerms(vs[..i], vs) + Product(k - i, Square(t) - 1)
    decreases k
  {
    hide Square, Product, Times;
    ProductNext(k - 1 - i, Square(j - i + 1) - 1);
    if k > i {
      GroupTies(vs, i, j, k - 1);
      GroupRank(vs, i, j);
      assert vs[..k][..k - 1] == vs[..k - 1];
    } else {
      assert Product(0, Square(j - i + 1) - 1) == 0 by { ProductNext(0, Square(j - i + 1) - 1); }
    }
  }

  function Cube(t: int): int { t * t * t }

  lemma {:induction false} CubeMinusSelf(t: int)
    ensures Product(t, Square(t) - 1) == Cube(t) - t
  {
  }

  lemma {:induction false} RankSumFromRanks(all: seq<Obs>, ranks: seq<int>, pool: seq<real>, k: nat)
    requires k < |all| && |ranks| == |all| && ranks[k] == Row2(all[k].v, pool) + 1
    ensures RankSum2(all[..k + 1], pool) == RankSum2(all[..k], pool) + if all[k].fromA then ranks[k] else 0
  {
    assert all[..k + 1][..k] == all[..k];
  }

  // ----- The rank-sum statistic --------------------------------------------------------------------

  /** Walks the sorted pool by tie groups, giving each its mid-rank and adding up the tie terms. */
  method MidRanks(all: seq<Obs>) returns (ranks: array<int>, tie: int)
    requires Ascending(Values(all))
    ensures fresh(ranks) && ranks.Length == |all|
    ensures forall k :: 0 <= k < |all| ==> ranks[k] == Row2(all[k].v, Values(all)) + 1
    ensures tie == TieTerms(Values(all), Values(all))
  {
    hide Row2, Times, TieTerms, Square, Product, Cube, Ascending, TieGroup, Values;
    ghost var vs := Values(all);
    var n := |all|;
    ranks := new int[n](_ => 0);
    tie := 0;
    var i := 0;
    assert TieTerms(vs[..0], vs) == 0 by { NoTies(vs); }
    while i < n
      invariant 0 <= i <= n
      invariant 0 < i < n ==> vs[i - 1] < vs[i]
      invariant forall k :: 0 <= k < i ==> ranks[k] == Row2(vs[k], vs) + 1
      invariant tie == TieTerms(vs[..i], vs)
      decreases n - i
    {
      var j := i;
      while j + 1 < n && all[j + 1].v == all[i].v
        invariant i <= j < n
        invariant forall k :: i <= k <= j ==> vs[k] == vs[i]
        decreases n - j
      {
        j := j + 1;
      }
      GroupDone(vs, i, j);
      var r2 := i + j + 2;
      for k := i to j + 1
        invariant forall l :: 0 <= l < k ==> ranks[l] == Row2(vs[l], vs) + 1
      {
        ranks[k] := r2;
      }
      var t := j - i + 1;
      tie := tie + Cube(t) - t;
      i := j + 1;
    }
    assert vs[..n] == vs;
  }

  /**
  Sorts the pool, gives every tie group its mid-rank, sums the ranks of a, and subtracts the
  least sum they could have: twice U, and the tie correction.
   */
  method RankStatistic(a: seq<real>, b: seq<real>) returns (u2: int, tie: int)
    ensures u2 == Pairs2(a, b)
    ensures tie == TieSum(a + b)
  {
    hide Insert, Row2, Times, TieTerms, RankSum2, Pairs2, Square, TieSum;
    var all := SortByValue(Tagged(a, true) + Tagged(b, false));
    SortAscending(Tagged(a, true) + Tagged(b, false));
    var ranks;
    ranks, tie := MidRanks(all);
    var r1 := 0;
    NoRanks(all, Values(all));
    for k := 0 to |all|
      invariant r1 == RankSum2(all[..k], Values(all))
      invariant forall l :: 0 <= l < |all| ==> ranks[l] == Row2(all[l].v, Values(all)) + 1
    {
      RankSumFromRanks(all, ranks[..], Values(all), k);
      r1 := r1 + (if all[k].fromA then ranks[k] else 0);
    }
    assert all[..|all|] == all;
    u2 := r1 - |a| * (|a| + 1);
    RankSumIsPairs(a, b);
  }

  lemma {:induction false} NoTies(vs: seq<real>)
    ensures TieTerms(vs[..0], vs) == 0
  {
  }

  lemma {:induction false} NoRanks(all: seq<Obs>, vs: seq<real>)
    ensures RankSum2(all[..0], vs) == 0
  {
  }

  /** A whole tie group: its one mid-rank, its tie terms, and where the next group starts. */
  lemma {:induction false} GroupDone(vs: seq<real>, i: nat, j: nat)
    requires Ascending(vs) && i <= j < |vs|
    requires i > 0 ==> vs[i - 1] < vs[i]
    requires forall k :: i <= k <= j ==> vs[k] == vs[i]
    requires j + 1 < |vs| ==> vs[j + 1] != vs[i]
    ensures forall k :: i <= k <= j ==> Row2(vs[k], vs) + 1 == i + j + 2
    ensures TieTerms(vs[..j + 1], vs) == TieTerms(vs[..i], vs) + Cube(j - i + 1) - (j - i + 1)
    ensures j + 1 < |vs| ==> vs[j] < vs[j + 1]
  {
    hide Row2, Times, TieTerms, Square, Product, Cube, Ascending, TieGroup;
    GroupFound(vs, i, j);
    GroupRank(vs, i, j);
    GroupTies(vs, i, j, j + 1);
    CubeMinusSelf(j - i + 1);
  }

  lemma {:induction false} GroupFound(vs: seq<real>, i: nat, j: nat)
    requires Ascending(vs) && i <= j < |vs|
    requires i > 0 ==> vs[i - 1] < vs[i]
    requires forall k :: i <= k <= j ==> vs[k] == vs[i]
    requires j + 1 < |vs| ==> vs[j + 1] != vs[i]
    ensures TieGroup(vs, i, j)
    ensures forall k :: j < k < |vs| ==> vs[j] < vs[k]
  {
    forall k | 0 <= k < i ensures vs[k] < vs[i] {
      assert vs[k] <= vs[i - 1];
    }
    forall k | j < k < |vs| ensures vs[k] > vs[i] {
      assert vs[j] <= vs[j + 1] <= vs[k];
    }
  }

  /** The rank sum of the sorted pool, less its minimum, is the pair count. */
  lemma {:induction false} RankSumIsPairs(a: seq<real>, b: seq<real>)
    ensures var all := SortByValue(Tagged(a, true) + Tagged(b, false));
            RankSum2(all, Values(all)) - |a| * (|a| + 1) == Pairs2(a, b)
            && TieTerms(Values(all), Values(all)) == TieSum(a + b)
  {
    hide Insert, Row2, Times, TieTerms, RankSum2, Pairs2, Square, SortByValue;
    var pooled := Tagged(a, true) + Tagged(b, false);
    var all := SortByValue(pooled);
    var vs, pool := Values(all), Values(pooled);
    assert pool == a + b;
    forall v ensures Row2(v, vs) == Row2(v, pool) && Times(v, vs) == Times(v, pool) {
      SortSums(pooled, v, []);
    }
    PoolOrder(all, vs, pool);
    SortSums(pooled, 0.0, pool);
    TaggedRankSum(a, b, pool);
    PairsConcat(a, a, b);
    SelfPairs(a);
  }

  // ----- The tie-corrected variance ------------------------------------------------------------------

  lemma {:induction false} TimesBounds(x: real, ys: seq<real>)
    ensures 0 <= Times(x, ys) <= |ys|
    ensures Times(x, ys) == |ys| <==> forall i :: 0 <= i < |ys| ==> ys[i] == x
    ensures x in ys ==> Times(x, ys) >= 1
  {
    if |ys| > 0 {
      TimesBounds(x, ys[..|ys| - 1]);
    }
  }

  predicate AllTied(vs: seq<real>) {
    forall i, j :: 0 <= i < |vs| && 0 <= j < |vs| ==> vs[i] == vs[j]
  }

  lemma {:induction false} SquareMono(s: int, t: int)
    requires 0 <= s <= t
    ensures Square(s) <= Square(t) && (s < t ==> Square(s) < Square(t)) && (1 <= s ==> Square(s) >= 1)
  {
    if s < t {
      assert s * s <= s * t;
      assert s * t < t * t;
    }
  }

  lemma {:induction false} TieTermsBound(xs: seq<real>, pool: seq<real>)
    requires forall x :: x in xs ==> x in pool
    ensures 0 <= TieTerms(xs, pool) <= Product(|xs|, Square(|pool|) - 1)
    ensures TieTerms(xs, pool) == Product(|xs|, Square(|pool|) - 1)
            <==> forall i :: 0 <= i < |xs| ==> Times(xs[i], pool) == |pool|
  {
    hide Square, Times, Product;
    if |xs| == 0 {
      ProductNext(0, Square(|pool|) - 1);
    } else {
      var front, x := xs[..|xs| - 1], xs[|xs| - 1];
      TieTermsBound(front, pool);
      TimesBounds(x, pool);
      assert x in xs;
      SquareMono(Times(x, pool), |pool|);
      SquareMono(1, Times(x, pool));
      ProductNext(|xs| - 1, Square(|pool|) - 1);
      SquareOne();
    }
  }

  lemma {:induction false} SquareOne()
    ensures Square(1) == 1
  {
  }

  /** The tie correction is largest, n^3 - n, exactly when every value ties. */
  lemma {:induction false} TieSumBound(pool: seq<real>)
    ensures var n := |pool|;
            0 <= TieSum(pool) <= Cube(n) - n
            && (TieSum(pool) == Cube(n) - n <==> AllTied(pool))
  {
    hide Square, Times, TieTerms, Product, Cube;
    TieTermsBound(pool, pool);
    CubeMinusSelf(|pool|);
    forall i | 0 <= i < |pool|
      ensures Times(pool[i], pool) == |pool| <==> forall j :: 0 <= j < |pool| ==> pool[j] == pool[i]
    {
      TimesBounds(pool[i], pool);
    }
  }

  /** What is left of n + 1 after the correction for ties. */
  function Corrected(n: nat, tie: int): real
    requires n >= 2
  {
    (n + 1) as real - tie as real / (n * (n - 1)) as real
  }

  /** The variance of U under the null hypothesis, corrected for ties. */
  function Variance(n1: nat, n2: nat, tie: int): real
    requires n1 + n2 >= 2
  {
    (n1 * n2) as real / 12.0 * Corrected(n1 + n2, tie)
  }

  lemma {:induction false} CorrectedSign(n: nat, tie: int)
    requires n >= 2 && tie <= Cube(n) - n
    ensures Corrected(n, tie) >= 0.0 && (Corrected(n, tie) == 0.0 <==> tie == Cube(n) - n)
  {
    hide Cube;
    Factor(n);
    RatioBound(tie, n + 1, n * (n - 1));
  }

  /**
  With two observations or more the corrected variance is never negative; when both samples
  have some, it is zero exactly when all values tie, which is when the test reports p = 1.
   */
  lemma {:induction false} VarianceSign(a: seq<real>, b: seq<real>)
    requires |a| + |b| >= 2
    ensures Variance(|a|, |b|, TieSum(a + b)) >= 0.0
    ensures |a| > 0 && |b| > 0 ==> (Variance(|a|, |b|, TieSum(a + b)) == 0.0 <==> AllTied(a + b))
  {
    hide TieSum, Cube, AllTied, Corrected;
    var tie := TieSum(a + b);
    TieSumBound(a + b);
    CorrectedSign(|a| + |b|, tie);
    Weight(|a|, |b|);
    ProductSign((|a| * |b|) as real / 12.0, Corrected(|a| + |b|, tie));
  }

  lemma {:induction false} Weight(m: nat, n: nat)
    ensures (m * n) as real / 12.0 >= 0.0 && (m > 0 && n > 0 ==> (m * n) as real / 12.0 > 0.0)
  {
    PairsPositive(m, n);
  }

  lemma {:induction false} PairsPositive(m: nat, n: nat)
    ensures m * n >= 0 && (m > 0 && n > 0 ==> m * n > 0)
  {
  }

  lemma {:induction false} Factor(n: int)
    ensures Cube(n) - n == (n + 1) * (n * (n - 1))
    ensures n >= 2 ==> n * (n - 1) > 0
  {
  }

  lemma {:induction false} RatioBound(t: int, m: int, d: int)
    requires d > 0 && t <= m * d
    ensures m as real - t as real / d as real >= 0.0
    ensures m as real - t as real / d as real == 0.0 <==> t == m * d
  {
    var q := t as real / d as real;
    assert q * d as real == t as real;
    assert (m * d) as real == m as real * d as real;
    assert (m as real - q) * d as real == (m * d - t) as real;
  }

  lemma {:induction false} ProductSign(w: real, s: real)
    requires w >= 0.0 && s >= 0.0
    ensures w * s >= 0.0
    ensures w > 0.0 ==> (w * s == 0.0 <==> s == 0.0)
  {
  }
}
