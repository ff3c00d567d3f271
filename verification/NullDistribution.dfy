/**
The exact null distribution behind the tie-free Mann-Whitney test: the memoised recursion
counts interleavings of two samples by their U, and the reported p-value is the share of
interleavings at least as extreme as the one observed.

An interleaving is a word over {b, a}: position by position, in ascending order of value,
whether the observation came from the first sample (true) or the second (false).
 */
module NullDistribution {
  import opened Wrappers
  import opened FiniteSets
  import RankSum

  // ----- Interleavings and their U --------------------------------------------------------------

  /** How many members of sample x (true for the first) the word holds. */
  function Members(w: seq<bool>, x: bool): nat {
    if |w| == 0 then 0 else Members(w[..|w| - 1], x) + if w[|w| - 1] == x then 1 else 0
  }

  /** U of an interleaving: every a scores one for each b before it. */
  function U(w: seq<bool>): nat {
    if |w| == 0 then 0
    else U(w[..|w| - 1]) + if w[|w| - 1] then Members(w[..|w| - 1], false) else 0
  }

  predicate Interleaving(w: seq<bool>, n: nat, m: nat) {
    Members(w, true) == n && Members(w, false) == m
  }

  /** The pairs of positions in which a b comes before an a. */
  function Wins(w: seq<bool>): set<(nat, nat)> {
    set p: nat, q: nat | 0 <= p < |w| && p < q < |w| && !w[p] && w[q] :: (p, q)
  }

  // ----- The recursion --------------------------------------------------------------------------

  /** Ways for i a's and j b's to give U == k. */
  function Count(i: nat, j: nat, k: int): nat
    decreases i + j
  {
    if k < 0 then 0
    else if i == 0 || j == 0 then if k == 0 then 1 else 0
    else Count(i - 1, j, k - j) + Count(i, j - 1, k)
  }

  /** The recursion with its cache. */
  class CountCache {
    var memo: map<(nat, nat, int), nat>

    predicate Valid()
      reads this
    {
      forall key :: key in memo ==> memo[key] == Count(key.0, key.1, key.2)
    }

    constructor ()
      ensures Valid()
    {
      memo := map[];
    }

    method Get(i: nat, j: nat, k: int) returns (r: nat)
      requires Valid()
      modifies this
      ensures Valid() && r == Count(i, j, k)
      decreases i + j
    {
      if (i, j, k) in memo { return memo[(i, j, k)]; }
      if k < 0 {
        r := 0;
      } else if i == 0 || j == 0 {
        r := if k == 0 then 1 else 0;
      } else {
        var x := Get(i - 1, j, k - j);
        var y := Get(i, j - 1, k);
        r := x + y;
      }
      memo := memo[(i, j, k) := r];
    }
  }

  // ----- Count counts interleavings ----------------------------------------------------------------

  function Extended(s: set<seq<bool>>, x: bool): set<seq<bool>> {
    set w | w in s :: w + [x]
  }

  function Repeated(x: bool, n: nat): seq<bool> { seq(n, _ => x) }

  /** The interleavings of i a's and j b's whose U is k. */
  function Words(i: nat, j: nat, k: int): set<seq<bool>>
    decreases i + j
  {
    if k < 0 then {}
    else if i == 0 || j == 0 then
      if k == 0 then {if i == 0 then Repeated(false, j) else Repeated(true, i)} else {}
    else Extended(Words(i - 1, j, k - j), true) + Extended(Words(i, j - 1, k), false)
  }

  lemma {:induction false} Snoc(w: seq<bool>, x: bool)
    ensures (w + [x])[..|w|] == w && (w + [x])[|w|] == x && |w + [x]| == |w| + 1
    ensures Members(w + [x], true) == Members(w, true) + if x then 1 else 0
    ensures Members(w + [x], false) == Members(w, false) + if x then 0 else 1
    ensures U(w + [x]) == U(w) + if x then Members(w, false) else 0
  {
    assert (w + [x])[..|w|] == w;
  }

  lemma {:induction false} MembersLength(w: seq<bool>)
    ensures Members(w, true) + Members(w, false) == |w|
  {
    if |w| > 0 {
      MembersLength(w[..|w| - 1]);
    }
  }

  lemma {:induction false} OneSided(w: seq<bool>, x: bool)
    requires Members(w, !x) == 0
    ensures w == Repeated(x, |w|) && U(w) == 0
  {
    if |w| > 0 {
      var front := w[..|w| - 1];
      OneSided(front, x);
      assert w == front + [w[|w| - 1]];
      MembersLength(front);
    }
  }

  lemma {:induction false} RepeatedMembers(x: bool, n: nat)
    ensures Members(Repeated(x, n), x) == n && Members(Repeated(x, n), !x) == 0 && U(Repeated(x, n)) == 0
  {
    if n > 0 {
      RepeatedMembers(x, n - 1);
      assert Repeated(x, n) == Repeated(x, n - 1) + [x];
      Snoc(Repeated(x, n - 1), x);
    }
  }

  /** Words(i, j, k) is exactly the set of interleavings with that U. */
  lemma {:induction false} WordsExact(i: nat, j: nat, k: int, w: seq<bool>)
    ensures w in Words(i, j, k) <==> Interleaving(w, i, j) && U(w) == k
    decreases i + j
  {
    hide U, Members, Repeated;
    MembersLength(w);
    if k < 0 {
    } else if i == 0 || j == 0 {
      var x := i != 0;
      RepeatedMembers(x, i + j);
      if Members(w, !x) == 0 { OneSided(w, x); }
    } else if |w| == 0 {
    } else {
      var front, x := w[..|w| - 1], w[|w| - 1];
      assert w == front + [x];
      Snoc(front, x);
      WordsExact(i - 1, j, k - j, front);
      WordsExact(i, j - 1, k, front);
      assert w in Words(i, j, k) <==> front in (if x then Words(i - 1, j, k - j) else Words(i, j - 1, k)) by {
        InExtended(Words(i - 1, j, k - j), true, front, x);
        InExtended(Words(i, j - 1, k), false, front, x);
      }
    }
  }

  lemma {:induction false} InExtended(s: set<seq<bool>>, y: bool, w: seq<bool>, x: bool)
    ensures w + [x] in Extended(s, y) <==> w in s && x == y
  {
    if w + [x] in Extended(s, y) {
      var v :| v in s && w + [x] == v + [y];
      assert v == (v + [y])[..|v|] == (w + [x])[..|w|] == w;
    }
  }

  lemma {:induction false} ExtendedSize(s: set<seq<bool>>, x: bool)
    ensures |Extended(s, x)| == |s|
  {
    if s != {} {
      var w :| w in s;
      var t := s - {w};
      ExtendedSize(t, x);
      InExtended(t, x, w, x);
      forall v ensures v in Extended(s, x) <==> v in Extended(t, x) + {w + [x]} {
      }
      assert Extended(s, x) == Extended(t, x) + {w + [x]};
    }
  }

  lemma {:induction false} ExtendedDisjoint(s: set<seq<bool>>, t: set<seq<bool>>)
    ensures Extended(s, true) !! Extended(t, false)
  {
    forall w | w in Extended(s, true) ensures w !in Extended(t, false) {
      var v :| v in s && w == v + [true];
      InExtended(t, false, v, true);
    }
  }

  /** The recursion counts them. */
  lemma {:induction false} CountIsWords(i: nat, j: nat, k: int)
    ensures |Words(i, j, k)| == Count(i, j, k)
    decreases i + j
  {
    hide Extended, Repeated;
    if k >= 0 && i > 0 && j > 0 {
      var p, q := Words(i - 1, j, k - j), Words(i, j - 1, k);
      CountIsWords(i - 1, j, k - j);
      CountIsWords(i, j - 1, k);
      ExtendedSize(p, true);
      ExtendedSize(q, false);
      ExtendedDisjoint(p, q);
      DisjointSize(Extended(p, true), Extended(q, false));
    }
  }

  lemma {:induction false} DisjointSize(s: set<seq<bool>>, t: set<seq<bool>>)
    requires s !! t
    ensures |s + t| == |s| + |t|
  {
  }

  lemma {:induction false} WinsStep(w: seq<bool>)
    requires |w| > 0
    ensures var k := |w| - 1;
            Wins(w) == Wins(w[..k]) + if w[k] then Column(w[..k], k) else {}
    ensures Wins(w[..|w| - 1]) !! Column(w[..|w| - 1], |w| - 1)
  {
    var k := |w| - 1;
    var front, beaten := w[..k], Column(w[..k], k);
    forall p: nat, q: nat
      ensures (p, q) in Wins(w) <==> (p, q) in Wins(front) || (w[k] && (p, q) in beaten)
    {
      if q < k && p < q {
        assert front[p] == w[p] && front[q] == w[q];
      }
    }
  }

  /** U is the number of pairs in which an a comes after a b. */
  lemma {:induction false} UIsWins(w: seq<bool>)
    ensures |Wins(w)| == U(w)
  {
    hide Wins, Column;
    if |w| == 0 {
      NoWins(w);
    } else {
      var k := |w| - 1;
      UIsWins(w[..k]);
      ColumnSize(w[..k], k);
      WinsStep(w);
    }
  }

  lemma {:induction false} NoWins(w: seq<bool>)
    requires |w| == 0
    ensures |Wins(w)| == 0
  {
    assert Wins(w) == {};
  }

  function Column(w: seq<bool>, q: nat): set<(nat, nat)> {
    set p: nat | 0 <= p < |w| && !w[p] :: (p, q)
  }

  lemma {:induction false} ColumnSize(w: seq<bool>, q: nat)
    ensures |Column(w, q)| == Members(w, false)
  {
    if |w| == 0 {
      assert Column(w, q) == {};
    } else {
      var k := |w| - 1;
      ColumnSize(w[..k], q);
      assert Column(w, q) == Column(w[..k], q) + if w[k] then {} else {(k, q)};
    }
  }

  // ----- The whole distribution -----------------------------------------------------------------

  /** Interleavings by Pascal's rule; math.comb(n + m, n) in the source. */
  function Choose(n: nat, k: nat): nat {
    if k == 0 then 1 else if n == 0 then 0 else Choose(n - 1, k - 1) + Choose(n - 1, k)
  }

  /** The count of interleavings with U at most k. */
  function Sum(i: nat, j: nat, k: int): nat
    decreases if k < 0 then 0 else k + 1
  {
    if k < 0 then 0 else Sum(i, j, k - 1) + Count(i, j, k)
  }

  lemma {:induction false} CountBeyond(i: nat, j: nat, k: int)
    requires k > i * j
    ensures Count(i, j, k) == 0
    decreases i + j
  {
    if i > 0 && j > 0 {
      Rectangle(i, j);
      CountBeyond(i - 1, j, k - j);
      CountBeyond(i, j - 1, k);
    }
  }

  lemma {:induction false} Rectangle(i: nat, j: nat)
    requires i > 0 && j > 0
    ensures (i - 1) * j == i * j - j && i * (j - 1) == i * j - i
    ensures (i - 1) * j >= 0 && i * (j - 1) >= 0
  {
  }

  lemma {:induction false} SumStep(i: nat, j: nat, k: int)
    ensures Sum(i, j, k) == Sum(i, j, k - 1) + Count(i, j, k)
  {
  }

  lemma {:induction false} SumSplit(i: nat, j: nat, k: int)
    requires i > 0 && j > 0
    ensures Sum(i, j, k) == Sum(i - 1, j, k - j) + Sum(i, j - 1, k)
    decreases if k < 0 then 0 else k + 1
  {
    if k >= 0 {
      SumSplit(i, j, k - 1);
      SumStep(i, j, k);
      SumStep(i - 1, j, k - j);
      SumStep(i, j - 1, k);
    }
  }

  lemma {:induction false} SumBeyond(i: nat, j: nat, k: int)
    requires k >= i * j
    ensures Sum(i, j, k) == Sum(i, j, i * j)
    decreases k
  {
    if k > i * j {
      assert i * j >= 0;
      SumBeyond(i, j, k - 1);
      CountBeyond(i, j, k);
    }
  }

  lemma {:induction false} ChooseEdge(n: nat, k: nat)
    ensures k > n ==> Choose(n, k) == 0
    ensures k == n ==> Choose(n, k) == 1
    decreases n
  {
    if n > 0 && k > 0 {
      ChooseEdge(n - 1, k - 1);
      ChooseEdge(n - 1, k);
    }
  }

  /** The counts over every U sum to C(i + j, i). */
  lemma {:induction false} CountsSumToChoose(i: nat, j: nat)
    ensures Sum(i, j, i * j) == Choose(i + j, i)
    decreases i + j
  {
    if i == 0 || j == 0 {
      assert i * j == 0;
      assert Sum(i, j, 0) == Sum(i, j, -1) + Count(i, j, 0);
      ChooseEdge(i + j, i);
    } else {
      Rectangle(i, j);
      SumSplit(i, j, i * j);
      SumBeyond(i, j - 1, i * j);
      CountsSumToChoose(i - 1, j);
      CountsSumToChoose(i, j - 1);
    }
  }

  /** Removing the smallest observation instead of the largest: the mirror recursion. */
  lemma {:induction false} CountFromBelow(i: nat, j: nat, k: int)
    requires i > 0 && j > 0
    ensures Count(i, j, k) == Count(i - 1, j, k) + Count(i, j - 1, k - i)
    decreases i + j
  {
    if k >= 0 {
      if i > 1 {
        CountFromBelow(i - 1, j, k - j);
      }
      if j > 1 {
        CountFromBelow(i, j - 1, k);
      }
    }
  }

  /** The distribution is symmetric about i*j/2. */
  lemma {:induction false} CountSymmetric(i: nat, j: nat, k: int)
    ensures Count(i, j, k) == Count(i, j, i * j - k)
    decreases i + j
  {
    assert i * j >= 0;
    if k < 0 {
      CountBeyond(i, j, i * j - k);
    } else if k > i * j {
      CountBeyond(i, j, k);
    } else if i == 0 || j == 0 {
      assert i * j == 0;
    } else {
      Rectangle(i, j);
      CountFromBelow(i, j, k);
      CountSymmetric(i - 1, j, k);
      CountSymmetric(i, j - 1, k - i);
    }
  }

  // ----- Tails as sets of interleavings -----------------------------------------------------------

  /** The interleavings with U at most k. */
  function AtMost(i: nat, j: nat, k: int): set<seq<bool>>
    decreases if k < 0 then 0 else k + 1
  {
    if k < 0 then {} else AtMost(i, j, k - 1) + Words(i, j, k)
  }

  lemma {:induction false} AtMostExact(i: nat, j: nat, k: int, w: seq<bool>)
    ensures w in AtMost(i, j, k) <==> Interleaving(w, i, j) && U(w) <= k
    decreases if k < 0 then 0 else k + 1
  {
    hide U, Members, Words;
    if k >= 0 {
      AtMostExact(i, j, k - 1, w);
      WordsExact(i, j, k, w);
    }
  }

  lemma {:induction false} AtMostSize(i: nat, j: nat, k: int)
    ensures |AtMost(i, j, k)| == Sum(i, j, k)
    decreases if k < 0 then 0 else k + 1
  {
    hide U, Members, Words, Count;
    if k >= 0 {
      AtMostSize(i, j, k - 1);
      CountIsWords(i, j, k);
      forall w | w in Words(i, j, k) ensures w !in AtMost(i, j, k - 1) {
        WordsExact(i, j, k, w);
        AtMostExact(i, j, k - 1, w);
      }
    }
  }

  /** All interleavings of n a's and m b's. */
  function Interleavings(n: nat, m: nat): set<seq<bool>> { AtMost(n, m, n * m) }

  lemma {:induction false} UBound(w: seq<bool>)
    ensures U(w) <= Members(w, true) * Members(w, false)
  {
    if |w| > 0 {
      UBound(w[..|w| - 1]);
      var x, y := Members(w[..|w| - 1], true), Members(w[..|w| - 1], false);
      Grow(x, y);
    }
  }

  lemma {:induction false} Grow(x: nat, y: nat)
    ensures (x + 1) * y == x * y + y && x * (y + 1) == x * y + x
  {
  }

  lemma {:induction false} InterleavingsExact(n: nat, m: nat, w: seq<bool>)
    ensures w in Interleavings(n, m) <==> Interleaving(w, n, m)
  {
    UBound(w);
    AtMostExact(n, m, n * m, w);
  }

  lemma {:induction false} InterleavingsSize(n: nat, m: nat)
    ensures |Interleavings(n, m)| == Choose(n + m, n) > 0
  {
    AtMostSize(n, m, n * m);
    CountsSumToChoose(n, m);
    ChoosePositive(n + m, n);
  }

  lemma {:induction false} ChoosePositive(n: nat, k: nat)
    requires k <= n
    ensures Choose(n, k) > 0
    decreases n
  {
    if k > 0 {
      ChoosePositive(n - 1, k - 1);
    }
  }

  /** The interleavings at least as far from n*m/2 as the distance that lo has from it. */
  function Extreme(n: nat, m: nat, lo: int): set<seq<bool>> {
    set w | w in Interleavings(n, m) && (U(w) <= lo || U(w) >= n * m - lo)
  }

  lemma {:induction false} UpperTail(n: nat, m: nat, lo: int)
    ensures Sum(n, m, lo) + Sum(n, m, n * m - lo - 1) == Choose(n + m, n)
    decreases if lo < 0 then 0 else lo + 1
  {
    hide Count;
    CountsSumToChoose(n, m);
    if lo < 0 {
      SumBeyond(n, m, n * m - lo - 1);
    } else {
      UpperTail(n, m, lo - 1);
      CountSymmetric(n, m, lo);
      if n * m - lo < 0 { CountBeyond(n, m, lo) by { assert n * m >= 0; } }
    }
  }

  /** The extreme interleavings are a low and a high end, which overlap only when they are all there is. */
  lemma {:induction false} ExtremeEnds(n: nat, m: nat, lo: nat)
    requires 2 * lo <= n * m
    ensures var all, low := Interleavings(n, m), AtMost(n, m, lo);
            var notHigh := AtMost(n, m, n * m - lo - 1);
            && notHigh <= all
            && Extreme(n, m, lo) == (if 2 * lo < n * m then low + (all - notHigh) else all)
            && (2 * lo < n * m ==> low !! (all - notHigh))
  {
    hide U, Members, AtMost, Interleavings;
    forall w
      ensures w in Interleavings(n, m) <==> Interleaving(w, n, m)
      ensures w in AtMost(n, m, lo) <==> Interleaving(w, n, m) && U(w) <= lo
      ensures w in AtMost(n, m, n * m - lo - 1) <==> Interleaving(w, n, m) && U(w) <= n * m - lo - 1
    {
      InterleavingsExact(n, m, w);
      AtMostExact(n, m, lo, w);
      AtMostExact(n, m, n * m - lo - 1, w);
    }
  }

  lemma {:induction false} RemovedSize(all: set<seq<bool>>, some: set<seq<bool>>)
    requires some <= all
    ensures |all - some| == |all| - |some|
  {
    DisjointSize(some, all - some);
    assert some + (all - some) == all;
  }

  lemma {:induction false} ExtremeSize(n: nat, m: nat, lo: nat)
    requires 2 * lo <= n * m
    ensures |Extreme(n, m, lo)| == if 2 * lo < n * m then 2 * Sum(n, m, lo) else Choose(n + m, n)
    ensures 2 * lo < n * m ==> 2 * Sum(n, m, lo) <= Choose(n + m, n)
    ensures 2 * lo == n * m ==> 2 * Sum(n, m, lo) >= Choose(n + m, n)
  {
    hide AtMost, Sum, Choose, Interleavings, Extreme;
    var all, low := Interleavings(n, m), AtMost(n, m, lo);
    var notHigh := AtMost(n, m, n * m - lo - 1);
    InterleavingsSize(n, m);
    AtMostSize(n, m, lo);
    AtMostSize(n, m, n * m - lo - 1);
    UpperTail(n, m, lo);
    ExtremeEnds(n, m, lo);
    RemovedSize(all, notHigh);
    if 2 * lo < n * m {
      DisjointSize(low, all - notHigh);
      ExtremeAmong(n, m, lo);
      SubsetSize(Extreme(n, m, lo), all);
    } else {
      assert n * m - lo - 1 == lo - 1;
      SumBelow(n, m, lo);
    }
  }

  lemma {:induction false} ExtremeAmong(n: nat, m: nat, lo: int)
    ensures Extreme(n, m, lo) <= Interleavings(n, m)
  {
    hide Interleavings, U;
  }

  lemma {:induction false} SumBelow(i: nat, j: nat, k: int)
    ensures Sum(i, j, k - 1) <= Sum(i, j, k)
  {
    hide Count;
  }

  // ----- The interleaving of two tie-free samples -------------------------------------------------

  predicate TieFree(vs: seq<real>) {
    forall i, j :: 0 <= i < j < |vs| ==> vs[i] != vs[j]
  }

  lemma {:induction false} TieFreeBySize(vs: seq<real>)
    ensures |set x | x in vs| <= |vs|
    ensures |set x | x in vs| == |vs| <==> TieFree(vs)
  {
    var all := set x | x in vs;
    if |vs| == 0 {
      assert all == {};
    } else {
      var k := |vs| - 1;
      var front, last := vs[..k], vs[k];
      var rest := set x | x in front;
      TieFreeBySize(front);
      assert forall x :: x in vs <==> x in front || x == last;
      assert all == rest + {last};
      if last in front {
        assert all == rest;
        var i :| 0 <= i < k && front[i] == last;
        assert vs[i] == vs[k];
      } else {
        assert |all| == |rest| + 1;
        if TieFree(front) {
          forall i, j | 0 <= i < j < |vs| ensures vs[i] != vs[j] {
            if j == k { assert front[i] in front; } else { assert front[i] != front[j]; }
          }
        } else {
          var i, j :| 0 <= i < j < k && front[i] == front[j];
          assert vs[i] == vs[j];
        }
      }
    }
  }

  function Pooled(a: seq<real>, b: seq<real>): seq<RankSum.Obs> {
    RankSum.SortByValue(RankSum.Tagged(a, true) + RankSum.Tagged(b, false))
  }

  function Origins(all: seq<RankSum.Obs>): (w: seq<bool>)
    ensures |w| == |all| && forall i :: 0 <= i < |w| ==> w[i] == all[i].fromA
  {
    seq(|all|, i requires 0 <= i < |all| => all[i].fromA)
  }

  /** The observed interleaving: which sample each value came from, in ascending order. */
  function Observed(a: seq<real>, b: seq<real>): seq<bool> { Origins(Pooled(a, b)) }

  lemma {:induction false} OriginsSnoc(s: seq<RankSum.Obs>, x: RankSum.Obs, y: bool)
    ensures Members(Origins(s + [x]), y) == Members(Origins(s), y) + if x.fromA == y then 1 else 0
  {
    assert Origins(s + [x]) == Origins(s) + [x.fromA];
    Snoc(Origins(s), x.fromA);
  }

  lemma {:induction false} InsertMembers(x: RankSum.Obs, s: seq<RankSum.Obs>, y: bool)
    ensures Members(Origins(RankSum.Insert(x, s)), y) == Members(Origins(s + [x]), y)
  {
    hide Members, Origins;
    if !(|s| == 0 || s[|s| - 1].v <= x.v) {
      var front, last := s[..|s| - 1], s[|s| - 1];
      assert s == front + [last];
      InsertMembers(x, front, y);
      OriginsSnoc(RankSum.Insert(x, front), last, y);
      OriginsSnoc(front, x, y);
      OriginsSnoc(front, last, y);
      OriginsSnoc(s, x, y);
    }
  }

  lemma {:induction false} SortMembers(s: seq<RankSum.Obs>, y: bool)
    ensures Members(Origins(RankSum.SortByValue(s)), y) == Members(Origins(s), y)
  {
    hide Members, Origins, RankSum.Insert;
    if |s| > 0 {
      var front, x := s[..|s| - 1], s[|s| - 1];
      assert s == front + [x];
      SortMembers(front, y);
      InsertMembers(x, RankSum.SortByValue(front), y);
      OriginsSnoc(RankSum.SortByValue(front), x, y);
      OriginsSnoc(front, x, y);
    } else {
      assert RankSum.SortByValue(s) == s;
    }
  }

  lemma {:induction false} MembersConcat(w: seq<bool>, z: seq<bool>, y: bool)
    ensures Members(w + z, y) == Members(w, y) + Members(z, y)
  {
    if |z| == 0 {
      assert w + z == w;
    } else {
      assert (w + z)[..|w + z| - 1] == w + z[..|z| - 1];
      MembersConcat(w, z[..|z| - 1], y);
    }
  }

  lemma {:induction false} ObservedIsInterleaving(a: seq<real>, b: seq<real>)
    ensures Interleaving(Observed(a, b), |a|, |b|)
  {
    hide Members;
    var s := RankSum.Tagged(a, true) + RankSum.Tagged(b, false);
    SortMembers(s, true);
    SortMembers(s, false);
    assert Origins(s) == Repeated(true, |a|) + Repeated(false, |b|);
    MembersConcat(Repeated(true, |a|), Repeated(false, |b|), true);
    MembersConcat(Repeated(true, |a|), Repeated(false, |b|), false);
    RepeatedMembers(true, |a|);
    RepeatedMembers(false, |b|);
  }

  lemma {:induction false} TimesTwice(x: real, vs: seq<real>)
    ensures (exists i, j :: 0 <= i < j < |vs| && vs[i] == x && vs[j] == x) <==> RankSum.Times(x, vs) >= 2
    ensures x in vs <==> RankSum.Times(x, vs) >= 1
  {
    if |vs| > 0 {
      var k := |vs| - 1;
      var front := vs[..k];
      TimesTwice(x, front);
      if x in front && vs[k] == x {
        var i :| 0 <= i < k && front[i] == x;
        assert vs[i] == x && vs[k] == x;
      }
      if i, j :| 0 <= i < j < |vs| && vs[i] == x && vs[j] == x {
        if j < k { assert front[i] == x && front[j] == x; } else { assert front[i] == x; }
      }
      if i, j :| 0 <= i < j < |front| && front[i] == x && front[j] == x {
        assert vs[i] == x && vs[j] == x;
      }
    }
  }

  lemma {:induction false} PooledStrict(a: seq<real>, b: seq<real>)
    requires TieFree(a + b)
    ensures var vs := RankSum.Values(Pooled(a, b));
            forall i, j :: 0 <= i < j < |vs| ==> vs[i] < vs[j]
  {
    hide RankSum.SortByValue, RankSum.Times, RankSum.Row2, RankSum.RankSum2, RankSum.TieTerms;
    var s := RankSum.Tagged(a, true) + RankSum.Tagged(b, false);
    var vs := RankSum.Values(Pooled(a, b));
    RankSum.SortAscending(s);
    assert RankSum.Values(s) == a + b;
    forall i, j | 0 <= i < j < |vs| ensures vs[i] < vs[j] {
      RankSum.SortSums(s, vs[i], []);
      TimesTwice(vs[i], vs);
      TimesTwice(vs[i], a + b);
    }
  }

  lemma {:induction false} RanksAgainstWord(all: seq<RankSum.Obs>, k: nat)
    requires k <= |all|
    requires forall i, j :: 0 <= i < j < |all| ==> all[i].v < all[j].v
    ensures var w := Origins(all[..k]);
            var n := Members(w, true);
            RankSum.RankSum2(all[..k], RankSum.Values(all)) == 2 * U(w) + LeastRankSum2(n)
  {
    hide U, Members, RankSum.Row2, RankSum.Times, LeastRankSum2;
    var vs := RankSum.Values(all);
    if k == 0 {
      assert U([]) == 0 && Members([], true) == 0 && LeastRankSum2(0) == 0 by { Empty(); }
    } else {
      RanksAgainstWord(all, k - 1);
      var front, o := all[..k - 1], all[k - 1];
      assert all[..k] == front + [o];
      assert Origins(all[..k]) == Origins(front) + [o.fromA];
      Snoc(Origins(front), o.fromA);
      MembersLength(Origins(front));
      assert RankSum.TieGroup(vs, k - 1, k - 1);
      RankSum.GroupRank(vs, k - 1, k - 1);
      RankSum.SnocParts(front, o);
      LeastRankSumStep(Members(Origins(front), true));
    }
  }

  /** Twice the sum of the ranks 1..n, the least that n observations can have. */
  function LeastRankSum2(n: int): int { n * (n + 1) }

  lemma {:induction false} LeastRankSumStep(n: int)
    ensures LeastRankSum2(n + 1) == LeastRankSum2(n) + 2 * n + 2
  {
  }

  lemma {:induction false} Empty()
    ensures U([]) == 0 && Members([], true) == 0 && LeastRankSum2(0) == 0
  {
  }

  /** For tie-free samples the pairwise statistic is the U of the observed interleaving, the pairs a wins there. */
  lemma {:induction false} ObservedU(a: seq<real>, b: seq<real>)
    requires TieFree(a + b)
    ensures RankSum.Pairs2(a, b) == 2 * U(Observed(a, b))
    ensures U(Observed(a, b)) == |Wins(Observed(a, b))|
  {
    hide U, Members, Wins, RankSum.RankSum2, RankSum.Pairs2, RankSum.SortByValue;
    var all := Pooled(a, b);
    PooledStrict(a, b);
    assert forall i :: 0 <= i < |all| ==> RankSum.Values(all)[i] == all[i].v;
    RanksAgainstWord(all, |all|);
    assert all[..|all|] == all;
    ObservedIsInterleaving(a, b);
    RankSum.RankSumIsPairs(a, b);
    UIsWins(Observed(a, b));
  }

  // ----- The exact test ------------------------------------------------------------------------------

  /** U's distance from the nearer end of its range. */
  function Tail(w: seq<bool>, n: nat, m: nat): int {
    if U(w) <= n * m - U(w) then U(w) else n * m - U(w)
  }

  /** The probability, all interleavings being equally likely, of one at least as extreme. */
  function ExtremeShare(n: nat, m: nat, lo: int): real {
    InterleavingsSize(n, m);
    |Extreme(n, m, lo)| as real / |Interleavings(n, m)| as real
  }

  /**
  The exact two-sided test. With ties it gives None: the source then switches to a normal
  approximation. Without, p is the share of all interleavings at least as extreme as the
  observed one.
   */
  method ExactP(a: seq<real>, b: seq<real>) returns (p: Option<real>)
    ensures p.Some? <==> TieFree(a + b)
    ensures p.Some? ==>
              var n, m := |a|, |b|;
              p.value == ExtremeShare(n, m, Tail(Observed(a, b), n, m))
  {
    hide U, Members, RankSum.Pairs2, Extreme, Interleavings, Choose, Count, Sum, Observed;
    var n, m := |a|, |b|;
    var u := RankSum.UStat(a, b);
    TieFreeBySize(a + b);
    if |set x | x in a + b| < n + m { return None; }
    ghost var w := Observed(a, b);
    ObservedU(a, b);
    ObservedIsInterleaving(a, b);
    UBound(w);
    InterleavingsSize(n, m);
    var total := Choose(n + m, n);
    var upper := (n * m) as real - u;
    var lo := if u <= upper then u else upper;
    assert lo == Tail(w, n, m) as real;
    var last := lo.Floor;
    var cache := new CountCache();
    var sum := 0;
    NothingBelowZero(n, m);
    for k := 0 to last + 1
      invariant cache.Valid() && fresh(cache)
      invariant sum == Sum(n, m, k - 1)
    {
      SumStep(n, m, k);
      var c := cache.Get(n, m, k);
      sum := sum + c;
    }
    var tail := sum as real / total as real;
    p := Some(if 2.0 * tail <= 1.0 then 2.0 * tail else 1.0);
    ExtremeSize(n, m, last);
    MinShare(sum, total, |Extreme(n, m, last)|, 2 * last < n * m);
  }

  lemma {:induction false} NothingBelowZero(n: nat, m: nat)
    ensures Sum(n, m, -1) == 0
  {
  }

  lemma {:induction false} MinShare(sum: nat, total: nat, size: nat, strict: bool)
    requires total > 0
    requires strict ==> size == 2 * sum && 2 * sum <= total
    requires !strict ==> size == total && 2 * sum >= total
    ensures var tail := sum as real / total as real;
            (if 2.0 * tail <= 1.0 then 2.0 * tail else 1.0) == size as real / total as real
  {
    DivideTwice(sum as real, total as real);
    if strict {
      DivideMono((2 * sum) as real, total as real, total as real);
    } else {
      DivideMono(total as real, (2 * sum) as real, total as real);
    }
  }

  lemma {:induction false} DivideTwice(s: real, t: real)
    requires t > 0.0
    ensures 2.0 * (s / t) == (2.0 * s) / t && t / t == 1.0
  {
  }

  lemma {:induction false} DivideMono(x: real, y: real, t: real)
    requires t > 0.0 && x <= y
    ensures x / t <= y / t
  {
  }
}
