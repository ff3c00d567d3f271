/**
The variance of U over all interleavings of two samples, which is what the normal approximation divides
by when nothing ties.
 */
module NullVariance {
  import opened Arithmetic
  import opened Wrappers
  import opened NullDistribution
  import RankSum

  // ----- The first two moments ----------------------------------------------------------------------------

  function Sq(a: int): int { a * a }

  /** U summed over the interleavings with U at most k. */
  function First(i: nat, j: nat, k: int): int
    decreases if k < 0 then 0 else k + 1
  {
    if k < 0 then 0 else First(i, j, k - 1) + Product(k, Count(i, j, k))
  }

  /** The square of U summed over them. */
  function Second(i: nat, j: nat, k: int): int
    decreases if k < 0 then 0 else k + 1
  {
    if k < 0 then 0 else Second(i, j, k - 1) + Product(Sq(k), Count(i, j, k))
  }

  lemma {:induction false} NoMoments(i: nat, j: nat, k: int)
    requires k < 0
    ensures First(i, j, k) == 0 && Second(i, j, k) == 0 && Sum(i, j, k) == 0 && Count(i, j, k) == 0
  {
  }

  lemma {:induction false} MomentStep(i: nat, j: nat, k: int)
    requires k >= 0
    ensures First(i, j, k) == First(i, j, k - 1) + Product(k, Count(i, j, k))
    ensures Second(i, j, k) == Second(i, j, k - 1) + Product(Sq(k), Count(i, j, k))
    ensures Sum(i, j, k) == Sum(i, j, k - 1) + Count(i, j, k)
  {
    hide Count, Product, Sq;
  }

  lemma {:induction false} SumRight(a: int, x: int, y: int)
    ensures Product(a, x + y) == Product(a, x) + Product(a, y) && Product(a, 0) == 0
  {
  }

  /** The moments up to k, one interleaving class removed. */
  lemma {:induction false} MomentBack(i: nat, j: nat, k: int)
    ensures First(i, j, k) == First(i, j, k - 1) + Product(k, Count(i, j, k))
    ensures Second(i, j, k) == Second(i, j, k - 1) + Product(Sq(k), Count(i, j, k))
    ensures Sum(i, j, k) == Sum(i, j, k - 1) + Count(i, j, k)
  {
    hide Count, Product, Sq, First, Second, Sum;
    if k < 0 {
      NoMoments(i, j, k);
      NoMoments(i, j, k - 1);
      SumRight(k, 0, 0);
      SumRight(Sq(k), 0, 0);
    } else {
      MomentStep(i, j, k);
    }
  }

  /** The largest observation is an a, which adds j to U, or a b, which adds nothing. */
  lemma {:induction false} MomentSplit(i: nat, j: nat, k: int)
    requires i > 0 && j > 0
    ensures First(i, j, k) == First(i - 1, j, k - j) + Product(j, Sum(i - 1, j, k - j)) + First(i, j - 1, k)
    ensures Second(i, j, k)
         == Second(i - 1, j, k - j) + Product(2 * j, First(i - 1, j, k - j)) + Product(Sq(j), Sum(i - 1, j, k - j))
            + Second(i, j - 1, k)
    decreases if k < 0 then 0 else k + 1
  {
    hide First, Second, Sum, Count, Product, Sq;
    if k < 0 {
      NoMoments(i, j, k);
      NoMoments(i - 1, j, k - j);
      NoMoments(i, j - 1, k);
      SumRight(j, 0, 0);
      SumRight(2 * j, 0, 0);
      SumRight(Sq(j), 0, 0);
    } else {
      var x, y := Count(i - 1, j, k - j), Count(i, j - 1, k);
      MomentSplit(i, j, k - 1);
      MomentBack(i, j, k);
      MomentBack(i, j - 1, k);
      MomentBack(i - 1, j, k - j);
      CountStep(i, j, k);
      MomentTerms(k, j, x, y);
      SumRight(j, Sum(i - 1, j, k - 1 - j), x);
      SumRight(Sq(j), Sum(i - 1, j, k - 1 - j), x);
      SumRight(2 * j, First(i - 1, j, k - 1 - j), Product(k - j, x));
    }
  }

  lemma {:induction false} CountStep(i: nat, j: nat, k: int)
    requires i > 0 && j > 0 && k >= 0
    ensures Count(i, j, k) == Count(i - 1, j, k - j) + Count(i, j - 1, k)
  {
  }

  lemma {:induction false} MomentTerms(k: int, j: int, x: int, y: int)
    ensures Product(k, x + y) == Product(k - j, x) + Product(j, x) + Product(k, y)
    ensures Product(Sq(k), x + y)
         == Product(Sq(k - j), x) + Product(2 * j, Product(k - j, x)) + Product(Sq(j), x) + Product(Sq(k), y)
  {
  }

  lemma {:induction false} MomentsBeyond(i: nat, j: nat, k: int)
    requires k >= i * j
    ensures First(i, j, k) == First(i, j, i * j) && Second(i, j, k) == Second(i, j, i * j) && Sum(i, j, k) == Sum(i, j, i * j)
    decreases k
  {
    hide First, Second, Sum, Count;
    assert i * j >= 0;
    if k > i * j {
      MomentsBeyond(i, j, k - 1);
      MomentStep(i, j, k);
      CountBeyond(i, j, k);
    }
  }

  /** The moments over all interleavings. */
  function Total1(i: nat, j: nat): int { First(i, j, i * j) }

  function Total2(i: nat, j: nat): int { Second(i, j, i * j) }

  lemma {:induction false} TotalSplit(i: nat, j: nat)
    requires i > 0 && j > 0
    ensures Total1(i, j) == Total1(i - 1, j) + Product(j, Choose(i + j - 1, i - 1)) + Total1(i, j - 1)
    ensures Total2(i, j)
         == Total2(i - 1, j) + Product(2 * j, Total1(i - 1, j)) + Product(Sq(j), Choose(i + j - 1, i - 1)) + Total2(i, j - 1)
  {
    hide First, Second, Sum, Choose, Product, Sq;
    Rectangle(i, j);
    MomentSplit(i, j, i * j);
    MomentsBeyond(i - 1, j, i * j - j);
    MomentsBeyond(i, j - 1, i * j);
    CountsSumToChoose(i - 1, j);
  }

  /** n * C(n - 1, k - 1) == k * C(n, k). */
  lemma {:induction false} Absorb(n: nat, k: nat)
    requires 0 < k <= n
    ensures n * Choose(n - 1, k - 1) == k * Choose(n, k)
    decreases n
  {
    ChooseEdge(n - 1, k);
    if n > 1 {
      if k > 1 { Absorb(n - 1, k - 1); } else { assert Choose(n - 1, 0) == 1; }
      if k < n { Absorb(n - 1, k); } else { ChooseEdge(n - 2, k - 1); }
      AbsorbTerms(n, k, Choose(n - 1, k - 1), Choose(n - 1, k), if k > 1 then Choose(n - 2, k - 2) else 0, Choose(n - 2, k - 1));
    }
  }

  lemma {:induction false} AbsorbTerms(n: int, k: int, a: int, b: int, c: int, d: int)
    requires (n - 1) * c == (k - 1) * a && (n - 1) * d == k * b && a == c + d
    ensures n * a == k * (a + b)
  {
    assert (n - 1) * a == (n - 1) * c + (n - 1) * d;
  }

  /** j * C(i + j - 1, i - 1) == i * C(i + j - 1, i): the two ways to remove the largest observation balance. */
  lemma {:induction false} Balance(i: nat, j: nat)
    requires i > 0 && j > 0
    ensures Product(j, Choose(i + j - 1, i - 1)) == Product(i, Choose(i + j - 1, i))
    ensures Choose(i + j, i) == Choose(i + j - 1, i - 1) + Choose(i + j - 1, i)
  {
    Absorb(i + j, i);
    BalanceTerms(i, j, Choose(i + j - 1, i - 1), Choose(i + j - 1, i));
  }

  lemma {:induction false} BalanceTerms(i: int, j: int, a: int, b: int)
    requires (i + j) * a == i * (a + b)
    ensures j * a == i * b
  {
  }

  /** The mean of U is i * j / 2. */
  lemma {:induction false} MeanOfU(i: nat, j: nat)
    ensures 2 * Total1(i, j) == Product(Choose(i + j, i), i * j)
    decreases i + j
  {
    hide Choose, First, Count;
    if i == 0 || j == 0 {
      EdgeMoments(i, j);
    } else {
      var a, b := Choose(i + j - 1, i - 1), Choose(i + j - 1, i);
      TotalSplit(i, j);
      MeanOfU(i - 1, j);
      MeanOfU(i, j - 1);
      Balance(i, j);
      MeanTerms(i, j, a, b, Product(j, a));
    }
  }

  lemma {:induction false} EdgeMoments(i: nat, j: nat)
    requires i == 0 || j == 0
    ensures i * j == 0 && Total1(i, j) == 0 && Total2(i, j) == 0
  {
    assert i * j == 0;
    NoMoments(i, j, -1);
    MomentBack(i, j, 0);
  }

  lemma {:induction false} MeanTerms(i: int, j: int, a: int, b: int, t: int)
    requires j * a == t && i * b == t
    ensures Product(a, (i - 1) * j) + 2 * t + Product(b, i * (j - 1)) == Product(a + b, i * j)
  {
    assert a * ((i - 1) * j) == i * t - t;
    assert b * (i * (j - 1)) == j * t - t;
    assert (a + b) * (i * j) == i * t + j * t;
  }

  /** The second moment of U. */
  lemma {:induction false} SecondOfU(i: nat, j: nat)
    ensures 12 * Total2(i, j) == Product(Choose(i + j, i), i * j * (3 * i * j + i + j + 1))
    decreases i + j
  {
    hide Choose, Second, First, Count, Product, Sq;
    if i == 0 || j == 0 {
      EdgeMoments(i, j);
      SumRight(Choose(i + j, i), 0, 0);
    } else {
      var a, b := Choose(i + j - 1, i - 1), Choose(i + j - 1, i);
      TotalSplit(i, j);
      SecondOfU(i - 1, j);
      SecondOfU(i, j - 1);
      MeanOfU(i - 1, j);
      Balance(i, j);
      SecondTerms(i, j, a, b, Product(j, a), Total1(i - 1, j));
    }
  }

  lemma {:induction false} Carry(a: int, j: int, t: int, r: int)
    requires Product(j, a) == t
    ensures Product(a, j * r) == Product(t, r)
  {
    assert a * (j * r) == (j * a) * r;
  }

  lemma {:induction false} MiddleTerm(i: int, j: int, a: int, t: int, m: int)
    requires Product(j, a) == t && 2 * m == Product(a, (i - 1) * j)
    ensures Product(2 * j, m) == Product(t, (i - 1) * j) && Product(Sq(j), a) == Product(t, j)
  {
    Carry(a, j, t, i - 1);
    assert (i - 1) * j == j * (i - 1);
    assert 2 * j * m == j * (2 * m) == j * (t * (i - 1));
    assert j * (t * (i - 1)) == t * ((i - 1) * j);
    assert j * j * a == j * (j * a) == t * j;
  }

  lemma {:induction false} Polynomial(i: int, j: int)
    ensures (i - 1) * (3 * (i - 1) * j + i + j) + 12 * ((i - 1) * j) + 12 * j + (j - 1) * (3 * i * (j - 1) + i + j)
         == i * (3 * i * j + i + j + 1) + j * (3 * i * j + i + j + 1)
  {
  }

  /** The factors of the two sides, with j or i taken out. */
  lemma {:induction false} Factors(i: int, j: int)
    ensures (i - 1) * j * (3 * (i - 1) * j + (i - 1) + j + 1) == j * ((i - 1) * (3 * (i - 1) * j + i + j))
    ensures i * (j - 1) * (3 * i * (j - 1) + i + (j - 1) + 1) == i * ((j - 1) * (3 * i * (j - 1) + i + j))
    ensures i * j * (3 * i * j + i + j + 1) == j * (i * (3 * i * j + i + j + 1)) == i * (j * (3 * i * j + i + j + 1))
  {
  }

  lemma {:induction false} SecondTerms(i: int, j: int, a: int, b: int, t: int, m: int)
    requires Product(j, a) == t && Product(i, b) == t && 2 * m == Product(a, (i - 1) * j)
    ensures Product(a, (i - 1) * j * (3 * (i - 1) * j + (i - 1) + j + 1)) + 12 * Product(2 * j, m) + 12 * Product(Sq(j), a)
            + Product(b, i * (j - 1) * (3 * i * (j - 1) + i + (j - 1) + 1))
         == Product(a + b, i * j * (3 * i * j + i + j + 1))
  {
    hide Product, Sq;
    var r1, r2 := (i - 1) * (3 * (i - 1) * j + i + j), (j - 1) * (3 * i * (j - 1) + i + j);
    var w := 3 * i * j + i + j + 1;
    Factors(i, j);
    Carry(a, j, t, r1);
    Carry(b, i, t, r2);
    MiddleTerm(i, j, a, t, m);
    Carry(a, j, t, i * w);
    Carry(b, i, t, j * w);
    Polynomial(i, j);
    Together(t, r1, (i - 1) * j, j, r2, i * w, j * w);
    ProductSum(a, b, i * j * w);
  }

  lemma {:induction false} Together(t: int, r1: int, x: int, y: int, r2: int, u: int, v: int)
    requires r1 + 12 * x + 12 * y + r2 == u + v
    ensures Product(t, r1) + 12 * Product(t, x) + 12 * Product(t, y) + Product(t, r2) == Product(t, u) + Product(t, v)
  {
    assert t * (r1 + 12 * x + 12 * y + r2) == t * r1 + 12 * (t * x) + 12 * (t * y) + t * r2;
    assert t * (u + v) == t * u + t * v;
  }

  // ----- The variance ------------------------------------------------------------------------------------

  /** Four times the squared distances of U from its middle, summed over the interleavings with U at most k. */
  function Spread(n: nat, m: nat, k: int): int
    decreases if k < 0 then 0 else k + 1
  {
    if k < 0 then 0 else Spread(n, m, k - 1) + Product(Sq(2 * k - n * m), |Words(n, m, k)|)
  }

  lemma {:induction false} SpreadIs(n: nat, m: nat, k: int)
    ensures Spread(n, m, k)
         == 4 * Second(n, m, k) - Product(4 * (n * m), First(n, m, k)) + Product(Sq(n * m), Sum(n, m, k))
    decreases if k < 0 then 0 else k + 1
  {
    hide First, Second, Sum, Count, Words, Product, Sq;
    if k < 0 {
      NoMoments(n, m, k);
      SumRight(4 * (n * m), 0, 0);
      SumRight(Sq(n * m), 0, 0);
    } else {
      var x := Count(n, m, k);
      SpreadIs(n, m, k - 1);
      MomentBack(n, m, k);
      CountIsWords(n, m, k);
      SumRight(4 * (n * m), First(n, m, k - 1), Product(k, x));
      SumRight(Sq(n * m), Sum(n, m, k - 1), x);
      SpreadTerms(k, n * m, x);
    }
  }

  lemma {:induction false} SpreadTerms(k: int, p: int, x: int)
    ensures Product(Sq(2 * k - p), x) == 4 * Product(Sq(k), x) - Product(4 * p, Product(k, x)) + Product(Sq(p), x)
  {
  }

  lemma {:induction false} SpreadTotal(n: nat, m: nat)
    ensures 3 * Spread(n, m, n * m) == Product(Choose(n + m, n), n * m * (n + m + 1))
  {
    hide First, Second, Sum, Choose, Product, Sq;
    SpreadIs(n, m, n * m);
    SecondOfU(n, m);
    MeanOfU(n, m);
    CountsSumToChoose(n, m);
    TotalTerms(Choose(n + m, n), n, m, Total1(n, m));
  }

  lemma {:induction false} TotalTerms(c: int, n: int, m: int, first: int)
    requires 2 * first == Product(c, n * m)
    ensures Product(c, n * m * (3 * n * m + n + m + 1)) - 3 * Product(4 * (n * m), first) + 3 * Product(Sq(n * m), c)
         == Product(c, n * m * (n + m + 1))
  {
    var p, q := n * m, n + m + 1;
    assert n * m * (3 * n * m + n + m + 1) == p * (3 * p + q) by { assert 3 * n * m == 3 * p; }
    assert 4 * p * first == 2 * p * (2 * first) == 2 * p * (c * p);
    assert c * (p * (3 * p + q)) == 3 * (c * (p * p)) + c * (p * q);
    assert 2 * p * (c * p) == 2 * (c * (p * p));
    assert p * p * c == c * (p * p);
  }

  /**
  Without ties the variance the test divides by is the variance of U: the mean, over all interleavings, of the
  squared distance from n * m / 2.
   */
  lemma {:induction false} VarianceOfU(n: nat, m: nat)
    requires n + m >= 2
    ensures |Interleavings(n, m)| > 0
    ensures RankSum.Variance(n, m, 0) == Spread(n, m, n * m) as real / 4.0 / |Interleavings(n, m)| as real
  {
    hide Spread, Choose, Interleavings, Product;
    SpreadTotal(n, m);
    InterleavingsSize(n, m);
    var c, p := Choose(n + m, n), n * m * (n + m + 1);
    assert Product(c, p) == c * p by { Unfold(c, p); }
    NoTies(n, m);
    Share(Spread(n, m, n * m), c, p);
  }

  lemma {:induction false} NoTies(n: nat, m: nat)
    requires n + m >= 2
    ensures RankSum.Variance(n, m, 0) == (n * m * (n + m + 1)) as real / 12.0
  {
    var d := ((n + m) * (n + m - 1)) as real;
    assert d != 0.0;
    assert 0.0 / d == 0.0;
    assert (n * m * (n + m + 1)) as real == (n * m) as real * (n + m + 1) as real;
  }

  lemma {:induction false} Share(spread: int, c: int, p: int)
    requires c > 0 && 3 * spread == c * p
    ensures p as real / 12.0 == spread as real / 4.0 / c as real
  {
    assert 3.0 * spread as real == (3 * spread) as real == (c * p) as real == c as real * p as real;
    var s, x, y := spread as real, c as real, p as real;
    assert s / 4.0 == x * y / 12.0;
    assert x * y / 12.0 / x == y / 12.0;
  }
}
