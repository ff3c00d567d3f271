/** Integer facts shared by the other modules. */
module Arithmetic {

  function Min(a: int, b: int): int { if a <= b then a else b }

  function Max(a: int, b: int): int { if a >= b then a else b }

  /** A product that proofs can keep opaque. */
  function Product(a: int, b: int): int { a * b }

  lemma {:induction false} ProductNext(a: int, b: int)
    ensures Product(a + 1, b) == Product(a, b) + b && Product(a, b) == Product(b, a) && Product(0, b) == 0
  {
  }

  lemma {:induction false} ProductMono(a: int, b: int, d: int)
    requires a <= b && d >= 0
    ensures Product(a, d) <= Product(b, d)
  {
  }

  lemma {:induction false} ProductSum(a: int, b: int, d: int)
    ensures Product(a + b, d) == Product(a, d) + Product(b, d)
  {
  }

  lemma {:induction false} SquareIsProduct(a: int)
    ensures a * a == Product(a, a)
  {
  }

  /** Different multiples are a whole step apart. */
  lemma {:induction false} Apart(a: int, b: int, d: nat)
    ensures a < b ==> (a + 1) * d <= b * d
    ensures (a + 1) * d == a * d + d
  {
    hide Product;
    if a < b { ProductMono(a + 1, b, d); }
    ProductNext(a, d);
    Unfold(a + 1, d);
    Unfold(a, d);
    Unfold(b, d);
  }

  lemma {:induction false} DivUnique(p: int, q: int, x: int, d: nat)
    requires d > 0 && p * d <= x < (p + 1) * d && q * d <= x < (q + 1) * d
    ensures p == q
  {
    Apart(p, q, d);
    Apart(q, p, d);
  }

  lemma {:induction false} Quotient(x: int, d: nat, q: int)
    requires d > 0 && q * d <= x < q * d + d
    ensures x / d == q
  {
    var p := x / d;
    assert p * d + x % d == x;
    Apart(p, p, d);
    Apart(q, q, d);
    DivUnique(p, q, x, d);
  }

  lemma {:induction false} Unfold(a: int, b: int)
    ensures Product(a, b) == a * b
  {
  }
}
