/**
  Facts about integer multiplication and Euclidean division that the card
  layout and the factorial need; the solver does not find them unaided.
 */
module Arithmetic {

  /** Multiplying by a non-negative n keeps the order of the factors. */
  lemma {:induction false} MulMonotone(a: int, b: int, n: int)
    requires n >= 0
    ensures a < b ==> a * n + n <= b * n
    decreases b - a
  {
    if a < b - 1 {
      MulMonotone(a, b - 1, n);
      assert b * n == (b - 1) * n + n;
    } else if a == b - 1 {
      assert b * n == a * n + n;
    }
  }

  /** One factor less takes one n off the product. */
  lemma MulPred(s: int, n: int)
    ensures s * n == (s - 1) * n + n
  {
  }

  /** i splits into its quotient and remainder by n. */
  lemma DivModParts(i: int, n: int)
    requires n > 0
    ensures i == (i / n) * n + i % n && 0 <= i % n < n
  {
  }

  /** A position below m * n has a quotient by n below m. */
  lemma QuotientBelow(i: int, m: int, n: int)
    requires n > 0 && 0 <= i < m * n
    ensures 0 <= i / n < m
  {
    var q := i / n;
    DivModParts(i, n);
    MulMonotone(q, 0, n);
    MulMonotone(m - 1, q, n);
    MulPred(m, n);
  }

  /** Euclidean division by n undoes the layout `q * n + r`. */
  lemma DivModOf(q: int, r: int, n: int)
    requires n > 0 && 0 <= r < n
    ensures (q * n + r) / n == q && (q * n + r) % n == r
  {
    var i := q * n + r;
    DivModParts(i, n);
    MulMonotone(i / n, q, n);
    MulMonotone(q, i / n, n);
  }

  /** Two different non-negative numbers differ in their quotient or in their
      remainder by n. */
  lemma DistinctPositions(i: int, j: int, n: int)
    requires 0 <= i < j && n > 0
    ensures i % n != j % n || i / n != j / n
  {
    DivModParts(i, n);
    DivModParts(j, n);
  }
}
