/** Small facts of integer arithmetic the drivers' proofs share. */
module Arith {

  /** Multiplying by a non-negative factor keeps the order. */
  lemma MulLe(x: int, y: int, m: int)
    requires x <= y && m >= 0
    ensures x * m <= y * m
  {}

  /** One more copy of a factor. */
  lemma MulSucc(j: int, m: int)
    ensures (j + 1) * m == j * m + m
  {}

  /** Dividing out a positive factor keeps the order. */
  lemma MulStrict(d: int, a: int, b: int)
    requires d > 0 && d * a >= d * b
    ensures a >= b
  {}

  /** Euclidean division has one quotient and one remainder. */
  lemma DivModUnique(a: int, m: int, q: int, r: int)
    requires m > 0 && 0 <= r < m && a == q * m + r
    ensures a / m == q && a % m == r
  {
    var q' := a / m;
    if q' < q {
      MulLe(q' + 1, q, m);
    } else if q' > q {
      MulLe(q + 1, q', m);
    }
  }
}
