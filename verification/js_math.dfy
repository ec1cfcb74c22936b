/** JavaScript's `Math.round` on exact rationals. The source computes with
    IEEE doubles; on the rationals used here the two agree except where a
    double's rounding error lands exactly on a half. */
module JsMath {

  /** `Math.round`: the nearest integer, halves rounded up. */
  function Round(x: real): (n: int)
    ensures n as real - 0.5 <= x < n as real + 0.5
  {
    (x + 0.5).Floor
  }

  lemma RoundBounds(x: real, lo: int, hi: int)
    requires lo as real <= x <= hi as real
    ensures lo <= Round(x) <= hi
  {
  }

  lemma RoundShift(x: real, k: int)
    ensures Round(x + k as real) == Round(x) + k
  {
  }

  /** Rounding never reverses an order. */
  lemma RoundMonotone(x: real, y: real)
    requires x <= y
    ensures Round(x) <= Round(y)
  {
  }

  /** An integer rounds to itself. */
  lemma RoundInt(k: int)
    ensures Round(k as real) == k
  {
  }

  /** Multiplying by a positive number keeps a strict order. */
  lemma MulStrict(a: real, b: real, c: real)
    requires c > 0.0
    ensures a < b ==> a * c < b * c
  {
  }
}
