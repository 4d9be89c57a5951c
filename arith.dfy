/** Small facts of integer and real arithmetic that the solver needs spelled out. */
module Arith {

  /** The smaller of two values (std::min, or the comparison osg writes out). */
  function Min(a: real, b: real): (r: real)
    ensures r <= a && r <= b && (r == a || r == b)
  {
    if a <= b then a else b
  }

  /** The larger of two values (Python's max, std::max). */
  function Max(a: real, b: real): (r: real)
    ensures r >= a && r >= b && (r == a || r == b)
  {
    if a >= b then a else b
  }

  lemma MulAtLeast(k: int, c: int)
    requires k >= 1 && c >= 1
    ensures k * c >= c
  {
    assert k * c == (k - 1) * c + c;
  }

  lemma MulMono(a: int, b: int, c: nat)
    requires a <= b
    ensures a * c <= b * c
  {
    assert b * c - a * c == (b - a) * c;
  }

  /** Euclidean division is determined by quotient and remainder. */
  lemma DivModUnique(k: int, q: int, m: int, c: int)
    requires c > 0 && k == q * c + m && 0 <= m < c
    ensures k / c == q && k % c == m
  {
    var q', m' := k / c, k % c;
    assert (q - q') * c == m' - m;
    if q - q' >= 1 {
      MulAtLeast(q - q', c);
    }
    if q - q' <= -1 {
      MulAtLeast(q' - q, c);
    }
  }

  lemma RealMulMono(a: real, b: real, c: real)
    requires a <= b && c >= 0.0
    ensures a * c <= b * c
  {
    assert b * c - a * c == (b - a) * c;
  }

  lemma RealMulStrict(a: real, b: real, c: real)
    requires a < b && c > 0.0
    ensures a * c < b * c
  {
    assert b * c - a * c == (b - a) * c;
  }

  /** Adding one before or after taking the remainder gives the same remainder. */
  lemma ModSucc(k: nat, c: int)
    requires c > 0
    ensures (k % c + 1) % c == (k + 1) % c
  {
    var q, m := k / c, k % c;
    if m + 1 < c {
      DivModUnique(k + 1, q, m + 1, c);
      DivModUnique(m + 1, 0, m + 1, c);
    } else {
      DivModUnique(k + 1, q + 1, 0, c);
      DivModUnique(m + 1, 1, 0, c);
    }
  }
}
