/** Remainders and rounding, shared by several models. */
module Arithmetic {

  lemma QuotientUnique(x: int, c: int, q: int, r: int)
    requires 0 <= r < c && x == q * c + r
    ensures x / c == q && x % c == r
  {
    var k := x / c;
    assert x == k * c + x % c;
    if k > q {
      MulAtLeast(k - q, c);
    } else if k < q {
      MulAtLeast(q - k, c);
    }
    assert (k - q) * c == k * c - q * c;
  }

  lemma MulAtLeast(a: int, c: int)
    requires a >= 1 && c > 0
    ensures a * c >= c
  {
  }

  function Distance(a: real, b: real): real { if a <= b then b - a else a - b }

  // Rounds half away from zero.
  function Rounded(x: real): (r: int)
    ensures Distance(x, r as real) <= 0.5
  {
    if x >= 0.0 then (x + 0.5).Floor else -((-x + 0.5).Floor)
  }
}
