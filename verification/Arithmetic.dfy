/** Division facts used by the gram, timer and price models. */
module Arithmetic {
  import opened Common

  lemma DivUnique(n: int, d: int, k: int)
    requires d > 0 && d * k <= n < d * (k + 1)
    ensures n / d == k
  {
    var q := n / d;
    assert n == d * q + n % d;
    if q < k { MulMonotone(d, q + 1, k); } else if q > k { MulMonotone(d, k + 1, q); }
  }

  lemma MulMonotone(d: int, a: int, b: int)
    requires d >= 0 && a <= b
    ensures d * a <= d * b
  {
    assert d * b - d * a == d * (b - a);
  }

  lemma DivBounds(n: int, d: int)
    requires d > 0
    ensures d * (n / d) <= n < d * (n / d + 1)
  {
    assert n == d * (n / d) + n % d;
    assert d * (n / d + 1) == d * (n / d) + d;
  }

  lemma DivShift(n: int, d: int, k: int)
    requires d > 0
    ensures (n + k * d) / d == n / d + k
  {
    DivBounds(n, d);
    assert d * (n / d + k) == d * (n / d) + k * d;
    assert d * (n / d + k + 1) == d * (n / d + 1) + k * d;
    DivUnique(n + k * d, d, n / d + k);
  }

  lemma DivMonotone(a: int, b: int, d: int)
    requires d > 0 && a <= b
    ensures a / d <= b / d
  {
    DivBounds(a, d);
    DivBounds(b, d);
    if a / d > b / d { MulMonotone(d, b / d + 1, a / d); }
  }
}
