/** Nonlinear facts the other modules lean on. */
module Arithmetic {

  lemma RealMulMonotone(x: real, y: real, g: real)
    requires g > 0.0
    ensures x <= y <==> x * g <= y * g
  {
    assert (y - x) * g == y * g - x * g;
  }

  lemma IntMulMonotone(x: int, y: int, g: int)
    requires g > 0
    ensures x <= y <==> x * g <= y * g
  {
    assert (y - x) * g == y * g - x * g;
  }

  lemma DivideExactly(n: int, d: int, q: int, r: int)
    requires 0 <= r < d && n == d * q + r
    ensures n / d == q
  {
    var b, s := n / d, n % d;
    assert n == d * b + s;
    assert d * (b - q) == d * b - d * q;
    IntMulMonotone(b - q, 0, d);
    IntMulMonotone(b - q + 1, 1, d);
    IntMulMonotone(1, b - q, d);
    IntMulMonotone(b - q, -1, d);
  }

  lemma ModWraps(x: int, n: int)
    requires 0 < n <= x < 2 * n
    ensures x % n == x - n
  {
    DivideExactly(x, n, 1, x - n);
    assert x == (x / n) * n + x % n;
  }
}
