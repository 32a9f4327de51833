/** Products and quotients of natural numbers. */
module Arithmetic {
  lemma {:induction false} Times(a: nat, b: nat, n: nat)
    requires a < b
    ensures a * n + n <= b * n
  {
    if a + 1 < b {
      Times(a, b - 1, n);
    }
  }

  lemma DivModUnique(a: nat, q: nat, r: nat, n: nat)
    requires r < n && a == q * n + r
    ensures a / n == q && a % n == r
  {
    var p := a / n;
    assert 0 <= a - p * n < n;
    if p < q {
      Times(p, q, n);
    } else if q < p {
      Times(q, p, n);
    }
  }

  lemma ModAdd(x: nat, k: nat, m: nat)
    requires 0 < m
    ensures (x + k * m) % m == x % m
  {
    assert x + k * m == (x / m + k) * m + x % m;
    DivModUnique(x + k * m, x / m + k, x % m, m);
  }
}
