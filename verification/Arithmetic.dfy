/** Products, quotients and remainders, where the solver needs a hand. */
module Arithmetic {

  function Min(a: int, b: int): int { if a < b then a else b }

  lemma DivBounds(n: nat, k: nat)
    requires k > 0
    ensures (n / k) * k <= n < (n / k) * k + k
  {
  }

  lemma MulLe(a: int, b: int, k: nat)
    requires a <= b
    ensures a * k <= b * k
  {
  }

  lemma MulStep(a: int, k: int)
    ensures (a + 1) * k == a * k + k
  {
  }

  lemma MulSum(a: int, b: int, k: int)
    ensures (a + b) * k == a * k + b * k
  {
  }

  lemma Grows(d: int, m: int)
    requires m > 0
    ensures d >= 1 ==> d * m >= m
    ensures d <= -1 ==> d * m <= -m
  {
  }

  lemma DivUnique(x: int, m: int, q: int, r: int)
    requires m > 0 && 0 <= r < m && x == q * m + r
    ensures x / m == q && x % m == r
  {
    var d := x / m - q;
    assert x == (x / m) * m + x % m;
    assert d * m == r - x % m;
    Grows(d, m);
  }

  lemma DivModAt(q: nat, k: nat, c: nat)
    requires c < k
    ensures (q * k + c) / k == q && (q * k + c) % k == c
  {
    DivUnique(q * k + c, k, q, c);
  }

  /** Reducing a factor first changes nothing. */
  lemma ModOfProduct(a: nat, b: nat, m: nat)
    requires m > 0
    ensures ((a % m) * b) % m == (a * b) % m
  {
    var q, r := a / m, a % m;
    var q', r' := (r * b) / m, (r * b) % m;
    assert a * b == (q * m + r) * b == (q * b) * m + r * b;
    assert r * b == q' * m + r';
    assert a * b == (q * b + q') * m + r';
    DivUnique(a * b, m, q * b + q', r');
  }
}
