/** Softmax over a growing set of tokens, over reals and for any `exp` that is positive
    and turns sums into products. */
module OnlineSoftmax {

  ghost predicate AddsToMul(exp: real -> real, a: real, b: real) {
    exp(a + b) == exp(a) * exp(b)
  }

  ghost predicate IsExp(exp: real -> real) {
    (forall a :: exp(a) > 0.0) && (forall a, b :: AddsToMul(exp, a, b))
  }

  /** Multiplication under a name, so that equal factors make equal products at sight. */
  function Times(a: real, b: real): real { a * b }

  function Max(a: real, b: real): (m: real)
    ensures m >= a && m >= b && (m == a || m == b)
  {
    if a < b then b else a
  }

  /** The largest score of the tokens `lo..hi-1`. */
  ghost function MaxOver(s: int -> real, lo: int, hi: int): (m: real)
    requires lo < hi
    ensures forall t :: lo <= t < hi ==> s(t) <= m
    ensures exists t :: lo <= t < hi && s(t) == m
    decreases hi - lo
  {
    if hi == lo + 1 then s(lo) else Max(MaxOver(s, lo, hi - 1), s(hi - 1))
  }

  /** Sum of `exp(s(t) - m) * v(t)` over the tokens `lo..hi-1`. */
  ghost function Weighted(exp: real -> real, s: int -> real, v: int -> real, m: real, lo: int, hi: int): real
    decreases hi - lo
  {
    if hi <= lo then 0.0 else Weighted(exp, s, v, m, lo, hi - 1) + Times(exp(s(hi - 1) - m), v(hi - 1))
  }

  /** The weight of every token, for the softmax denominator. */
  ghost function One(): int -> real { _ => 1.0 }

  /** The reference: one softmax over the tokens `0..n-1`, with nothing subtracted. */
  ghost function Softmax(exp: real -> real, s: int -> real, v: int -> real, n: int): real
    requires IsExp(exp) && n > 0
  {
    WeightedPositive(exp, s, 0.0, 0, n);
    Weighted(exp, s, v, 0.0, 0, n) / Weighted(exp, s, One(), 0.0, 0, n)
  }

  lemma {:induction false} WeightedPositive(exp: real -> real, s: int -> real, m: real, lo: int, hi: int)
    requires IsExp(exp) && lo < hi
    ensures Weighted(exp, s, One(), m, lo, hi) > 0.0
    decreases hi - lo
  {
    assert exp(s(hi - 1) - m) > 0.0;
    if lo + 1 < hi {
      WeightedPositive(exp, s, m, lo, hi - 1);
    }
  }

  lemma MaxOverJoin(s: int -> real, lo: int, mid: int, hi: int)
    requires lo < mid < hi
    ensures MaxOver(s, lo, hi) == Max(MaxOver(s, lo, mid), MaxOver(s, mid, hi))
    decreases hi - mid
  {
  }

  lemma {:induction false} WeightedJoin(exp: real -> real, s: int -> real, v: int -> real, m: real, lo: int, mid: int,
      hi: int)
    requires lo <= mid <= hi
    ensures Weighted(exp, s, v, m, lo, hi) == Weighted(exp, s, v, m, lo, mid) + Weighted(exp, s, v, m, mid, hi)
    decreases hi - mid
  {
    if mid < hi {
      WeightedJoin(exp, s, v, m, lo, mid, hi - 1);
    }
  }

  lemma ExpShift(exp: real -> real, x: real, m: real, m': real)
    requires IsExp(exp)
    ensures exp(x - m') == exp(m - m') * exp(x - m)
  {
    assert AddsToMul(exp, m - m', x - m);
    assert (m - m') + (x - m) == x - m';
  }

  /** Changing the subtracted maximum rescales the sum. */
  lemma {:induction false} WeightedShift(exp: real -> real, s: int -> real, v: int -> real, m: real, m': real, lo: int,
      hi: int)
    requires IsExp(exp)
    ensures Weighted(exp, s, v, m', lo, hi) == Times(exp(m - m'), Weighted(exp, s, v, m, lo, hi))
    decreases hi - lo
  {
    if lo < hi {
      WeightedShift(exp, s, v, m, m', lo, hi - 1);
      ExpShift(exp, s(hi - 1), m, m');
      Distribute(exp(m - m'), Weighted(exp, s, v, m, lo, hi - 1), exp(s(hi - 1) - m), v(hi - 1));
    }
  }

  lemma Distribute(k: real, a: real, b: real, c: real)
    ensures k * a + (k * b) * c == k * (a + b * c)
  {
  }

  /** The online update: a sum `a` taken against `m` and a sum `b` taken against `mij`,
      both rescaled to the larger of the two. */
  function Rescale(exp: real -> real, m: real, a: real, mij: real, b: real): real {
    Times(exp(m - Max(m, mij)), a) + Times(exp(mij - Max(m, mij)), b)
  }

  /** Two neighbouring spans merge into the sum of the whole span. */
  lemma MergeWeights(exp: real -> real, s: int -> real, v: int -> real, m: real, mij: real, lo: int, mid: int, hi: int)
    requires IsExp(exp) && lo <= mid <= hi
    ensures Rescale(exp, m, Weighted(exp, s, v, m, lo, mid), mij, Weighted(exp, s, v, mij, mid, hi))
         == Weighted(exp, s, v, Max(m, mij), lo, hi)
  {
    var all := Max(m, mij);
    WeightedShift(exp, s, v, m, all, lo, mid);
    WeightedShift(exp, s, v, mij, all, mid, hi);
    WeightedJoin(exp, s, v, all, lo, mid, hi);
  }

  /** Whatever maximum was subtracted, the quotient is the plain softmax average. */
  lemma NormalisedIsSoftmax(exp: real -> real, s: int -> real, v: int -> real, m: real, n: int)
    requires IsExp(exp) && n > 0
    ensures Weighted(exp, s, One(), m, 0, n) > 0.0
    ensures Weighted(exp, s, v, m, 0, n) / Weighted(exp, s, One(), m, 0, n) == Softmax(exp, s, v, n)
  {
    WeightedPositive(exp, s, m, 0, n);
    WeightedPositive(exp, s, 0.0, 0, n);
    WeightedShift(exp, s, v, m, 0.0, 0, n);
    WeightedShift(exp, s, One(), m, 0.0, 0, n);
    Cancel(exp(m - 0.0), Weighted(exp, s, v, m, 0, n), Weighted(exp, s, One(), m, 0, n));
  }

  lemma Cancel(k: real, a: real, b: real)
    requires k > 0.0 && b > 0.0
    ensures k * b > 0.0 && (k * a) / (k * b) == a / b
  {
  }
}
