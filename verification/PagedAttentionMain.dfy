/** The online update and the orchestration of paged attention: request by request,
    query tile by query tile, group by group. */
module PagedAttentionMain {
  import opened OnlineSoftmax
  import opened PagedAttention

  // ---------------------------------------------------------------- online update

  /** The accumulators of a query tile after the tokens `0..n-1`. */
  ghost predicate Accumulated(mi: seq<real>, li: seq<real>, oi: seq<seq<real>>, exp: real -> real, s: seq<int -> real>,
      v: seq<int -> real>, lo: int, n: int)
  {
    && lo < n && |mi| == |li| == |oi| == |s|
    && (forall r :: 0 <= r < |s| ==> mi[r] == MaxOver(s[r], lo, n))
    && (forall r :: 0 <= r < |s| ==> li[r] == Weighted(exp, s[r], One(), mi[r], lo, n))
    && GroupSums(oi, exp, s, v, mi, lo, n)
  }

  /** The whole of a two-dimensional buffer, as `pl.load` reads it. */
  function Load(a: array2<real>): (rows: seq<seq<real>>)
    reads a
    ensures |rows| == a.Length0 && forall r :: 0 <= r < |rows| ==> |rows[r]| == a.Length1
    ensures forall r, d :: 0 <= r < a.Length0 && 0 <= d < a.Length1 ==> rows[r][d] == a[r, d]
  {
    seq(a.Length0, r requires 0 <= r < a.Length0 reads a => seq(a.Length1, d requires 0 <= d < a.Length1 reads a =>
      a[r, d]))
  }

  /** `pl.store` of a tile at row `offset`. */
  method StoreRows(a: array2<real>, offset: nat, rows: seq<seq<real>>)
    requires offset + |rows| <= a.Length0 && forall r :: 0 <= r < |rows| ==> |rows[r]| == a.Length1
    modifies a
    ensures forall row, d :: offset <= row < offset + |rows| && 0 <= d < a.Length1 ==>
      a[row, d] == rows[row - offset][d]
    ensures forall row, d :: 0 <= row < a.Length0 && 0 <= d < a.Length1 && !(offset <= row < offset + |rows|) ==>
      a[row, d] == old(a[row, d])
  {
    forall row, d | offset <= row < offset + |rows| && 0 <= d < a.Length1 {
      a[row, d] := rows[row - offset][d];
    }
  }

  method StoreVector(a: array<real>, values: seq<real>)
    requires |values| == a.Length
    modifies a
    ensures a[..] == values
  {
    forall r | 0 <= r < a.Length {
      a[r] := values[r];
    }
  }

  /** The tile the online update stores for `oi`: every component rescaled by its row. */
  function RescaleTile(exp: real -> real, m: seq<real>, a: seq<seq<real>>, mij: seq<real>,
      b: seq<seq<real>>): (t: seq<seq<real>>)
    requires |m| == |a| == |mij| == |b| && forall r :: 0 <= r < |a| ==> |a[r]| == |b[r]|
    ensures |t| == |a| && forall r :: 0 <= r < |t| ==> |t[r]| == |a[r]|
    ensures forall r, d :: 0 <= r < |t| && 0 <= d < |t[r]| ==> t[r][d] == Rescale(exp, m[r], a[r][d], mij[r], b[r][d])
  {
    seq(|a|, r requires 0 <= r < |a| && |m| == |a| == |mij| == |b| && (forall r' :: 0 <= r' < |a| ==>
        |a[r']| == |b[r']|) => seq(|a[r]|, d requires 0 <= d < |a[r]| && 0 <= r < |a| && |m| == |a| == |mij| == |b|
        && |a[r]| == |b[r]| => Rescale(exp, m[r], a[r][d], mij[r], b[r][d])))
  }

  function RescaleVector(exp: real -> real, m: seq<real>, a: seq<real>, mij: seq<real>, b: seq<real>): (t: seq<real>)
    requires |m| == |a| == |mij| == |b|
    ensures |t| == |a| && forall r :: 0 <= r < |t| ==> t[r] == Rescale(exp, m[r], a[r], mij[r], b[r])
  {
    seq(|a|, r requires 0 <= r < |a| && |m| == |a| == |mij| == |b| => Rescale(exp, m[r], a[r], mij[r], b[r]))
  }

  function MaxVector(a: seq<real>, b: seq<real>): (t: seq<real>)
    requires |a| == |b|
    ensures |t| == |a| && forall r :: 0 <= r < |t| ==> t[r] == Max(a[r], b[r])
  {
    seq(|a|, r requires 0 <= r < |a| == |b| => Max(a[r], b[r]))
  }

  /** `pl.row_expand_div`. */
  function DivideRows(o: seq<seq<real>>, l: seq<real>): (t: seq<seq<real>>)
    requires |o| == |l| && forall r :: 0 <= r < |l| ==> l[r] != 0.0
    ensures |t| == |o| && forall r :: 0 <= r < |t| ==> |t[r]| == |o[r]|
    ensures forall r, d :: 0 <= r < |t| && 0 <= d < |t[r]| ==> t[r][d] == o[r][d] / l[r]
  {
    seq(|o|, r requires 0 <= r < |o| == |l| && l[r] != 0.0 =>
      seq(|o[r]|, d requires 0 <= d < |o[r]| && 0 <= r < |o| == |l| && l[r] != 0.0 => o[r][d] / l[r]))
  }

  /** Accumulators of `lo..mid-1` and a group of `mid..hi-1` merge into `lo..hi-1`. */
  lemma UpdateAccumulates(m: seq<real>, l: seq<real>, o: seq<seq<real>>, mij: seq<real>, lij: seq<real>,
      oNew: seq<seq<real>>, exp: real -> real, s: seq<int -> real>, v: seq<int -> real>, lo: int, mid: int, hi: int)
    requires IsExp(exp) && Accumulated(m, l, o, exp, s, v, lo, mid) && Accumulated(mij, lij, oNew, exp, s, v, mid, hi)
    requires forall r :: 0 <= r < |o| ==> |o[r]| == |oNew[r]|
    ensures Accumulated(MaxVector(m, mij), RescaleVector(exp, m, l, mij, lij), RescaleTile(exp, m, o, mij, oNew), exp,
      s, v, lo, hi)
  {
    var m', l', o' := MaxVector(m, mij), RescaleVector(exp, m, l, mij, lij), RescaleTile(exp, m, o, mij, oNew);
    forall r | 0 <= r < |s|
      ensures m'[r] == MaxOver(s[r], lo, hi)
      ensures l'[r] == Weighted(exp, s[r], One(), m'[r], lo, hi)
      ensures RowSums(o'[r], exp, s[r], v, m'[r], lo, hi)
    {
      MaxOverJoin(s[r], lo, mid, hi);
      MergeWeights(exp, s[r], One(), m[r], mij[r], lo, mid, hi);
      assert RowSums(o[r], exp, s[r], v, m[r], lo, mid) && RowSums(oNew[r], exp, s[r], v, mij[r], mid, hi);
      forall d | 0 <= d < |v|
        ensures o'[r][d] == Weighted(exp, s[r], v[d], m'[r], lo, hi)
      {
        MergeWeights(exp, s[r], v[d], m[r], mij[r], lo, mid, hi);
      }
    }
  }

  lemma AccumulatedPositive(m: seq<real>, l: seq<real>, o: seq<seq<real>>, exp: real -> real, s: seq<int -> real>,
      v: seq<int -> real>, lo: int, n: int)
    requires IsExp(exp) && Accumulated(m, l, o, exp, s, v, lo, n)
    ensures forall r :: 0 <= r < |l| ==> l[r] > 0.0
  {
    forall r | 0 <= r < |l|
      ensures l[r] > 0.0
    {
      WeightedPositive(exp, s[r], m[r], lo, n);
    }
  }

  /** What the output rows hold: the softmax average once the last group is in, zeros before. */
  ghost predicate RowsFinal(rows: seq<seq<real>>, exp: real -> real, s: seq<int -> real>, v: seq<int -> real>, n: int)
    requires IsExp(exp) && n > 0
  {
    && |rows| == |s|
    && (forall r :: 0 <= r < |rows| ==> |rows[r]| == |v|)
    && (forall r, d :: 0 <= r < |rows| && 0 <= d < |v| ==> rows[r][d] == Softmax(exp, s[r], v[d], n))
  }

  lemma DividedIsFinal(m: seq<real>, l: seq<real>, o: seq<seq<real>>, exp: real -> real, s: seq<int -> real>,
      v: seq<int -> real>, n: int)
    requires IsExp(exp) && n > 0 && Accumulated(m, l, o, exp, s, v, 0, n)
    ensures forall r :: 0 <= r < |l| ==> l[r] > 0.0
    ensures forall r :: 0 <= r < |o| ==> |o[r]| == |v|
    ensures RowsFinal(DivideRows(o, l), exp, s, v, n)
  {
    AccumulatedPositive(m, l, o, exp, s, v, 0, n);
    var rows := DivideRows(o, l);
    forall r | 0 <= r < |rows|
      ensures |o[r]| == |rows[r]| == |v|
      ensures forall d :: 0 <= d < |v| ==> rows[r][d] == Softmax(exp, s[r], v[d], n)
    {
      assert RowSums(o[r], exp, s[r], v, m[r], 0, n);
      forall d | 0 <= d < |v|
        ensures rows[r][d] == Softmax(exp, s[r], v[d], n)
      {
        NormalisedIsSoftmax(exp, s[r], v[d], m[r], n);
      }
    }
  }

  /** The arithmetic of the online update, on loaded tiles. */
  method MergeTiles(exp: real -> real, mij: seq<real>, lij: seq<real>, oiNew: seq<seq<real>>,
      m: seq<real>, l: seq<real>, o: seq<seq<real>>, isFirst: bool,
      ghost s: seq<int -> real>, ghost v: seq<int -> real>, ghost mid: int, ghost hi: int)
      returns (mNew: seq<real>, lNew: seq<real>, oNew: seq<seq<real>>)
    requires IsExp(exp) && Accumulated(mij, lij, oiNew, exp, s, v, mid, hi)
    requires if isFirst then mid == 0 else Accumulated(m, l, o, exp, s, v, 0, mid)
    ensures Accumulated(mNew, lNew, oNew, exp, s, v, 0, hi)
  {
    if isFirst {
      return mij, lij, oiNew;
    }
    forall r | 0 <= r < |s|
      ensures |o[r]| == |oiNew[r]|
    {
      assert RowSums(o[r], exp, s[r], v, m[r], 0, mid) && RowSums(oiNew[r], exp, s[r], v, mij[r], mid, hi);
    }
    UpdateAccumulates(m, l, o, mij, lij, oiNew, exp, s, v, 0, mid, hi);
    return MaxVector(m, mij), RescaleVector(exp, m, l, mij, lij), RescaleTile(exp, m, o, mij, oiNew);
  }

  /** The three stores into the accumulators. */
  method StoreAccumulators(mi: array<real>, li: array<real>, oi: array2<real>, m: seq<real>, l: seq<real>,
      o: seq<seq<real>>)
    requires mi != li && |m| == mi.Length && |l| == li.Length && |o| == oi.Length0
    requires forall r :: 0 <= r < |o| ==> |o[r]| == oi.Length1
    modifies mi, li, oi
    ensures mi[..] == m && li[..] == l && Load(oi) == o
  {
    StoreVector(mi, m);
    StoreVector(li, l);
    StoreRows(oi, 0, o);
    forall r | 0 <= r < |o|
      ensures Load(oi)[r] == o[r]
    {
    }
    assert Load(oi) == o;
  }

  /** `kernel_online_update`: merge a group into the accumulators in place; on the last
      group write the normalised rows, on every other group zeros. */
  method OnlineUpdate(exp: real -> real, mij: array<real>, lij: array<real>, oiNew: seq<seq<real>>,
      mi: array<real>, li: array<real>, oi: array2<real>, out: array2<real>, offset: nat, isFirst: bool, isLast: bool,
      ghost s: seq<int -> real>, ghost v: seq<int -> real>, ghost mid: int, ghost hi: int)
    requires IsExp(exp) && hi > 0
    requires mij.Length == lij.Length == mi.Length == li.Length == oi.Length0 == |s| && oi.Length1 == out.Length1 == |v|
    requires mi != li && oi != out && offset + |s| <= out.Length0
    requires Accumulated(mij[..], lij[..], oiNew, exp, s, v, mid, hi)
    requires if isFirst then mid == 0 else Accumulated(mi[..], li[..], Load(oi), exp, s, v, 0, mid)
    modifies mi, li, oi, out
    ensures Accumulated(mi[..], li[..], Load(oi), exp, s, v, 0, hi)
    ensures isLast ==> forall row, d :: offset <= row < offset + |s| && 0 <= d < |v| ==>
      out[row, d] == Softmax(exp, s[row - offset], v[d], hi)
    ensures forall row, d :: 0 <= row < out.Length0 && 0 <= d < out.Length1 && !(offset <= row < offset + |s|) ==>
      out[row, d] == old(out[row, d])
  {
    var mNew, lNew, oNew := MergeTiles(exp, mij[..], lij[..], oiNew, mi[..], li[..], Load(oi), isFirst, s, v, mid, hi);
    DividedIsFinal(mNew, lNew, oNew, exp, s, v, hi);
    StoreAccumulators(mi, li, oi, mNew, lNew, oNew);
    if isLast {
      StoreRows(out, offset, DivideRows(oNew, lNew));
    } else {
      StoreRows(out, offset, seq(mi.Length, _ => seq(oi.Length1, _ => 0.0)));
    }
  }
}
