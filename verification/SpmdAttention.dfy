/** SPMD paged attention: block by block over the whole batch, every stage a dispatch of
    strided instances, and the result of each request the softmax over its tokens. */
module SpmdAttention {
  import opened Arithmetic
  import opened OnlineSoftmax
  import opened PagedAttention
  import opened PagedAttentionMain
  import opened Paging
  import opened PagedOrchestration
  import opened SpmdSchedule
  import opened SpmdKernels

  /** The scaled scores of the query rows of request `b`. */
  ghost function ScaledScore(inp: Inputs, scale: real, at: int -> int, row: nat): int -> real {
    t => Times(Score(inp, at, row)(t), scale)
  }

  ghost function Scores(x: Setup, b: nat): (s: seq<int -> real>)
    requires x.bs > 0
    ensures |s| == x.qTile
    ensures forall r :: 0 <= r < x.qTile ==>
      s[r] == ScaledScore(x.inp, x.scale, RowOf(x, b), b * x.numHeads + x.qOffset + r)
  {
    ScoresUpTo(x, b, x.qTile)
  }

  ghost function ScoresUpTo(x: Setup, b: nat, n: nat): (s: seq<int -> real>)
    requires x.bs > 0
    ensures |s| == n
    ensures forall r :: 0 <= r < n ==>
              s[r] == ScaledScore(x.inp, x.scale, RowOf(x, b), b * x.numHeads + x.qOffset + r)
  {
    if n == 0 then []
    else ScoresUpTo(x, b, n - 1) + [ScaledScore(x.inp, x.scale, RowOf(x, b), b * x.numHeads + x.qOffset + (n - 1))]
  }

  ghost function RowOf(x: Setup, b: nat): int -> int
    requires x.bs > 0
  {
    TokenRow(x.inp.blockTable, x.blockNum, x.bs, b)
  }

  ghost function ValuesOf(x: Setup, b: nat): (v: seq<int -> real>)
    requires x.bs > 0
    ensures |v| == x.inp.headDim
  {
    Values(x.inp, RowOf(x, b), x.inp.headDim)
  }

  /** Tokens of request `b` in the blocks before `bn`. */
  function Seen(x: Setup, b: nat, bn: nat): nat
    requires b < |x.inp.contextLens|
  {
    if x.inp.contextLens[b] < bn * x.bs then x.inp.contextLens[b] else bn * x.bs
  }

  /** What the host guarantees. */
  ghost predicate SetupOk(x: Setup) {
    && IsExp(x.exp) && x.scale > 0.0 && x.bs > 0 && x.inp.RowsOk()
    && x.qOffset + x.qTile <= x.numHeads && |x.inp.contextLens| * x.numHeads <= |x.inp.query|
    && (forall b :: 0 <= b < |x.inp.contextLens| ==>
          x.inp.contextLens[b] > 0 && TableOk(x.inp.blockTable, x.blockNum, x.bs, |x.inp.keyCache|, b,
              x.inp.contextLens[b]))
  }

  // ---------------------------------------------------------------- where the tokens of a block are

  lemma QueryRowsFit(x: Setup, b: nat)
    requires SetupOk(x) && b < |x.inp.contextLens|
    ensures b * x.numHeads + x.qOffset + x.qTile <= |x.inp.query|
  {
    MulStep(b, x.numHeads);
    MulLe(b + 1, |x.inp.contextLens|, x.numHeads);
  }

  /** A block that holds tokens of the request can be read, and is their page; a block that
      holds none adds none. */
  lemma BlockHoldsTokens(x: Setup, b: nat, bn: nat)
    requires SetupOk(x) && b < |x.inp.contextLens|
    ensures Seen(x, b, bn + 1) == Seen(x, b, bn) + Valid(x, b, bn)
    ensures Valid(x, b, bn) > 0 ==> Readable(x, b, bn) && Seen(x, b, bn) == bn * x.bs
    ensures Valid(x, b, bn) > 0 ==> Page(RowOf(x, b), FirstRow(x, b, bn), bn * x.bs, x.bs)
  {
    var cur := x.inp.contextLens[b];
    MulStep(bn, x.bs);
    if Valid(x, b, bn) > 0 {
      if CeilDiv(cur, x.bs) <= bn { MulLe(CeilDiv(cur, x.bs), bn, x.bs); }
      EntryInside(x.inp.blockTable, x.blockNum, x.bs, |x.inp.keyCache|, b, cur, bn);
      QueryRowsFit(x, b);
      EntryIsPage(x.inp.blockTable, x.blockNum, x.bs, b, bn);
    }
  }

  // ---------------------------------------------------------------- what the buffers hold

  /** Sums over the tokens `lo..hi-1`, each row against whatever `m` it holds. */
  ghost predicate Sums(m: seq<real>, l: seq<real>, o: seq<seq<real>>, exp: real -> real, s: seq<int -> real>,
      v: seq<int -> real>, lo: int, hi: int) {
    && |m| == |l| == |o| == |s|
    && (forall r :: 0 <= r < |s| ==> l[r] == Weighted(exp, s[r], One(), m[r], lo, hi))
    && GroupSums(o, exp, s, v, m, lo, hi)
  }

  /** A scaled, padded row of scores. */
  lemma PaddedScores(x: Setup, b: nat, bn: nat, r: nat)
    requires SetupOk(x) && b < |x.inp.contextLens| && Valid(x, b, bn) > 0 && Readable(x, b, bn) && r < x.qTile
    ensures HoldsScores(PadRow(QkTile(x, b, bn)[r], Valid(x, b, bn), x.scale), Scores(x, b)[r], bn * x.bs,
      Valid(x, b, bn))
  {
    BlockHoldsTokens(x, b, bn);
    QueryRowsFit(x, b);
    var row := b * x.numHeads + x.qOffset + r;
    var qk := QkTile(x, b, bn)[r];
    assert qk == QkRow(x.inp.query[row], x.inp.keyCache, FirstRow(x, b, bn), x.bs);
    forall c | 0 <= c < Valid(x, b, bn)
      ensures qk[c] == Score(x.inp, RowOf(x, b), row)(bn * x.bs + c)
    {
      assert PageCell(RowOf(x, b), FirstRow(x, b, bn), bn * x.bs, c);
    }
  }

  /** The rows of a request after the first three stages of a block with tokens. */
  lemma FullStages(x: Setup, b: nat, bn: nat, c: Cell, p: seq<seq<real>>)
    requires x.inp.RowsOk() && Valid(x, b, bn) > 0 && Readable(x, b, bn)
    requires p == WeightTile(x.exp, QkTile(x, b, bn), Valid(x, b, bn), x.scale)
    requires forall r :: 0 <= r < |p| ==> |p[r]| == x.bs
    ensures var d := Pv(x, bn, b, Prepare(x, bn, b, Qk(x, bn, b, c)));
            && d.mij == RowMaxima(QkTile(x, b, bn), Valid(x, b, bn), x.scale)
            && d.lij == RowTotals(p) && d.oiNew == PvTile(x, b, bn, p)
  {
  }

  /** One row of weights, with its sum and its products with the values. */
  lemma FullRow(exp: real -> real, row: seq<Ext>, p: seq<real>, m: real, s: int -> real,
      cache: seq<seq<real>>, first: nat, v: seq<int -> real>, pos: nat, valid: nat)
    requires HoldsScores(row, s, pos, valid) && BlockValues(cache, first, |row|, v, pos, valid)
    requires p == ExpRow(exp, row, m)
    ensures |p| == |row| && RowSum(p, |p|) == Weighted(exp, s, One(), m, pos, pos + valid)
    ensures RowSums(PvRow(p, cache, first, |v|), exp, s, v, m, pos, pos + valid)
  {
    ExpRowHolds(exp, row, m, s, pos, valid);
    PvRowSums(p, cache, first, exp, s, v, m, pos, valid);
  }

  /** Weights, their sums and their products with the values, for a block with tokens. */
  lemma FullSums(x: Setup, b: nat, bn: nat, tile: seq<seq<real>>, p: seq<seq<real>>, m: seq<real>, pos: nat, valid: nat)
    requires SetupOk(x) && b < |x.inp.contextLens| && Valid(x, b, bn) > 0 && Readable(x, b, bn)
      && tile == QkTile(x, b, bn)
    requires pos == bn * x.bs && valid == Valid(x, b, bn)
    requires p == WeightTile(x.exp, tile, valid, x.scale) && m == RowMaxima(tile, valid, x.scale)
    ensures forall r :: 0 <= r < |p| ==> |p[r]| == x.bs
    ensures Sums(m, RowTotals(p), PvTile(x, b, bn, p), x.exp, Scores(x, b), ValuesOf(x, b), pos, pos + valid)
  {
    BlockHoldsTokens(x, b, bn);
    ValueBlockHolds(x.inp, RowOf(x, b), FirstRow(x, b, bn), x.bs, pos, valid);
    forall r | 0 <= r < x.qTile
      ensures |p[r]| == x.bs && RowSum(p[r], |p[r]|) == Weighted(x.exp, Scores(x, b)[r], One(), m[r], pos, pos + valid)
      ensures RowSums(PvRow(p[r], x.inp.valueCache, FirstRow(x, b, bn), x.inp.headDim), x.exp, Scores(x, b)[r],
        ValuesOf(x, b), m[r], pos, pos + valid)
    {
      PaddedScores(x, b, bn, r);
      FullRow(x.exp, PadRow(tile[r], valid, x.scale), p[r], m[r], Scores(x, b)[r],
              x.inp.valueCache, FirstRow(x, b, bn), ValuesOf(x, b), pos, valid);
    }
  }

  lemma FullBlock(x: Setup, b: nat, bn: nat, c: Cell)
    requires SetupOk(x) && b < |x.inp.contextLens| && Valid(x, b, bn) > 0
    ensures var d := Pv(x, bn, b, Prepare(x, bn, b, Qk(x, bn, b, c)));
            Sums(d.mij, d.lij, d.oiNew, x.exp, Scores(x, b), ValuesOf(x, b), Seen(x, b, bn), Seen(x, b, bn + 1))
  {
    BlockHoldsTokens(x, b, bn);
    var tile, valid := QkTile(x, b, bn), Valid(x, b, bn);
    var p, m := WeightTile(x.exp, tile, valid, x.scale), RowMaxima(tile, valid, x.scale);
    FullSums(x, b, bn, tile, p, m, bn * x.bs, valid);
    FullStages(x, b, bn, c, p);
  }

  lemma {:induction false} ZeroRowSum(k: nat, row: seq<real>)
    requires k <= |row| && forall c :: 0 <= c < |row| ==> row[c] == 0.0
    ensures RowSum(row, k) == 0.0
  {
    if k > 0 { ZeroRowSum(k - 1, row); }
  }

  /** A block without tokens: the mask, and sums over nothing. The fresh `oi_new` buffer is
      zero and stays so. */
  lemma EmptyBlock(x: Setup, b: nat, bn: nat, c: Cell)
    requires SetupOk(x) && b < |x.inp.contextLens| && Valid(x, b, bn) == 0 && c.oiNew == Zeros(x.qTile, x.inp.headDim)
    ensures var d := Pv(x, bn, b, Prepare(x, bn, b, Qk(x, bn, b, c)));
            && d.mij == Fill(x.qTile, MASK)
            && Sums(d.mij, d.lij, d.oiNew, x.exp, Scores(x, b), ValuesOf(x, b), Seen(x, b, bn), Seen(x, b, bn + 1))
  {
    BlockHoldsTokens(x, b, bn);
    var z := Zeros(x.qTile, x.bs);
    forall r | 0 <= r < x.qTile
      ensures RowTotals(z)[r] == 0.0
    {
      ZeroRowSum(x.bs, z[r]);
    }
  }

  // ---------------------------------------------------------------- one block

  /** The temporaries of a block are created anew, filled with zeros. */
  function Fresh(x: Setup, c: Cell): Cell {
    c.(sij := Zeros(x.qTile, x.bs), pij := Zeros(x.qTile, x.bs), mij := Fill(x.qTile, 0.0), lij := Fill(x.qTile, 0.0),
       oiNew := Zeros(x.qTile, x.inp.headDim))
  }

  /** The four stages of a block, for one request. */
  function Block(x: Setup, bn: nat, b: nat, c: Cell): Cell {
    Update(x, bn, Pv(x, bn, b, Prepare(x, bn, b, Qk(x, bn, b, Fresh(x, c)))))
  }

  lemma MergeSums(m: seq<real>, l: seq<real>, o: seq<seq<real>>, mij: seq<real>, lij: seq<real>, oNew: seq<seq<real>>,
      exp: real -> real, s: seq<int -> real>, v: seq<int -> real>, lo: int, mid: int, hi: int)
    requires IsExp(exp) && lo <= mid <= hi && Sums(m, l, o, exp, s, v, lo, mid)
      && Sums(mij, lij, oNew, exp, s, v, mid, hi)
    requires forall r :: 0 <= r < |o| ==> |o[r]| == |oNew[r]|
    ensures Sums(MaxVector(m, mij), RescaleVector(exp, m, l, mij, lij), RescaleTile(exp, m, o, mij, oNew), exp, s, v,
      lo, hi)
  {
    var m', l', o' := MaxVector(m, mij), RescaleVector(exp, m, l, mij, lij), RescaleTile(exp, m, o, mij, oNew);
    forall r | 0 <= r < |s|
      ensures l'[r] == Weighted(exp, s[r], One(), m'[r], lo, hi)
      ensures RowSums(o'[r], exp, s[r], v, m'[r], lo, hi)
    {
      MergeWeights(exp, s[r], One(), m[r], mij[r], lo, mid, hi);
      assert RowSums(o[r], exp, s[r], v, m[r], lo, mid) && RowSums(oNew[r], exp, s[r], v, mij[r], mid, hi);
      forall d | 0 <= d < |v|
        ensures o'[r][d] == Weighted(exp, s[r], v[d], m'[r], lo, hi)
      {
        MergeWeights(exp, s[r], v[d], m[r], mij[r], lo, mid, hi);
      }
    }
  }

  /** The accumulators of a request after the blocks before `bn`. */
  ghost predicate HoldsUpTo(x: Setup, b: nat, bn: nat, c: Cell)
    requires x.bs > 0 && b < |x.inp.contextLens|
  {
    bn > 0 ==> Sums(c.mi, c.li, c.oi, x.exp, Scores(x, b), ValuesOf(x, b), 0, Seen(x, b, bn))
  }

  lemma StagesSum(x: Setup, b: nat, bn: nat, c: Cell)
    requires SetupOk(x) && b < |x.inp.contextLens|
    ensures var d := Pv(x, bn, b, Prepare(x, bn, b, Qk(x, bn, b, Fresh(x, c))));
            && d.mi == c.mi && d.li == c.li && d.oi == c.oi && d.out == c.out
            && Sums(d.mij, d.lij, d.oiNew, x.exp, Scores(x, b), ValuesOf(x, b), Seen(x, b, bn), Seen(x, b, bn + 1))
  {
    if Valid(x, b, bn) > 0 {
      FullBlock(x, b, bn, Fresh(x, c));
    } else {
      EmptyBlock(x, b, bn, Fresh(x, c));
    }
  }

  /** What a request has accumulated and what a block adds have matching sizes. */
  lemma SumsMerge(x: Setup, b: nat, bn: nat, c: Cell, d: Cell)
    requires SetupOk(x) && b < |x.inp.contextLens| && bn > 0 && HoldsUpTo(x, b, bn, c)
    requires Sums(d.mij, d.lij, d.oiNew, x.exp, Scores(x, b), ValuesOf(x, b), Seen(x, b, bn), Seen(x, b, bn + 1))
    ensures Mergeable(c.mi, c.li, c.oi, d.mij, d.lij, d.oiNew)
  {
    forall r | 0 <= r < |c.oi|
      ensures |c.oi[r]| == |d.oiNew[r]|
    {
      assert RowSums(c.oi[r], x.exp, Scores(x, b)[r], ValuesOf(x, b), c.mi[r], 0, Seen(x, b, bn));
      assert RowSums(d.oiNew[r], x.exp, Scores(x, b)[r], ValuesOf(x, b), d.mij[r], Seen(x, b, bn), Seen(x, b, bn + 1));
    }
  }

  /** One more block, whether it holds tokens of the request or not. */
  lemma BlockAccumulates(x: Setup, b: nat, bn: nat, c: Cell)
    requires SetupOk(x) && b < |x.inp.contextLens| && HoldsUpTo(x, b, bn, c)
    ensures HoldsUpTo(x, b, bn + 1, Block(x, bn, b, c)) && Block(x, bn, b, c).out == c.out
  {
    var d := Pv(x, bn, b, Prepare(x, bn, b, Qk(x, bn, b, Fresh(x, c))));
    StagesSum(x, b, bn, c);
    BlockHoldsTokens(x, b, bn);
    if bn > 0 {
      SumsMerge(x, b, bn, c, d);
      MergeSums(c.mi, c.li, c.oi, d.mij, d.lij, d.oiNew, x.exp, Scores(x, b), ValuesOf(x, b), 0, Seen(x, b, bn),
          Seen(x, b, bn + 1));
    }
  }

  lemma ExpZero(exp: real -> real)
    requires IsExp(exp)
    ensures exp(0.0) == 1.0
  {
    var e := exp(0.0);
    assert AddsToMul(exp, 0.0, 0.0) && e > 0.0;
    assert exp(0.0 + 0.0) == e * e;
    assert 0.0 + 0.0 == 0.0;
    OnlyOne(e);
  }

  lemma OnlyOne(e: real)
    requires e > 0.0 && e == e * e
    ensures e == 1.0
  {
  }

  lemma MaskedScalar(exp: real -> real, m: real, l: real)
    requires IsExp(exp) && m >= MASK
    ensures Max(m, MASK) == m && Rescale(exp, m, l, MASK, 0.0) == l
  {
    ExpZero(exp);
    assert m - m == 0.0;
  }

  /** The stages of a block without tokens, for a request that has accumulated before. */
  lemma EmptyStages(x: Setup, b: nat, bn: nat, c: Cell) returns (d: Cell)
    requires SetupOk(x) && b < |x.inp.contextLens| && bn > 0 && Valid(x, b, bn) == 0 && HoldsUpTo(x, b, bn, c)
    ensures d.mij == Fill(x.qTile, MASK) && (forall r :: 0 <= r < x.qTile ==> |d.lij| == x.qTile && d.lij[r] == 0.0)
    ensures Mergeable(c.mi, c.li, c.oi, d.mij, d.lij, d.oiNew) && |c.mi| == x.qTile
    ensures forall r, k :: 0 <= r < x.qTile && 0 <= k < |d.oiNew[r]| ==> d.oiNew[r][k] == 0.0
    ensures Block(x, bn, b, c) == Update(x, bn, d) && d.mi == c.mi && d.li == c.li && d.oi == c.oi
  {
    d := Pv(x, bn, b, Prepare(x, bn, b, Qk(x, bn, b, Fresh(x, c))));
    StagesSum(x, b, bn, c);
    EmptyBlock(x, b, bn, Fresh(x, c));
    BlockHoldsTokens(x, b, bn);
    forall r | 0 <= r < x.qTile
      ensures |c.oi[r]| == |d.oiNew[r]| && forall k :: 0 <= k < |d.oiNew[r]| ==> d.oiNew[r][k] == 0.0
    {
      assert RowSums(c.oi[r], x.exp, Scores(x, b)[r], ValuesOf(x, b), c.mi[r], 0, Seen(x, b, bn));
      assert RowSums(d.oiNew[r], x.exp, Scores(x, b)[r], ValuesOf(x, b), d.mij[r], Seen(x, b, bn), Seen(x, b, bn + 1));
    }
  }

  /** A block without tokens leaves a request's accumulators as they were exactly when no
      row's running maximum is below the mask. Below it they are rescaled, and their
      quotient, which is all that is used in the end, is still the same. */
  lemma EmptyBlockKeeps(x: Setup, b: nat, bn: nat, c: Cell)
    requires SetupOk(x) && b < |x.inp.contextLens| && bn > 0 && Valid(x, b, bn) == 0 && HoldsUpTo(x, b, bn, c)
    ensures var d := Block(x, bn, b, c);
            d.mi == c.mi && d.li == c.li && d.oi == c.oi
            <==> forall r :: 0 <= r < |c.mi| ==> c.mi[r] >= -1000000000000000000000000000000.0
  {
    var d := EmptyStages(x, b, bn, c);
    var m, l, o := MaxVector(c.mi, d.mij), RescaleVector(x.exp, c.mi, c.li, d.mij, d.lij),
        RescaleTile(x.exp, c.mi, c.oi, d.mij, d.oiNew);
    if forall r :: 0 <= r < |c.mi| ==> c.mi[r] >= MASK {
      forall r | 0 <= r < x.qTile
        ensures m[r] == c.mi[r] && l[r] == c.li[r] && o[r] == c.oi[r]
      {
        MaskedScalar(x.exp, c.mi[r], c.li[r]);
        forall k | 0 <= k < |c.oi[r]|
          ensures o[r][k] == c.oi[r][k]
        {
          MaskedScalar(x.exp, c.mi[r], c.oi[r][k]);
        }
      }
      assert m == c.mi && l == c.li && o == c.oi;
    } else {
      var r :| 0 <= r < |c.mi| && c.mi[r] < MASK;
      assert m[r] == Max(c.mi[r], MASK);
    }
  }

  // ---------------------------------------------------------------- the running maximum

  /** The largest score so far; once a block without tokens has been met, at least the mask. */
  ghost function RunningMax(x: Setup, b: nat, bn: nat, s: int -> real): (m: real)
    requires b < |x.inp.contextLens| && bn > 0 && Seen(x, b, bn) > 0
    ensures (forall t :: 0 <= t < Seen(x, b, bn) ==> s(t) >= MASK) ==> m == MaxOver(s, 0, Seen(x, b, bn))
  {
    var m := MaxOver(s, 0, Seen(x, b, bn));
    if Valid(x, b, bn - 1) == 0 then Max(m, MASK) else m
  }

  ghost predicate MaximaUpTo(x: Setup, b: nat, bn: nat, c: Cell)
    requires x.bs > 0 && b < |x.inp.contextLens|
  {
    bn > 0 ==> Seen(x, b, bn) > 0 && |c.mi| == x.qTile
               && forall r :: 0 <= r < x.qTile ==> c.mi[r] == RunningMax(x, b, bn, Scores(x, b)[r])
  }

  lemma BlockMaxima(x: Setup, b: nat, bn: nat, c: Cell)
    requires SetupOk(x) && b < |x.inp.contextLens|
    ensures var d := Pv(x, bn, b, Prepare(x, bn, b, Qk(x, bn, b, Fresh(x, c))));
            && |d.mij| == x.qTile
            && forall r :: 0 <= r < x.qTile ==>
                 d.mij[r] == if Valid(x, b, bn) == 0 then MASK
                     else MaxOver(Scores(x, b)[r], bn * x.bs, bn * x.bs + Valid(x, b, bn))
  {
    BlockHoldsTokens(x, b, bn);
    var valid := Valid(x, b, bn);
    if valid > 0 {
      var tile := QkTile(x, b, bn);
      forall r | 0 <= r < x.qTile
        ensures Maximum(PadRow(tile[r], valid, x.scale)) == MaxOver(Scores(x, b)[r], bn * x.bs, bn * x.bs + valid)
      {
        PaddedScores(x, b, bn, r);
        RowMaxIsMaxOver(PadRow(tile[r], valid, x.scale), Scores(x, b)[r], bn * x.bs, valid, |tile[r]|);
      }
    }
  }

  /** One row: the running maximum takes in the maximum of a block. */
  lemma NextMax(x: Setup, b: nat, bn: nat, s: int -> real, m: real, mij: real, start: nat)
    requires b < |x.inp.contextLens| && Seen(x, b, bn + 1) == Seen(x, b, bn) + Valid(x, b, bn) > 0
    requires bn == 0 ==> Seen(x, b, 0) == start == 0
    requires bn > 0 ==> Seen(x, b, bn) > 0 && m == RunningMax(x, b, bn, s)
    requires Valid(x, b, bn) > 0 ==> Seen(x, b, bn) == start && (bn > 0 ==> Valid(x, b, bn - 1) > 0)
    requires mij == if Valid(x, b, bn) == 0 then MASK else MaxOver(s, start, start + Valid(x, b, bn))
    ensures RunningMax(x, b, bn + 1, s) == if bn == 0 then mij else Max(m, mij)
  {
    if bn > 0 && Valid(x, b, bn) > 0 {
      MaxOverJoin(s, 0, start, start + Valid(x, b, bn));
    }
  }

  /** The blocks with tokens come first. */
  lemma TokensFirst(x: Setup, b: nat, bn: nat)
    requires SetupOk(x) && b < |x.inp.contextLens|
    ensures Seen(x, b, bn + 1) > 0 && (bn == 0 ==> Seen(x, b, bn) == 0)
    ensures Valid(x, b, bn) > 0 && bn > 0 ==> Valid(x, b, bn - 1) > 0
  {
    BlockHoldsTokens(x, b, bn);
    MulStep(bn, x.bs);
    if bn > 0 { MulStep(bn - 1, x.bs); }
    MulLe(1, bn + 1, x.bs);
  }

  /** The rows of a request before the update of a block. */
  lemma StagesOf(x: Setup, b: nat, bn: nat, c: Cell) returns (d: Cell)
    requires SetupOk(x) && b < |x.inp.contextLens| && HoldsUpTo(x, b, bn, c)
    ensures Block(x, bn, b, c) == Update(x, bn, d) && d.mi == c.mi && |d.mij| == x.qTile
    ensures bn > 0 ==> Mergeable(d.mi, d.li, d.oi, d.mij, d.lij, d.oiNew)
    ensures forall r :: 0 <= r < x.qTile ==>
              d.mij[r] == if Valid(x, b, bn) == 0 then MASK
                  else MaxOver(Scores(x, b)[r], bn * x.bs, bn * x.bs + Valid(x, b, bn))
  {
    d := Pv(x, bn, b, Prepare(x, bn, b, Qk(x, bn, b, Fresh(x, c))));
    StagesSum(x, b, bn, c);
    BlockMaxima(x, b, bn, c);
    if bn > 0 {
      SumsMerge(x, b, bn, c, d);
    }
  }

  /** All rows: `mi` and `mij` before, `out` after the update. */
  lemma NextMaxima(x: Setup, b: nat, bn: nat, s: seq<int -> real>, mi: seq<real>, mij: seq<real>, out: seq<real>,
      start: nat)
    requires SetupOk(x) && b < |x.inp.contextLens| && start == bn * x.bs && |mij| == |out| == |s|
    requires bn == 0 ==> out == mij
    requires bn > 0 ==> |mi| == |mij| && out == MaxVector(mi, mij) && Seen(x, b, bn) > 0
    requires bn > 0 ==> forall r :: 0 <= r < |s| ==> mi[r] == RunningMax(x, b, bn, s[r])
    requires forall r :: 0 <= r < |s| ==>
               mij[r] == if Valid(x, b, bn) == 0 then MASK else MaxOver(s[r], start, start + Valid(x, b, bn))
    ensures Seen(x, b, bn + 1) > 0 && forall r :: 0 <= r < |s| ==> out[r] == RunningMax(x, b, bn + 1, s[r])
  {
    BlockHoldsTokens(x, b, bn);
    TokensFirst(x, b, bn);
    forall r | 0 <= r < |s|
      ensures out[r] == RunningMax(x, b, bn + 1, s[r])
    {
      NextMax(x, b, bn, s[r], if bn == 0 then 0.0 else mi[r], mij[r], start);
    }
  }

  /** After every block `mi` is the running maximum: the largest score, as long as the scores
      are not below the mask. */
  lemma MaximaAccumulate(x: Setup, b: nat, bn: nat, c: Cell)
    requires SetupOk(x) && b < |x.inp.contextLens| && HoldsUpTo(x, b, bn, c) && MaximaUpTo(x, b, bn, c)
    ensures MaximaUpTo(x, b, bn + 1, Block(x, bn, b, c))
  {
    var d := StagesOf(x, b, bn, c);
    var out := Update(x, bn, d).mi;
    assert out == if bn == 0 then d.mij else MaxVector(d.mi, d.mij);
    NextMaxima(x, b, bn, Scores(x, b), c.mi, d.mij, out, bn * x.bs);
  }

  // ---------------------------------------------------------------- the end

  /** The output row of head `h` of request `b` is the softmax over its first `n` tokens. */
  ghost predicate RowFinal(exp: real -> real, inp: Inputs, scale: real, at: int -> int, row: nat, n: nat,
      values: seq<real>)
    requires IsExp(exp) && n > 0
  {
    |values| == inp.headDim &&
    forall d :: 0 <= d < inp.headDim ==>
        values[d] == Softmax(exp, ScaledScore(inp, scale, at, row), Value(inp, at, d), n)
  }

  lemma SumsPositive(m: seq<real>, l: seq<real>, o: seq<seq<real>>, exp: real -> real, s: seq<int -> real>,
      v: seq<int -> real>, n: int)
    requires IsExp(exp) && n > 0 && Sums(m, l, o, exp, s, v, 0, n)
    ensures Divisible(o, l)
  {
    forall r | 0 <= r < |l|
      ensures l[r] != 0.0
    {
      WeightedPositive(exp, s[r], m[r], 0, n);
    }
  }

  ghost predicate HeadFinished(x: Setup, b: nat, n: nat, was: seq<seq<real>>, out: seq<seq<real>>, h: nat)
    requires IsExp(x.exp) && n > 0 && x.bs > 0 && h < |was| == |out|
  {
    if x.qOffset <= h < x.qOffset + x.qTile then RowFinal(x.exp, x.inp, x.scale, RowOf(x, b), b * x.numHeads + h, n,
        out[h])
    else out[h] == was[h]
  }

  /** The heads of the tile are final, the others as they were. */
  ghost predicate TileFinished(x: Setup, b: nat, n: nat, was: seq<seq<real>>, out: seq<seq<real>>)
    requires IsExp(x.exp) && n > 0 && x.bs > 0
  {
    |out| == |was| == x.numHeads && forall h :: 0 <= h < x.numHeads ==> HeadFinished(x, b, n, was, out, h)
  }

  /** `SpmdNormalize` writes the softmax average into the tile's heads and nothing else. */
  lemma NormalizeIsFinal(x: Setup, b: nat, n: nat, c: Cell)
    requires SetupOk(x) && b < |x.inp.contextLens| && n > 0 && |c.out| == x.numHeads
    requires Sums(c.mi, c.li, c.oi, x.exp, Scores(x, b), ValuesOf(x, b), 0, n)
    ensures TileFinished(x, b, n, c.out, Normalize(x, c).out)
  {
    SumsPositive(c.mi, c.li, c.oi, x.exp, Scores(x, b), ValuesOf(x, b), n);
    var rows, out := DivideRows(c.oi, c.li), Normalize(x, c).out;
    forall h | 0 <= h < x.numHeads
      ensures HeadFinished(x, b, n, c.out, out, h)
    {
      if x.qOffset <= h < x.qOffset + x.qTile {
        var r := h - x.qOffset;
        assert out[h] == rows[r];
        RowIsFinal(x, b, n, c, r);
        assert b * x.numHeads + x.qOffset + r == b * x.numHeads + h;
      }
    }
  }

  lemma RowIsFinal(x: Setup, b: nat, n: nat, c: Cell, r: nat)
    requires SetupOk(x) && b < |x.inp.contextLens| && n > 0 && r < x.qTile
    requires Sums(c.mi, c.li, c.oi, x.exp, Scores(x, b), ValuesOf(x, b), 0, n) && Divisible(c.oi, c.li)
    ensures RowFinal(x.exp, x.inp, x.scale, RowOf(x, b), b * x.numHeads + x.qOffset + r, n, DivideRows(c.oi, c.li)[r])
  {
    assert RowSums(c.oi[r], x.exp, Scores(x, b)[r], ValuesOf(x, b), c.mi[r], 0, n);
    forall d | 0 <= d < x.inp.headDim
      ensures DivideRows(c.oi, c.li)[r][d] == Softmax(x.exp, Scores(x, b)[r], ValuesOf(x, b)[d], n)
    {
      NormalisedIsSoftmax(x.exp, Scores(x, b)[r], ValuesOf(x, b)[d], c.mi[r], n);
    }
  }
}
