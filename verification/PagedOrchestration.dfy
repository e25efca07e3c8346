/** The orchestration of examples/models/07_paged_attention_multi_config.py: the loops over
    requests, query tiles and groups. */
module PagedOrchestration {
  import opened Arithmetic
  import opened OnlineSoftmax
  import opened PagedAttention
  import opened PagedAttentionMain
  import opened Paging

  // ---------------------------------------------------------------- a query tile

  ghost function TileScores(inp: Inputs, at: int -> int, offset: nat, q: nat): (s: seq<int -> real>)
    ensures |s| == q && forall r :: 0 <= r < q ==> s[r] == Score(inp, at, offset + r)
  {
    if q == 0 then [] else TileScores(inp, at, offset, q - 1) + [Score(inp, at, offset + q - 1)]
  }

  ghost function Values(inp: Inputs, at: int -> int, n: nat): (v: seq<int -> real>)
    ensures |v| == n && forall d :: 0 <= d < n ==> v[d] == Value(inp, at, d)
  {
    if n == 0 then [] else Values(inp, at, n - 1) + [Value(inp, at, n - 1)]
  }

  /** The scores of one block row, as `kernel_qk_matmul` computes them, are its tokens' scores. */
  lemma QkRowHolds(inp: Inputs, at: int -> int, row: nat, first: nat, bs: nat, pos: int, valid: nat, tileRow: seq<Ext>)
    requires inp.RowsOk() && row < |inp.query| && first + bs <= |inp.keyCache| && valid <= bs
    requires Page(at, first, pos, bs) && |tileRow| == bs
    requires var qk := QkRow(inp.query[row], inp.keyCache, first, bs);
             forall c :: 0 <= c < bs ==> tileRow[c] == if c < valid then Fin(Times(qk[c], 1.0)) else NegInf
    ensures HoldsScores(tileRow, Score(inp, at, row), pos, valid)
  {
    forall c | 0 <= c < valid
      ensures tileRow[c] == Fin(Score(inp, at, row)(pos + c))
    {
      assert PageCell(at, first, pos, c);
      assert tileRow[c] == Fin(Times(Dot(inp.query[row], inp.keyCache[first + c], inp.headDim), 1.0));
    }
  }

  /** What `kernel_qk_matmul` leaves in tile `i` are the scores of block `i` of the group. */
  lemma QkTileHolds(inp: Inputs, at: int -> int, offset: nat, q: nat, first: nat, sij: array3<real>, base: int,
      nBlocks: nat, lastValid: nat, i: nat)
    requires inp.RowsOk() && offset + q <= |inp.query| && first + sij.Length2 <= |inp.keyCache|
      && 0 < lastValid <= sij.Length2
    requires i < nBlocks <= sij.Length0 && sij.Length1 == q
    requires Page(at, first, BlockStart(base, i, sij.Length2), sij.Length2)
    requires forall r :: 0 <= r < q ==>
      TileRow(sij, i, r) == QkRow(inp.query[offset..offset + q][r], inp.keyCache, first, sij.Length2)
    ensures GroupTile(sij, 1.0, TileScores(inp, at, offset, q), base, nBlocks, lastValid, i)
  {
    var bs := sij.Length2;
    var pos, valid := BlockStart(base, i, bs), ValidLen(i, nBlocks, bs, lastValid);
    var tile, s := LoadScaled(sij, i, valid, 1.0), TileScores(inp, at, offset, q);
    forall r | 0 <= r < q
      ensures HoldsScores(tile[r], s[r], pos, valid)
    {
      assert inp.query[offset..offset + q][r] == inp.query[offset + r];
      var qk := TileRow(sij, i, r);
      assert forall c :: 0 <= c < bs ==> qk[c] == sij[i, r, c];
      QkRowHolds(inp, at, offset + r, first, bs, pos, valid, tile[r]);
    }
  }

  /** The value rows `kernel_pv_matmul` reads for block `i` are its tokens' values. */
  lemma ValueBlockHolds(inp: Inputs, at: int -> int, first: nat, bs: nat, pos: int, valid: nat)
    requires inp.RowsOk() && first + bs <= |inp.valueCache| && valid <= bs && Page(at, first, pos, bs)
    ensures BlockValues(inp.valueCache, first, bs, Values(inp, at, inp.headDim), pos, valid)
  {
    var v := Values(inp, at, inp.headDim);
    forall d | 0 <= d < |v|
      ensures HoldsValues(BlockColumn(inp.valueCache, first, d, bs), v[d], pos, valid)
    {
      forall c | 0 <= c < valid
        ensures BlockColumn(inp.valueCache, first, d, bs)[c] == v[d](pos + c)
      {
        assert PageCell(at, first, pos, c);
      }
    }
  }

  // ---------------------------------------------------------------- one group

  lemma PagesInside(at: int -> int, view: seq<nat>, nBlocks: nat, bs: nat, base: int, poolRows: nat)
    requires Pages(at, view, nBlocks, bs, base, poolRows)
    ensures nBlocks <= |view| && forall i :: 0 <= i < nBlocks ==> view[i] * bs + bs <= poolRows
  {
    if nBlocks > 0 {
      assert PageEntry(at, view, nBlocks - 1, bs, base, poolRows);
    }
    forall i | 0 <= i < nBlocks
      ensures view[i] * bs + bs <= poolRows
    {
      assert PageEntry(at, view, i, bs, base, poolRows);
    }
  }

  /** The QK stage of a group: a fresh score buffer that holds its tokens' scores. */
  method QkStage(inp: Inputs, qi: seq<seq<real>>, blockIndices: seq<nat>, nUnroll: nat, bs: nat, nBlocks: nat,
      ghost lastValid: nat, ghost at: int -> int, ghost offset: nat, ghost base: int) returns (sij: array3<real>)
    requires inp.RowsOk() && offset + |qi| <= |inp.query| && qi == inp.query[offset..offset + |qi|]
    requires nBlocks <= nUnroll && 0 < lastValid <= bs && Pages(at, blockIndices, nBlocks, bs, base, |inp.valueCache|)
    ensures fresh(sij) && sij.Length0 == nUnroll && sij.Length1 == |qi| && sij.Length2 == bs
    ensures GroupScores(sij, 1.0, TileScores(inp, at, offset, |qi|), base, nBlocks, lastValid)
  {
    sij := new real[nUnroll, |qi|, bs];
    PagesInside(at, blockIndices, nBlocks, bs, base, |inp.valueCache|);
    QkMatmul(qi, inp.keyCache, sij, blockIndices, nBlocks, inp.headDim);
    forall i | 0 <= i < nBlocks
      ensures GroupTile(sij, 1.0, TileScores(inp, at, offset, |qi|), base, nBlocks, lastValid, i)
    {
      assert PageEntry(at, blockIndices, i, bs, base, |inp.valueCache|);
      QkTileHolds(inp, at, offset, |qi|, blockIndices[i] * bs, sij, base, nBlocks, lastValid, i);
    }
  }

  lemma ValuesHold(inp: Inputs, at: int -> int, blockIndices: seq<nat>, bs: nat, nBlocks: nat, lastValid: nat,
      base: int)
    requires inp.RowsOk() && 0 < lastValid <= bs && Pages(at, blockIndices, nBlocks, bs, base, |inp.valueCache|)
    ensures nBlocks <= |blockIndices|
    ensures forall i :: 0 <= i < nBlocks ==>
              BlockValues(inp.valueCache, blockIndices[i] * bs, bs, Values(inp, at, inp.headDim),
                  BlockStart(base, i, bs), ValidLen(i, nBlocks, bs, lastValid))
  {
    PagesInside(at, blockIndices, nBlocks, bs, base, |inp.valueCache|);
    forall i | 0 <= i < nBlocks
      ensures BlockValues(inp.valueCache, blockIndices[i] * bs, bs, Values(inp, at, inp.headDim),
        BlockStart(base, i, bs), ValidLen(i, nBlocks, bs, lastValid))
    {
      assert PageEntry(at, blockIndices, i, bs, base, |inp.valueCache|);
      ValueBlockHolds(inp, at, blockIndices[i] * bs, bs, BlockStart(base, i, bs), ValidLen(i, nBlocks, bs, lastValid));
    }
  }

  /** The kernels of one iteration of the `bn` loop: scores, weights, values. */
  method GroupKernels(exp: real -> real, inp: Inputs, qi: seq<seq<real>>, blockIndices: seq<nat>, nUnroll: nat,
      bs: nat, nBlocks: nat, lastValid: nat, ghost at: int -> int, ghost offset: nat, ghost base: int)
      returns (mij: array<real>, lij: array<real>, oiNew: seq<seq<real>>)
    requires IsExp(exp) && inp.RowsOk() && offset + |qi| <= |inp.query| && qi == inp.query[offset..offset + |qi|]
    requires 0 < nBlocks <= nUnroll && 0 < lastValid <= bs
      && Pages(at, blockIndices, nBlocks, bs, base, |inp.valueCache|)
    ensures fresh(mij) && fresh(lij) && mij.Length == lij.Length == |qi|
    ensures Accumulated(mij[..], lij[..], oiNew, exp, TileScores(inp, at, offset, |qi|), Values(inp, at, inp.headDim),
      base, EndOf(base, nBlocks, nBlocks, bs, lastValid))
  {
    ghost var s, v := TileScores(inp, at, offset, |qi|), Values(inp, at, inp.headDim);
    var sij := QkStage(inp, qi, blockIndices, nUnroll, bs, nBlocks, lastValid, at, offset, base);
    var pij := new real[nUnroll, |qi|, bs];
    mij, lij := new real[|qi|], new real[|qi|];
    RowMaxPass(sij, 1.0, mij, nBlocks, lastValid, s, base);
    WeightPass(exp, sij, 1.0, pij, mij, lij, nBlocks, lastValid, s, base);
    ValuesHold(inp, at, blockIndices, bs, nBlocks, lastValid, base);
    oiNew := PvMatmul(pij, inp.valueCache, blockIndices, nBlocks, inp.headDim, lastValid, exp, s, v, mij[..], base);
  }

  /** The output rows of a query tile are the softmax averages over `n` tokens. */
  ghost predicate TileFinal(out: array2<real>, exp: real -> real, inp: Inputs, at: int -> int, n: int, first: nat,
      q: nat)
    requires IsExp(exp) && n > 0
    reads out
  {
    first + q <= out.Length0 &&
    forall row, d :: first <= row < first + q && 0 <= d < out.Length1 ==>
        out[row, d] == Attention(exp, inp, at, n, row, d)
  }

  /** Every output row outside the tile is as it was. */
  ghost predicate OthersKept(out: array2<real>, before: seq<seq<real>>, first: nat, q: nat)
    reads out
  {
    && |before| == out.Length0
    && (forall row :: 0 <= row < |before| ==> |before[row]| == out.Length1)
    && (forall row, d :: 0 <= row < out.Length0 && 0 <= d < out.Length1 && !(first <= row < first + q) ==>
        out[row, d] == before[row][d])
  }

  /** One iteration of the `bn` loop. */
  method ProcessGroup(exp: real -> real, inp: Inputs, qi: seq<seq<real>>, blockIndices: seq<nat>, nUnroll: nat,
      bs: nat, bn: nat, nBlocks: nat, lastValidLen: nat, bnThisBatch: nat, mi: array<real>, li: array<real>,
      oi: array2<real>, out: array2<real>, curOffset: nat, ghost at: int -> int, ghost base: int, ghost hi: int,
      ghost before: seq<seq<real>>)
    requires OthersKept(out, before, curOffset, |qi|)
    requires IsExp(exp) && inp.RowsOk() && curOffset + |qi| <= |inp.query| == out.Length0
      && qi == inp.query[curOffset..curOffset + |qi|]
    requires 0 < nBlocks <= nUnroll && 0 < lastValidLen <= bs
      && Pages(at, blockIndices, nBlocks, bs, base, |inp.valueCache|)
    requires hi == EndOf(base, nBlocks, nBlocks, bs, lastValidLen) && base < hi && 0 <= base && (bn == 0 ==> base == 0)
    requires mi.Length == li.Length == oi.Length0 == |qi| && oi.Length1 == out.Length1 == inp.headDim && mi != li
      && oi != out
    requires bn > 0 ==>
      Accumulated(mi[..], li[..], Load(oi), exp, TileScores(inp, at, curOffset, |qi|), Values(inp, at, inp.headDim), 0,
      base)
    modifies mi, li, oi, out
    ensures Accumulated(mi[..], li[..], Load(oi), exp, TileScores(inp, at, curOffset, |qi|),
      Values(inp, at, inp.headDim), 0, hi)
    ensures bn + nBlocks == bnThisBatch ==> TileFinal(out, exp, inp, at, hi, curOffset, |qi|)
    ensures OthersKept(out, before, curOffset, |qi|)
  {
    ghost var s, v := TileScores(inp, at, curOffset, |qi|), Values(inp, at, inp.headDim);
    var mij, lij, oiNew := GroupKernels(exp, inp, qi, blockIndices, nUnroll, bs, nBlocks, lastValidLen, at, curOffset,
        base);
    var isFirst, isLast := bn == 0, bn + nBlocks == bnThisBatch;
    OnlineUpdate(exp, mij, lij, oiNew, mi, li, oi, out, curOffset, isFirst, isLast, s, v, base, hi);
  }

  // ---------------------------------------------------------------- the loops

  /** The group at block `bn`: `n_blocks`, `last_valid_len`, and its slice of the table. */
  method NextGroup(table: seq<nat>, blockNum: nat, bs: nat, ghost poolRows: nat, b: nat, curSeq: nat, bn: nat,
      bnThisBatch: nat, nUnroll: nat, ghost base: int)
      returns (nBlocks: nat, lastValidLen: nat, blockIndices: seq<nat>, ghost hi: int)
    requires bs > 0 && nUnroll > 0 && bnThisBatch == CeilDiv(curSeq, bs) && bn < bnThisBatch && base == bn * bs
    requires TableOk(table, blockNum, bs, poolRows, b, curSeq)
    ensures 0 < nBlocks <= nUnroll && bn + nBlocks <= bnThisBatch && 0 < lastValidLen <= bs
    ensures hi == EndOf(base, nBlocks, nBlocks, bs, lastValidLen) && 0 <= base < hi && (bn == 0 ==> base == 0)
    ensures bn + nUnroll < bnThisBatch ==> nBlocks == nUnroll && hi == (bn + nUnroll) * bs
    ensures bn + nUnroll >= bnThisBatch ==> bn + nBlocks == bnThisBatch && hi == curSeq
    ensures Pages(TokenRow(table, blockNum, bs, b), blockIndices, nBlocks, bs, base, poolRows)
  {
    nBlocks := Min(nUnroll, bnThisBatch - bn);
    LastBlock(curSeq, bs, bn + nBlocks - 1);
    lastValidLen := Min(bs, curSeq - (bn + nBlocks - 1) * bs);
    GroupSpan(curSeq, bs, bn, nBlocks, lastValidLen);
    hi := EndOf(base, nBlocks, nBlocks, bs, lastValidLen);
    MulLe(0, b, blockNum);
    MulLe(0, bn, bs);
    var btOffset := b * blockNum + bn;
    blockIndices := ClampedSlice(table, btOffset, nUnroll);
    GroupPages(table, blockNum, bs, poolRows, b, curSeq, bn, nBlocks, nUnroll);
  }

  /** The `bn` loop for one query tile of request `b`. */
  method ProcessTile(exp: real -> real, inp: Inputs, qTile: nat, nUnroll: nat, blockNum: nat, bs: nat, b: nat,
      curOffset: nat, out: array2<real>)
    requires IsExp(exp) && inp.RowsOk() && nUnroll > 0 && bs > 0 && b < |inp.contextLens|
    requires TableOk(inp.blockTable, blockNum, bs, |inp.valueCache|, b, inp.contextLens[b])
    requires curOffset + qTile <= |inp.query| == out.Length0 && out.Length1 == inp.headDim
    modifies out
    ensures inp.contextLens[b] > 0 ==>
              TileFinal(out, exp, inp, TokenRow(inp.blockTable, blockNum, bs, b), inp.contextLens[b], curOffset, qTile)
    ensures OthersKept(out, old(Load(out)), curOffset, qTile)
    ensures inp.contextLens[b] == 0 ==> Load(out) == old(Load(out))
  {
    var curSeq := inp.contextLens[b];
    var bnThisBatch := CeilDiv(curSeq, bs);
    var oi, li, mi := new real[qTile, inp.headDim], new real[qTile], new real[qTile];
    var qi := inp.query[curOffset..curOffset + qTile];
    ghost var before, at := Load(out), TokenRow(inp.blockTable, blockNum, bs, b);
    ghost var base := 0;
    var bn := 0;
    while bn < bnThisBatch
      invariant OthersKept(out, before, curOffset, qTile)
      invariant bn < bnThisBatch ==> base == bn * bs
      invariant bn >= bnThisBatch && curSeq > 0 ==> TileFinal(out, exp, inp, at, curSeq, curOffset, qTile)
      invariant 0 < bn < bnThisBatch ==>
                  Accumulated(mi[..], li[..], Load(oi), exp, TileScores(inp, at, curOffset, qTile),
                      Values(inp, at, inp.headDim), 0, base)
      invariant if bn == 0 then Load(out) == before else bnThisBatch > 0
      decreases bnThisBatch - bn
    {
      var nBlocks, lastValidLen, blockIndices;
      ghost var hi;
      nBlocks, lastValidLen, blockIndices, hi :=
        NextGroup(inp.blockTable, blockNum, bs, |inp.valueCache|, b, curSeq, bn, bnThisBatch, nUnroll, base);
      ProcessGroup(exp, inp, qi, blockIndices, nUnroll, bs, bn, nBlocks, lastValidLen, bnThisBatch, mi, li, oi, out,
          curOffset, at, base, hi, before);
      bn := bn + nUnroll;
      base := hi;
    }
  }

  /** A row of the output: the softmax average over its request's tokens, or what it was
      if the request is not done yet or has no tokens. */
  ghost predicate RowDone(exp: real -> real, inp: Inputs, now: seq<real>, before: seq<real>, at: int -> int, cur: nat,
      row: nat, done: bool)
    requires IsExp(exp)
  {
    && |now| == inp.headDim
    && if done && cur > 0 then forall d :: 0 <= d < |now| ==>
        now[d] == Attention(exp, inp, at, cur, row, d) else now == before
  }

  /** Rows `first..first+n-1` are done, everything else is as it was. */
  ghost predicate RowsDone(exp: real -> real, inp: Inputs, rows: seq<seq<real>>, before: seq<seq<real>>,
      at: int -> int, cur: nat, first: nat, n: nat)
    requires IsExp(exp)
  {
    && |rows| == |before|
    && forall row :: 0 <= row < |rows| ==>
        RowDone(exp, inp, rows[row], before[row], at, cur, row, first <= row < first + n)
  }

  /** The query-tile loop for request `b`, whose rows start at `first`. */
  method ProcessRequest(exp: real -> real, inp: Inputs, qTile: nat, nUnroll: nat, blockNum: nat, bs: nat,
      numHeads: nat, b: nat, first: nat, out: array2<real>)
    requires IsExp(exp) && inp.RowsOk() && nUnroll > 0 && bs > 0 && b < |inp.contextLens|
    requires TableOk(inp.blockTable, blockNum, bs, |inp.valueCache|, b, inp.contextLens[b])
    requires qTile > 0 && numHeads % qTile == 0 && first + numHeads <= |inp.query| == out.Length0
      && out.Length1 == inp.headDim
    modifies out
    ensures RowsDone(exp, inp, Load(out), old(Load(out)), TokenRow(inp.blockTable, blockNum, bs, b),
      inp.contextLens[b], first, numHeads)
  {
    ghost var before, at, cur := Load(out), TokenRow(inp.blockTable, blockNum, bs, b), inp.contextLens[b];
    var qLoop := (numHeads + qTile - 1) / qTile;
    TilesFit(numHeads, qTile);
    for qIdx := 0 to qLoop
      invariant RowsDone(exp, inp, Load(out), before, at, cur, first, qIdx * qTile)
    {
      MulStep(qIdx, qTile);
      MulLe(qIdx + 1, qLoop, qTile);
      var curOffset := first + qIdx * qTile;
      ghost var was := Load(out);
      ProcessTile(exp, inp, qTile, nUnroll, blockNum, bs, b, curOffset, out);
      TileDone(exp, inp, was, out, before, at, cur, first, qIdx * qTile, qTile);
    }
  }

  lemma TilesFit(n: nat, k: nat)
    requires k > 0 && n % k == 0
    ensures ((n + k - 1) / k) * k == n
  {
    DivBounds(n, k);
    DivModAt(n / k, k, k - 1);
  }

  lemma TileDone(exp: real -> real, inp: Inputs, was: seq<seq<real>>, out: array2<real>, before: seq<seq<real>>,
      at: int -> int, cur: nat, first: nat, n: nat, q: nat)
    requires IsExp(exp) && RowsDone(exp, inp, was, before, at, cur, first, n) && first + n + q <= out.Length0
      && out.Length1 == inp.headDim
    requires OthersKept(out, was, first + n, q)
    requires if cur > 0 then TileFinal(out, exp, inp, at, cur, first + n, q) else Load(out) == was
    ensures RowsDone(exp, inp, Load(out), before, at, cur, first, n + q)
  {
  }

  /** The output row of head `h` of request `b`. */
  ghost function HeadRow(b: int, numHeads: nat, h: int): int {
    b * numHeads + h
  }

  /** Head `h` of request `b`: its output row, in every component, is the softmax average
      over the request's tokens; or untouched, if not done yet or without tokens. */
  ghost predicate HeadDone(exp: real -> real, inp: Inputs, rows: seq<seq<real>>, before: seq<seq<real>>, numHeads: nat,
      blockNum: nat, bs: nat, b: nat, h: nat, done: bool)
    requires IsExp(exp) && bs > 0 && b < |inp.contextLens|
  {
    && |rows| == |before| && 0 <= HeadRow(b, numHeads, h) < |rows|
    && RowDone(exp, inp, rows[HeadRow(b, numHeads, h)], before[HeadRow(b, numHeads, h)],
               TokenRow(inp.blockTable, blockNum, bs, b), inp.contextLens[b], HeadRow(b, numHeads, h), done)
  }

  ghost predicate RequestDone(exp: real -> real, inp: Inputs, rows: seq<seq<real>>, before: seq<seq<real>>,
      numHeads: nat, blockNum: nat, bs: nat, b: nat, done: bool)
    requires IsExp(exp) && bs > 0 && b < |inp.contextLens|
  {
    forall h :: 0 <= h < numHeads ==> HeadDone(exp, inp, rows, before, numHeads, blockNum, bs, b, h, done)
  }

  /** Finishing request `b` finishes its own heads and touches no other request's. */
  lemma RequestsApart(exp: real -> real, inp: Inputs, was: seq<seq<real>>, now: seq<seq<real>>, before: seq<seq<real>>,
      numHeads: nat, blockNum: nat, bs: nat, b: nat, b': nat, wasDone: bool, nowDone: bool)
    requires IsExp(exp) && bs > 0 && b < |inp.contextLens| && b' < |inp.contextLens|
    requires wasDone == (b' < b) && nowDone == (b' < b + 1)
    requires RequestDone(exp, inp, was, before, numHeads, blockNum, bs, b', wasDone)
    requires RowsDone(exp, inp, now, was, TokenRow(inp.blockTable, blockNum, bs, b), inp.contextLens[b], b * numHeads,
      numHeads)
    ensures RequestDone(exp, inp, now, before, numHeads, blockNum, bs, b', nowDone)
  {
    forall h | 0 <= h < numHeads
      ensures HeadDone(exp, inp, now, before, numHeads, blockNum, bs, b', h, nowDone)
    {
      assert HeadDone(exp, inp, was, before, numHeads, blockNum, bs, b', h, wasDone);
      var row := HeadRow(b', numHeads, h);
      if b' < b { MulStep(b', numHeads); MulLe(b' + 1, b, numHeads); }
      if b < b' { MulStep(b, numHeads); MulLe(b + 1, b', numHeads); }
      assert RowDone(exp, inp, now[row], was[row], TokenRow(inp.blockTable, blockNum, bs, b), inp.contextLens[b], row,
                     b * numHeads <= row < b * numHeads + numHeads);
    }
  }

  /** The request loop. */
  method ProcessBatch(exp: real -> real, inp: Inputs, qTile: nat, nUnroll: nat, numHeads: nat, blockNum: nat, bs: nat,
      out: array2<real>)
    requires IsExp(exp) && inp.RowsOk() && nUnroll > 0 && qTile > 0 && bs > 0
    requires numHeads % qTile == 0 && |inp.contextLens| * numHeads <= |inp.query|
    requires forall b :: 0 <= b < |inp.contextLens| ==>
      TableOk(inp.blockTable, blockNum, bs, |inp.valueCache|, b, inp.contextLens[b])
    requires out.Length0 == |inp.query| && out.Length1 == inp.headDim
    modifies out
    ensures BatchDone(exp, inp, Load(out), old(Load(out)), numHeads, blockNum, bs, |inp.contextLens|)
  {
    ghost var before := Load(out);
    NothingDone(exp, inp, before, numHeads, blockNum, bs);
    for b := 0 to |inp.contextLens|
      invariant BatchDone(exp, inp, Load(out), before, numHeads, blockNum, bs, b)
    {
      MulStep(b, numHeads);
      MulLe(b + 1, |inp.contextLens|, numHeads);
      ghost var was := Load(out);
      ProcessRequest(exp, inp, qTile, nUnroll, blockNum, bs, numHeads, b, b * numHeads, out);
      BatchStep(exp, inp, was, Load(out), before, numHeads, blockNum, bs, b);
    }
  }

  /** Requests below `n` are done, the others untouched. */
  ghost predicate BatchDone(exp: real -> real, inp: Inputs, rows: seq<seq<real>>, before: seq<seq<real>>,
      numHeads: nat, blockNum: nat, bs: nat, n: nat)
    requires IsExp(exp) && bs > 0
  {
    && (forall b :: 0 <= b < |inp.contextLens| && b < n ==>
        RequestDone(exp, inp, rows, before, numHeads, blockNum, bs, b, true))
    && (forall b :: n <= b < |inp.contextLens| ==>
        RequestDone(exp, inp, rows, before, numHeads, blockNum, bs, b, false))
  }

  lemma BatchStep(exp: real -> real, inp: Inputs, was: seq<seq<real>>, now: seq<seq<real>>, before: seq<seq<real>>,
      numHeads: nat, blockNum: nat, bs: nat, b: nat)
    requires IsExp(exp) && bs > 0 && b < |inp.contextLens|
    requires BatchDone(exp, inp, was, before, numHeads, blockNum, bs, b)
    requires RowsDone(exp, inp, now, was, TokenRow(inp.blockTable, blockNum, bs, b), inp.contextLens[b], b * numHeads,
      numHeads)
    ensures BatchDone(exp, inp, now, before, numHeads, blockNum, bs, b + 1)
  {
    forall b' | 0 <= b' < |inp.contextLens|
      ensures b' < b + 1 ==> RequestDone(exp, inp, now, before, numHeads, blockNum, bs, b', true)
      ensures b + 1 <= b' ==> RequestDone(exp, inp, now, before, numHeads, blockNum, bs, b', false)
    {
      if b' < b {
        RequestsApart(exp, inp, was, now, before, numHeads, blockNum, bs, b, b', true, true);
      } else if b' == b {
        RequestsApart(exp, inp, was, now, before, numHeads, blockNum, bs, b, b', false, true);
      } else {
        RequestsApart(exp, inp, was, now, before, numHeads, blockNum, bs, b, b', false, false);
      }
    }
  }

  lemma NothingDone(exp: real -> real, inp: Inputs, rows: seq<seq<real>>, numHeads: nat, blockNum: nat, bs: nat)
    requires IsExp(exp) && bs > 0 && |inp.contextLens| * numHeads <= |rows|
    requires forall row :: 0 <= row < |rows| ==> |rows[row]| == inp.headDim
    ensures BatchDone(exp, inp, rows, rows, numHeads, blockNum, bs, 0)
  {
    forall b, h | 0 <= b < |inp.contextLens| && 0 <= h < numHeads
      ensures HeadDone(exp, inp, rows, rows, numHeads, blockNum, bs, b, h, false)
    {
      MulStep(b, numHeads);
      MulLe(b + 1, |inp.contextLens|, numHeads);
    }
  }

  /** The shapes the host gives its tensors: `heads` query rows and `maxBlocks` table entries
      a request, `bs` rows of the pool an entry. Rows and entries that are left over, fewer
      than would make one more, are not used. */
  ghost predicate HostShapes(inp: Inputs, heads: nat, maxBlocks: nat, bs: nat) {
    var batch, entries := |inp.contextLens|, |inp.blockTable|;
    && batch > 0 && entries > 0
    && batch * heads <= |inp.query| < batch * heads + batch
    && batch * maxBlocks <= entries < batch * maxBlocks + batch
    && entries * bs <= |inp.valueCache| < entries * bs + entries
  }

  /** What the host guarantees: whole query tiles, and for every request enough whole
      blocks of the pool in its table row. */
  ghost predicate InputsOk(inp: Inputs, qTile: nat, numHeads: nat, blockNum: nat, bs: nat) {
    && inp.RowsOk() && bs > 0 && qTile > 0 && numHeads % qTile == 0
    && (forall b :: 0 <= b < |inp.contextLens| ==>
        TableOk(inp.blockTable, blockNum, bs, |inp.valueCache|, b, inp.contextLens[b]))
  }

  /** `paged_attention`: the sizes derived from the tensors are the host's, and every output
      row of a request with tokens ends as the softmax average of the values of all its
      tokens, whatever the query tile and the unroll width; rows of an empty request keep
      what they held. */
  method PagedAttentionRun(exp: real -> real, inp: Inputs, ghost heads: nat, ghost maxBlocks: nat, ghost bs: nat,
      qTile: nat, nUnroll: nat, out: array2<real>)
      returns (numHeads: nat, blockNum: nat, blockSize: nat)
    requires IsExp(exp) && nUnroll > 0
    requires HostShapes(inp, heads, maxBlocks, bs) && InputsOk(inp, qTile, heads, maxBlocks, bs)
    requires out.Length0 == |inp.query| && out.Length1 == inp.headDim
    modifies out
    ensures numHeads == heads && blockNum == maxBlocks && blockSize == bs
    ensures forall b, h :: 0 <= b < |inp.contextLens| && 0 <= h < heads ==>
              HeadDone(exp, inp, Load(out), old(Load(out)), heads, maxBlocks, bs, b, h, true)
  {
    var batch, entries := |inp.contextLens|, |inp.blockTable|;
    numHeads, blockNum, blockSize := |inp.query| / batch, entries / batch, |inp.valueCache| / entries;
    DivUnique(|inp.query|, batch, heads, |inp.query| - batch * heads);
    DivUnique(entries, batch, maxBlocks, entries - batch * maxBlocks);
    DivUnique(|inp.valueCache|, entries, bs, |inp.valueCache| - entries * bs);
    AllRequests(exp, inp, qTile, nUnroll, numHeads, blockNum, blockSize, out);
  }

  method AllRequests(exp: real -> real, inp: Inputs, qTile: nat, nUnroll: nat, numHeads: nat, blockNum: nat, bs: nat,
      out: array2<real>)
    requires IsExp(exp) && nUnroll > 0 && InputsOk(inp, qTile, numHeads, blockNum, bs)
    requires |inp.contextLens| * numHeads <= |inp.query|
    requires out.Length0 == |inp.query| && out.Length1 == inp.headDim
    modifies out
    ensures forall b, h :: 0 <= b < |inp.contextLens| && 0 <= h < numHeads ==>
              HeadDone(exp, inp, Load(out), old(Load(out)), numHeads, blockNum, bs, b, h, true)
  {
    ghost var before := Load(out);
    ProcessBatch(exp, inp, qTile, nUnroll, numHeads, blockNum, bs, out);
    forall b, h | 0 <= b < |inp.contextLens| && 0 <= h < numHeads
      ensures HeadDone(exp, inp, Load(out), before, numHeads, blockNum, bs, b, h, true)
    {
      assert RequestDone(exp, inp, Load(out), before, numHeads, blockNum, bs, b, true);
    }
  }
}
