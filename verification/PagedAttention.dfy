/** examples/models/07_paged_attention_multi_config.py: paged attention by groups of KV
    blocks, each group by a two-pass softmax, the groups merged by rescaling. Kernels
    update their buffers in place; tiles are row-stacked, tile `i` of a buffer first. */
module PagedAttention {
  import opened OnlineSoftmax

  // ---------------------------------------------------------------- inputs and reference

  datatype Inputs = Inputs(
    query: seq<seq<real>>,       // batch * num_heads rows
    keyCache: seq<seq<real>>,    // one row per cached token slot
    valueCache: seq<seq<real>>,
    blockTable: seq<nat>,        // physical block of (request, logical block)
    contextLens: seq<nat>,
    headDim: nat)
  {
    predicate RowsOk() {
      && |keyCache| == |valueCache|
      && (forall i :: 0 <= i < |query| ==> |query[i]| == headDim)
      && (forall i :: 0 <= i < |keyCache| ==> |keyCache[i]| == headDim && |valueCache[i]| == headDim)
    }
  }

  function Dot(a: seq<real>, b: seq<real>, n: nat): real
    requires n <= |a| && n <= |b|
  {
    if n == 0 then 0.0 else Dot(a, b, n - 1) + Times(a[n - 1], b[n - 1])
  }

  ghost function SumOf(f: int -> real, n: int): real
    decreases n
  {
    if n <= 0 then 0.0 else SumOf(f, n - 1) + f(n - 1)
  }

  /** The products of the components of two vectors. */
  ghost function Products(a: seq<real>, b: seq<real>): int -> real {
    i => if 0 <= i < |a| && i < |b| then a[i] * b[i] else 0.0
  }

  lemma {:induction false} DotIsSum(a: seq<real>, b: seq<real>, n: nat)
    requires n <= |a| && n <= |b|
    ensures Dot(a, b, n) == SumOf(Products(a, b), n)
  {
    if n > 0 {
      DotIsSum(a, b, n - 1);
    }
  }

  /** The score of every token against query row `row`; `at` maps a token to its cache row. */
  ghost function Score(inp: Inputs, at: int -> int, row: nat): int -> real {
    t =>
      var k := at(t);
      if 0 <= k < |inp.keyCache| && row < |inp.query|
         && |inp.query[row]| == inp.headDim && |inp.keyCache[k]| == inp.headDim
      then Dot(inp.query[row], inp.keyCache[k], inp.headDim) else 0.0
  }

  /** Component `d` of the value of every token. */
  ghost function Value(inp: Inputs, at: int -> int, d: nat): int -> real {
    t =>
      var k := at(t);
      if 0 <= k < |inp.valueCache| && d < |inp.valueCache[k]| then inp.valueCache[k][d] else 0.0
  }

  /** The reference: one softmax over all `n` tokens of a request. */
  ghost function Attention(exp: real -> real, inp: Inputs, at: int -> int, n: nat, row: nat, d: nat): real
    requires IsExp(exp) && n > 0
  {
    Softmax(exp, Score(inp, at, row), Value(inp, at, d), n)
  }

  // ---------------------------------------------------------------- padded tiles

  /** A tile element after `fillpad` with the minimum: a value, or less than any value. */
  datatype Ext = NegInf | Fin(x: real)

  function Scaled(e: Ext, scale: real): Ext {
    match e
    case NegInf => NegInf            // the scale is positive
    case Fin(x) => Fin(Times(x, scale))
  }

  /** `exp(e - m)`; padding weighs nothing. */
  function ExpAt(exp: real -> real, e: Ext, m: real): real {
    match e
    case NegInf => 0.0
    case Fin(x) => exp(x - m)
  }

  function MaxExt(a: Ext, b: Ext): Ext {
    match (a, b)
    case (NegInf, _) => b
    case (_, NegInf) => a
    case (Fin(x), Fin(y)) => Fin(Max(x, y))
  }

  /** `pl.row_max` over the first `n` columns. */
  function RowMax(row: seq<Ext>, n: nat): Ext
    requires n <= |row|
  {
    if n == 0 then NegInf else MaxExt(RowMax(row, n - 1), row[n - 1])
  }

  /** `pl.row_sum` over the first `n` columns. */
  function RowSum(row: seq<real>, n: nat): real
    requires n <= |row|
  {
    if n == 0 then 0.0 else RowSum(row, n - 1) + row[n - 1]
  }

  /** A row of a scaled tile holds the scores of tokens `base, base+1, ..`, padded after `valid`. */
  ghost predicate HoldsScores(row: seq<Ext>, s: int -> real, base: int, valid: nat) {
    && valid <= |row|
    && (forall c :: 0 <= c < valid ==> row[c] == Fin(s(base + c)))
    && (forall c :: valid <= c < |row| ==> row[c] == NegInf)
  }

  lemma {:induction false} RowMaxIsMaxOver(row: seq<Ext>, s: int -> real, base: int, valid: nat, n: nat)
    requires HoldsScores(row, s, base, valid) && 0 < valid && 0 < n <= |row|
    ensures RowMax(row, n) == Fin(MaxOver(s, base, base + if n < valid then n else valid))
  {
    if n > 1 {
      RowMaxIsMaxOver(row, s, base, valid, n - 1);
    } else {
      assert RowMax(row, 0) == NegInf;
    }
  }

  /** The weights of a padded row sum to the weights of its tokens. */
  lemma {:induction false} RowSumIsWeighted(exp: real -> real, row: seq<Ext>, p: seq<real>, s: int -> real, m: real,
      base: int, valid: nat, n: nat)
    requires HoldsScores(row, s, base, valid) && n <= |row| == |p|
    requires forall c :: 0 <= c < |p| ==> p[c] == ExpAt(exp, row[c], m)
    ensures RowSum(p, n) == Weighted(exp, s, One(), m, base, base + if n < valid then n else valid)
  {
    if n > 0 {
      RowSumIsWeighted(exp, row, p, s, m, base, valid, n - 1);
    }
  }

  /** Weights of one tile row hold: the token weights, then nothing. */
  ghost predicate HoldsWeights(p: seq<real>, exp: real -> real, s: int -> real, m: real, base: int, valid: nat) {
    && valid <= |p|
    && (forall c :: 0 <= c < valid ==> p[c] == exp(s(base + c) - m))
    && (forall c :: valid <= c < |p| ==> p[c] == 0.0)
  }

  /** Column `d` of a block of cache rows. */
  function BlockColumn(cache: seq<seq<real>>, first: nat, d: nat, n: nat): (col: seq<real>)
    requires first + n <= |cache| && forall i :: 0 <= i < |cache| ==> d < |cache[i]|
    ensures |col| == n && forall c :: 0 <= c < n ==> col[c] == cache[first + c][d]
  {
    seq(n, c requires 0 <= c < n && first + n <= |cache| && (forall i :: 0 <= i < |cache| ==> d < |cache[i]|) =>
      cache[first + c][d])
  }

  /** Multiplying a row of weights into a block of values adds exactly its tokens. */
  lemma {:induction false} DotIsWeighted(p: seq<real>, col: seq<real>, exp: real -> real, s: int -> real,
      v: int -> real, m: real, base: int, valid: nat, n: nat)
    requires HoldsWeights(p, exp, s, m, base, valid) && n <= |p| == |col|
    requires forall c :: 0 <= c < valid ==> col[c] == v(base + c)
    ensures Dot(p, col, n) == Weighted(exp, s, v, m, base, base + if n < valid then n else valid)
  {
    if n > 0 {
      DotIsWeighted(p, col, exp, s, v, m, base, valid, n - 1);
    }
  }

  // ---------------------------------------------------------------- a group of blocks

  /** Valid columns of block `i` of a group: only the last block is partial. */
  function ValidLen(i: nat, nBlocks: nat, blockSize: nat, lastValid: nat): nat {
    if i + 1 == nBlocks then lastValid else blockSize
  }

  /** The first token of block `i` of a group that starts at token `base`. */
  ghost function BlockStart(base: int, i: nat, blockSize: nat): int {
    if i == 0 then base else BlockStart(base, i - 1, blockSize) + blockSize
  }

  lemma {:induction false} BlockStartIs(base: int, i: nat, blockSize: nat)
    ensures BlockStart(base, i, blockSize) == base + i * blockSize
  {
    if i > 0 {
      BlockStartIs(base, i - 1, blockSize);
      assert i * blockSize == (i - 1) * blockSize + blockSize;
    }
  }

  /** The first token after blocks `0..i-1` of a group. */
  ghost function EndOf(base: int, i: nat, nBlocks: nat, blockSize: nat, lastValid: nat): int {
    if i == 0 then base else BlockStart(base, i - 1, blockSize) + ValidLen(i - 1, nBlocks, blockSize, lastValid)
  }

  lemma {:induction false} EndOfStep(base: int, i: nat, nBlocks: nat, blockSize: nat, lastValid: nat)
    requires i < nBlocks
    ensures base <= BlockStart(base, i, blockSize) == EndOf(base, i, nBlocks, blockSize, lastValid)
    ensures EndOf(base, i + 1, nBlocks, blockSize, lastValid)
      == BlockStart(base, i, blockSize) + ValidLen(i, nBlocks, blockSize, lastValid)
  {
    if i > 0 {
      EndOfStep(base, i - 1, nBlocks, blockSize, lastValid);
    }
  }

  /** Row `r` of tile `i` after `fillpad` and scaling. */
  function PaddedRow(sij: array3<real>, i: nat, r: nat, valid: nat, scale: real): (row: seq<Ext>)
    requires i < sij.Length0 && r < sij.Length1
    reads sij
    ensures |row| == sij.Length2
    ensures forall c :: 0 <= c < |row| ==> row[c] == if c < valid then Fin(Times(sij[i, r, c], scale)) else NegInf
  {
    seq(sij.Length2, c requires 0 <= c < sij.Length2 && i < sij.Length0 && r < sij.Length1 reads sij =>
      PadAt(sij[i, r, c], c < valid, scale))
  }

  function PadAt(x: real, isValid: bool, scale: real): (e: Ext)
    ensures e == if isValid then Fin(Times(x, scale)) else NegInf
  {
    Scaled(if isValid then Fin(x) else NegInf, scale)
  }

  /** Row `r` of tile `i`. */
  function TileRow(a: array3<real>, i: nat, r: nat): (row: seq<real>)
    requires i < a.Length0 && r < a.Length1
    reads a
    ensures |row| == a.Length2 && forall c :: 0 <= c < |row| ==> row[c] == a[i, r, c]
  {
    seq(a.Length2, c requires 0 <= c < a.Length2 && i < a.Length0 && r < a.Length1 reads a => a[i, r, c])
  }

  /** The score buffer of a group holds, row by row, the scores of its tokens. */
  ghost predicate GroupScores(sij: array3<real>, scale: real, s: seq<int -> real>, base: int, nBlocks: nat,
      lastValid: nat)
    requires |s| == sij.Length1 && nBlocks <= sij.Length0
    reads sij
  {
    forall i :: 0 <= i < nBlocks ==> GroupTile(sij, scale, s, base, nBlocks, lastValid, i)
  }

  ghost predicate GroupTile(sij: array3<real>, scale: real, s: seq<int -> real>, base: int, nBlocks: nat,
      lastValid: nat, i: nat)
    requires |s| == sij.Length1 && i < nBlocks <= sij.Length0
    reads sij
  {
    TileHolds(LoadScaled(sij, i, ValidLen(i, nBlocks, sij.Length2, lastValid), scale), s,
              BlockStart(base, i, sij.Length2), ValidLen(i, nBlocks, sij.Length2, lastValid))
  }

  /** `pl.load` of tile `i`. */
  function LoadTile(a: array3<real>, i: nat): (tile: seq<seq<real>>)
    requires i < a.Length0
    reads a
    ensures |tile| == a.Length1 && forall r :: 0 <= r < |tile| ==> tile[r] == TileRow(a, i, r)
  {
    seq(a.Length1, r requires 0 <= r < a.Length1 && i < a.Length0 reads a => TileRow(a, i, r))
  }

  /** A tile of weights of one block. */
  ghost predicate BlockWeights(p: seq<seq<real>>, n: nat, exp: real -> real, s: seq<int -> real>, m: seq<real>,
      pos: int, valid: nat)
    requires |s| == |m|
  {
    |p| == |s| && forall r :: 0 <= r < |s| ==> |p[r]| == n && HoldsWeights(p[r], exp, s[r], m[r], pos, valid)
  }

  /** The weight buffer of a group holds, tile by tile, the weights of its tokens. */
  ghost predicate GroupWeights(pij: array3<real>, exp: real -> real, s: seq<int -> real>, m: seq<real>, base: int,
      nBlocks: nat, lastValid: nat, upTo: nat)
    requires |s| == |m| == pij.Length1 && upTo <= nBlocks <= pij.Length0
    reads pij
  {
    forall i :: 0 <= i < upTo ==>
      BlockWeights(LoadTile(pij, i), pij.Length2, exp, s, m, BlockStart(base, i, pij.Length2),
          ValidLen(i, nBlocks, pij.Length2, lastValid))
  }

  /** `pl.load` of tile `i` with a valid width, `fillpad`, scaled. Tiles are values. */
  function LoadScaled(sij: array3<real>, i: nat, valid: nat, scale: real): (tile: seq<seq<Ext>>)
    requires i < sij.Length0
    reads sij
    ensures |tile| == sij.Length1 && forall r :: 0 <= r < |tile| ==> tile[r] == PaddedRow(sij, i, r, valid, scale)
  {
    seq(sij.Length1, r requires 0 <= r < sij.Length1 && i < sij.Length0 reads sij => PaddedRow(sij, i, r, valid, scale))
  }

  /** Every row of a tile holds the scores of its query row. */
  ghost predicate TileHolds(tile: seq<seq<Ext>>, s: seq<int -> real>, pos: int, valid: nat) {
    |tile| == |s| && forall r :: 0 <= r < |s| ==> HoldsScores(tile[r], s[r], pos, valid)
  }

  /** `pl.row_max` of a tile: the maximum over the tokens it holds. */
  method TileRowMax(tile: seq<seq<Ext>>, ghost s: seq<int -> real>, ghost pos: int, ghost valid: nat)
      returns (localMax: seq<real>)
    requires TileHolds(tile, s, pos, valid) && 0 < valid
    ensures |localMax| == |tile| && forall r :: 0 <= r < |s| ==> localMax[r] == MaxOver(s[r], pos, pos + valid)
  {
    localMax := [];
    for r := 0 to |tile|
      invariant |localMax| == r && forall r' :: 0 <= r' < r ==> localMax[r'] == MaxOver(s[r'], pos, pos + valid)
    {
      assert HoldsScores(tile[r], s[r], pos, valid);
      RowMaxIsMaxOver(tile[r], s[r], pos, valid, |tile[r]|);
      localMax := localMax + [RowMax(tile[r], |tile[r]|).x];
    }
  }

  /** One round of pass 1: fold a tile's row maxima into the running ones. */
  method FoldMax(mi: array<real>, localMax: seq<real>, isFirst: bool)
    requires |localMax| == mi.Length
    modifies mi
    ensures forall r :: 0 <= r < mi.Length ==> mi[r] == if isFirst then localMax[r] else Max(old(mi[r]), localMax[r])
  {
    forall r | 0 <= r < mi.Length {
      mi[r] := if isFirst then localMax[r] else Max(mi[r], localMax[r]);
    }
  }

  /** `kernel_softmax_prepare`, pass 1: the row maximum over all blocks of the group. */
  method RowMaxPass(sij: array3<real>, scale: real, mi: array<real>, nBlocks: nat, lastValid: nat,
      ghost s: seq<int -> real>, ghost base: int)
    requires |s| == mi.Length == sij.Length1 && 0 < nBlocks <= sij.Length0 && 0 < lastValid <= sij.Length2
    requires GroupScores(sij, scale, s, base, nBlocks, lastValid)
    modifies mi
    ensures base < EndOf(base, nBlocks, nBlocks, sij.Length2, lastValid)
    ensures forall r :: 0 <= r < |s| ==>
      mi[r] == MaxOver(s[r], base, EndOf(base, nBlocks, nBlocks, sij.Length2, lastValid))
  {
    for i := 0 to nBlocks
      invariant if i == 0 then EndOf(base, i, nBlocks, sij.Length2, lastValid) == base
                else base < EndOf(base, i, nBlocks, sij.Length2, lastValid) &&
                     forall r :: 0 <= r < |s| ==>
                         mi[r] == MaxOver(s[r], base, EndOf(base, i, nBlocks, sij.Length2, lastValid))
    {
      var validLen := ValidLen(i, nBlocks, sij.Length2, lastValid);
      ghost var pos := BlockStart(base, i, sij.Length2);
      assert GroupTile(sij, scale, s, base, nBlocks, lastValid, i);
      var tile := LoadScaled(sij, i, validLen, scale);
      var localMax := TileRowMax(tile, s, pos, validLen);
      FoldMax(mi, localMax, i == 0);
      JoinMaxima(s, base, pos, pos + validLen);
    }
  }

  lemma JoinMaxima(s: seq<int -> real>, lo: int, mid: int, hi: int)
    requires lo <= mid < hi
    ensures lo < mid ==> forall r :: 0 <= r < |s| ==>
      MaxOver(s[r], lo, hi) == Max(MaxOver(s[r], lo, mid), MaxOver(s[r], mid, hi))
  {
  }

  /** `pl.exp` of a centred row. */
  function ExpRow(exp: real -> real, row: seq<Ext>, m: real): (p: seq<real>)
    ensures |p| == |row| && forall c :: 0 <= c < |p| ==> p[c] == ExpAt(exp, row[c], m)
  {
    seq(|row|, c requires 0 <= c < |row| => ExpAt(exp, row[c], m))
  }

  lemma ExpRowHolds(exp: real -> real, row: seq<Ext>, m: real, s: int -> real, pos: int, valid: nat)
    requires HoldsScores(row, s, pos, valid)
    ensures HoldsWeights(ExpRow(exp, row, m), exp, s, m, pos, valid)
    ensures RowSum(ExpRow(exp, row, m), |row|) == Weighted(exp, s, One(), m, pos, pos + valid)
  {
    RowSumIsWeighted(exp, row, ExpRow(exp, row, m), s, m, pos, valid, |row|);
  }

  /** `pl.exp` of a centred tile and its `pl.row_sum`: the weights of the tokens it holds. */
  method TileWeights(exp: real -> real, tile: seq<seq<Ext>>, n: nat, m: seq<real>, ghost s: seq<int -> real>,
      ghost pos: int, ghost valid: nat) returns (p: seq<seq<real>>, sums: seq<real>)
    requires TileHolds(tile, s, pos, valid) && |m| == |s|
    requires forall r :: 0 <= r < |tile| ==> |tile[r]| == n
    ensures |sums| == |s| && BlockWeights(p, n, exp, s, m, pos, valid)
    ensures forall r :: 0 <= r < |s| ==> sums[r] == Weighted(exp, s[r], One(), m[r], pos, pos + valid)
  {
    p, sums := [], [];
    for r := 0 to |tile|
      invariant |p| == |sums| == r
      invariant forall r' :: 0 <= r' < r ==> |p[r']| == n && HoldsWeights(p[r'], exp, s[r'], m[r'], pos, valid)
      invariant forall r' :: 0 <= r' < r ==> sums[r'] == Weighted(exp, s[r'], One(), m[r'], pos, pos + valid)
    {
      assert HoldsScores(tile[r], s[r], pos, valid);
      var row := ExpRow(exp, tile[r], m[r]);
      ExpRowHolds(exp, tile[r], m[r], s[r], pos, valid);
      p, sums := p + [row], sums + [RowSum(row, |row|)];
    }
  }

  /** `pl.store` of a tile at tile position `i`. */
  method StoreTile(pij: array3<real>, i: nat, p: seq<seq<real>>)
    requires i < pij.Length0 && |p| == pij.Length1 && forall r :: 0 <= r < |p| ==> |p[r]| == pij.Length2
    modifies pij
    ensures forall r :: 0 <= r < pij.Length1 ==> TileRow(pij, i, r) == p[r]
    ensures forall i', r :: 0 <= i' < pij.Length0 && 0 <= r < pij.Length1 && i' != i ==>
      TileRow(pij, i', r) == old(TileRow(pij, i', r))
    ensures LoadTile(pij, i) == p && forall i' :: 0 <= i' < pij.Length0 && i' != i ==>
      LoadTile(pij, i') == old(LoadTile(pij, i'))
  {
    forall r, c | 0 <= r < pij.Length1 && 0 <= c < pij.Length2 {
      pij[i, r, c] := p[r][c];
    }
  }

  /** The running row sums: the weights of all tokens in `lo..hi-1`. */
  ghost predicate RunningSums(li: array<real>, exp: real -> real, s: seq<int -> real>, m: seq<real>, lo: int, hi: int)
    requires |s| == |m| == li.Length
    reads li
  {
    forall r :: 0 <= r < |s| ==> li[r] == Weighted(exp, s[r], One(), m[r], lo, hi)
  }

  /** One round of pass 2: add a tile's row sums to the running ones. */
  method FoldSum(li: array<real>, sums: seq<real>, isFirst: bool, ghost exp: real -> real, ghost s: seq<int -> real>,
      ghost m: seq<real>, ghost lo: int, ghost mid: int, ghost hi: int)
    requires |s| == |m| == |sums| == li.Length && lo <= mid <= hi
    requires if isFirst then lo == mid else RunningSums(li, exp, s, m, lo, mid)
    requires forall r :: 0 <= r < |s| ==> sums[r] == Weighted(exp, s[r], One(), m[r], mid, hi)
    modifies li
    ensures RunningSums(li, exp, s, m, lo, hi)
  {
    forall r | 0 <= r < |s|
      ensures Weighted(exp, s[r], One(), m[r], lo, hi) == Weighted(exp, s[r], One(), m[r], lo, mid) + sums[r]
    {
      WeightedJoin(exp, s[r], One(), m[r], lo, mid, hi);
    }
    forall r | 0 <= r < li.Length {
      li[r] := if isFirst then sums[r] else li[r] + sums[r];
    }
  }

  /** Storing the next tile of weights extends what the buffer holds. */
  method StoreWeights(pij: array3<real>, i: nat, p: seq<seq<real>>, ghost exp: real -> real, ghost s: seq<int -> real>,
      ghost m: seq<real>, ghost base: int, ghost nBlocks: nat, ghost lastValid: nat)
    requires |s| == |m| == pij.Length1 && i < nBlocks <= pij.Length0
    requires BlockWeights(p, pij.Length2, exp, s, m, BlockStart(base, i, pij.Length2),
      ValidLen(i, nBlocks, pij.Length2, lastValid))
    requires GroupWeights(pij, exp, s, m, base, nBlocks, lastValid, i)
    modifies pij
    ensures GroupWeights(pij, exp, s, m, base, nBlocks, lastValid, i + 1)
  {
    StoreTile(pij, i, p);
  }

  /** One iteration of pass 2. */
  method WeightRound(exp: real -> real, sij: array3<real>, scale: real, pij: array3<real>, globalMax: seq<real>,
      li: array<real>, nBlocks: nat, lastValid: nat, i: nat, ghost s: seq<int -> real>, ghost base: int)
    requires |s| == |globalMax| == li.Length == sij.Length1 == pij.Length1 && sij.Length2 == pij.Length2
    requires i < nBlocks <= sij.Length0 && nBlocks <= pij.Length0 && 0 < lastValid <= sij.Length2 && sij != pij
    requires GroupTile(sij, scale, s, base, nBlocks, lastValid, i)
    requires GroupWeights(pij, exp, s, globalMax, base, nBlocks, lastValid, i)
    requires base <= BlockStart(base, i, sij.Length2)
    requires if i == 0 then BlockStart(base, i, sij.Length2) == base
             else RunningSums(li, exp, s, globalMax, base, BlockStart(base, i, sij.Length2))
    modifies pij, li
    ensures GroupWeights(pij, exp, s, globalMax, base, nBlocks, lastValid, i + 1)
    ensures RunningSums(li, exp, s, globalMax, base,
      BlockStart(base, i, sij.Length2) + ValidLen(i, nBlocks, sij.Length2, lastValid))
  {
    var validLen := ValidLen(i, nBlocks, sij.Length2, lastValid);
    ghost var pos := BlockStart(base, i, sij.Length2);
    var tile := LoadScaled(sij, i, validLen, scale);
    var p, sums := TileWeights(exp, tile, sij.Length2, globalMax, s, pos, validLen);
    StoreWeights(pij, i, p, exp, s, globalMax, base, nBlocks, lastValid);
    FoldSum(li, sums, i == 0, exp, s, globalMax, base, pos, pos + validLen);
  }

  /** `kernel_softmax_prepare`, pass 2: the weights of the group and their row sums. */
  method WeightPass(exp: real -> real, sij: array3<real>, scale: real, pij: array3<real>, mi: array<real>,
      li: array<real>, nBlocks: nat, lastValid: nat, ghost s: seq<int -> real>, ghost base: int)
    requires |s| == mi.Length == li.Length == sij.Length1 == pij.Length1 && sij.Length2 == pij.Length2
    requires 0 < nBlocks <= sij.Length0 && nBlocks <= pij.Length0 && 0 < lastValid <= sij.Length2 && sij != pij
      && mi != li
    requires GroupScores(sij, scale, s, base, nBlocks, lastValid)
    modifies pij, li
    ensures GroupWeights(pij, exp, s, mi[..], base, nBlocks, lastValid, nBlocks)
    ensures RunningSums(li, exp, s, mi[..], base, EndOf(base, nBlocks, nBlocks, sij.Length2, lastValid))
  {
    ghost var m := mi[..];
    for i := 0 to nBlocks
      invariant mi[..] == m
      invariant GroupWeights(pij, exp, s, m, base, nBlocks, lastValid, i)
      invariant i > 0 ==> RunningSums(li, exp, s, m, base, EndOf(base, i, nBlocks, sij.Length2, lastValid))
    {
      assert GroupTile(sij, scale, s, base, nBlocks, lastValid, i);
      EndOfStep(base, i, nBlocks, sij.Length2, lastValid);
      var globalMax := mi[..];
      WeightRound(exp, sij, scale, pij, globalMax, li, nBlocks, lastValid, i, s, base);
    }
  }

  // ---------------------------------------------------------------- matrix kernels

  /** One row of `qi @ kj.T`. */
  function QkRow(q: seq<real>, cache: seq<seq<real>>, first: nat, n: nat): (row: seq<real>)
    requires first + n <= |cache| && forall k :: first <= k < first + n ==> |cache[k]| == |q|
    ensures |row| == n && forall c :: 0 <= c < n ==> row[c] == Dot(q, cache[first + c], |q|)
  {
    seq(n, c requires 0 <= c < n && first + n <= |cache| && (forall k :: first <= k < first + n ==>
        |cache[k]| == |q|) => Dot(q, cache[first + c], |q|))
  }

  /** `kernel_qk_matmul`: the scores of a group, block by block through the table slice. */
  method QkMatmul(qi: seq<seq<real>>, keyCache: seq<seq<real>>, sij: array3<real>, blockIndices: seq<nat>,
      nBlocks: nat, headDim: nat)
    requires |qi| == sij.Length1 && nBlocks <= sij.Length0 && nBlocks <= |blockIndices|
    requires forall r :: 0 <= r < |qi| ==> |qi[r]| == headDim
    requires forall k :: 0 <= k < |keyCache| ==> |keyCache[k]| == headDim
    requires forall i :: 0 <= i < nBlocks ==> blockIndices[i] * sij.Length2 + sij.Length2 <= |keyCache|
    modifies sij
    ensures forall i, r :: 0 <= i < nBlocks && 0 <= r < |qi| ==>
              TileRow(sij, i, r) == QkRow(qi[r], keyCache, blockIndices[i] * sij.Length2, sij.Length2)
  {
    for i := 0 to nBlocks
      invariant forall i', r :: 0 <= i' < i && 0 <= r < |qi| ==>
                  TileRow(sij, i', r) == QkRow(qi[r], keyCache, blockIndices[i'] * sij.Length2, sij.Length2)
    {
      var physBlock := blockIndices[i];
      var kjRow := physBlock * sij.Length2;
      var tile := seq(|qi|, r requires 0 <= r < |qi| && |qi[r]| == headDim && kjRow + sij.Length2 <= |keyCache|
                                && (forall k :: 0 <= k < |keyCache| ==> |keyCache[k]| == headDim) =>
        QkRow(qi[r], keyCache, kjRow, sij.Length2));
      StoreTile(sij, i, tile);
    }
  }

  /** One row of `pij @ vj`. */
  function PvRow(p: seq<real>, cache: seq<seq<real>>, first: nat, headDim: nat): (row: seq<real>)
    requires first + |p| <= |cache| && forall k :: 0 <= k < |cache| ==> |cache[k]| == headDim
    ensures |row| == headDim && forall d :: 0 <= d < headDim ==>
      row[d] == Dot(p, BlockColumn(cache, first, d, |p|), |p|)
  {
    seq(headDim, d requires 0 <= d < headDim && first + |p| <= |cache| && (forall k :: 0 <= k < |cache| ==>
        |cache[k]| == headDim) => Dot(p, BlockColumn(cache, first, d, |p|), |p|))
  }

  ghost predicate HoldsValues(col: seq<real>, v: int -> real, pos: int, valid: nat) {
    valid <= |col| && forall c :: 0 <= c < valid ==> col[c] == v(pos + c)
  }

  /** A block of the value cache holds, column by column, the values of its tokens. */
  ghost predicate BlockValues(cache: seq<seq<real>>, first: nat, n: nat, v: seq<int -> real>, pos: int, valid: nat) {
    && first + n <= |cache|
    && (forall k :: 0 <= k < |cache| ==> |cache[k]| == |v|)
    && (forall d :: 0 <= d < |v| ==> HoldsValues(BlockColumn(cache, first, d, n), v[d], pos, valid))
  }

  ghost predicate RowSums(row: seq<real>, exp: real -> real, s: int -> real, v: seq<int -> real>, m: real, lo: int,
      hi: int) {
    |row| == |v| && forall d :: 0 <= d < |v| ==> row[d] == Weighted(exp, s, v[d], m, lo, hi)
  }

  ghost predicate GroupSums(tile: seq<seq<real>>, exp: real -> real, s: seq<int -> real>, v: seq<int -> real>,
      m: seq<real>, lo: int, hi: int)
    requires |s| == |m|
  {
    |tile| == |s| && forall r :: 0 <= r < |s| ==> RowSums(tile[r], exp, s[r], v, m[r], lo, hi)
  }

  lemma PvRowSums(p: seq<real>, cache: seq<seq<real>>, first: nat, exp: real -> real, s: int -> real,
      v: seq<int -> real>, m: real, pos: int, valid: nat)
    requires HoldsWeights(p, exp, s, m, pos, valid) && BlockValues(cache, first, |p|, v, pos, valid)
    ensures RowSums(PvRow(p, cache, first, |v|), exp, s, v, m, pos, pos + valid)
  {
    forall d | 0 <= d < |v|
      ensures Dot(p, BlockColumn(cache, first, d, |p|), |p|) == Weighted(exp, s, v[d], m, pos, pos + valid)
    {
      assert HoldsValues(BlockColumn(cache, first, d, |p|), v[d], pos, valid);
      DotIsWeighted(p, BlockColumn(cache, first, d, |p|), exp, s, v[d], m, pos, valid, |p|);
    }
  }

  function AddRow(a: seq<real>, b: seq<real>): (t: seq<real>)
    requires |a| == |b|
    ensures |t| == |a| && forall d :: 0 <= d < |t| ==> t[d] == a[d] + b[d]
  {
    seq(|a|, d requires 0 <= d < |a| == |b| => a[d] + b[d])
  }

  lemma AddRowSums(a: seq<real>, b: seq<real>, exp: real -> real, s: int -> real, v: seq<int -> real>, m: real,
      lo: int, mid: int, hi: int)
    requires lo <= mid <= hi && RowSums(a, exp, s, v, m, lo, mid) && RowSums(b, exp, s, v, m, mid, hi)
    ensures RowSums(AddRow(a, b), exp, s, v, m, lo, hi)
  {
    forall d | 0 <= d < |v|
      ensures Weighted(exp, s, v[d], m, lo, hi) == a[d] + b[d]
    {
      WeightedJoin(exp, s, v[d], m, lo, mid, hi);
    }
  }

  /** `pl.matmul` of the first block, `pl.matmul_acc` of a later one, for one row. */
  function PvAccRow(p: seq<real>, cache: seq<seq<real>>, first: nat, headDim: nat, isFirst: bool,
      acc: seq<real>): (row: seq<real>)
    requires first + |p| <= |cache| && forall k :: 0 <= k < |cache| ==> |cache[k]| == headDim
    requires isFirst || |acc| == headDim
  {
    if isFirst then PvRow(p, cache, first, headDim) else AddRow(acc, PvRow(p, cache, first, headDim))
  }

  lemma PvAccRowSums(p: seq<real>, cache: seq<seq<real>>, first: nat, isFirst: bool, acc: seq<real>,
      exp: real -> real, s: int -> real, v: seq<int -> real>, m: real, base: int, pos: int, valid: nat)
    requires HoldsWeights(p, exp, s, m, pos, valid) && BlockValues(cache, first, |p|, v, pos, valid) && base <= pos
    requires if isFirst then pos == base else RowSums(acc, exp, s, v, m, base, pos)
    ensures RowSums(PvAccRow(p, cache, first, |v|, isFirst, acc), exp, s, v, m, base, pos + valid)
  {
    PvRowSums(p, cache, first, exp, s, v, m, pos, valid);
    if !isFirst {
      AddRowSums(acc, PvRow(p, cache, first, |v|), exp, s, v, m, base, pos, pos + valid);
    }
  }

  /** `pl.matmul` / `pl.matmul_acc` of one block: what the group's tokens add up to so far. */
  method PvBlock(p: seq<seq<real>>, cache: seq<seq<real>>, first: nat, n: nat, isFirst: bool, acc: seq<seq<real>>,
      headDim: nat, ghost exp: real -> real, ghost s: seq<int -> real>, ghost v: seq<int -> real>, ghost m: seq<real>,
      ghost base: int, ghost pos: int, ghost valid: nat) returns (tile: seq<seq<real>>)
    requires |s| == |m| && |v| == headDim && base <= pos
    requires BlockWeights(p, n, exp, s, m, pos, valid) && BlockValues(cache, first, n, v, pos, valid)
    requires if isFirst then pos == base else GroupSums(acc, exp, s, v, m, base, pos)
    ensures GroupSums(tile, exp, s, v, m, base, pos + valid)
  {
    tile := [];
    for r := 0 to |p|
      invariant |tile| == r && forall r' :: 0 <= r' < r ==> RowSums(tile[r'], exp, s[r'], v, m[r'], base, pos + valid)
    {
      var accRow := if isFirst then [] else acc[r];
      PvAccRowSums(p[r], cache, first, isFirst, accRow, exp, s[r], v, m[r], base, pos, valid);
      var row := PvAccRow(p[r], cache, first, headDim, isFirst, accRow);
      tile := tile + [row];
    }
  }

  /** `kernel_pv_matmul`: weights times values, accumulated over the blocks of the group. */
  method PvMatmul(pij: array3<real>, valueCache: seq<seq<real>>, blockIndices: seq<nat>, nBlocks: nat, headDim: nat,
      ghost lastValid: nat, ghost exp: real -> real, ghost s: seq<int -> real>, ghost v: seq<int -> real>,
      ghost m: seq<real>, ghost base: int) returns (oiNew: seq<seq<real>>)
    requires |s| == |m| == pij.Length1 && |v| == headDim && 0 < lastValid <= pij.Length2
    requires 0 < nBlocks <= pij.Length0 && nBlocks <= |blockIndices|
    requires forall i :: 0 <= i < nBlocks ==>
               BlockValues(valueCache, blockIndices[i] * pij.Length2, pij.Length2, v, BlockStart(base, i, pij.Length2),
                   ValidLen(i, nBlocks, pij.Length2, lastValid))
    requires GroupWeights(pij, exp, s, m, base, nBlocks, lastValid, nBlocks)
    ensures GroupSums(oiNew, exp, s, v, m, base, EndOf(base, nBlocks, nBlocks, pij.Length2, lastValid))
  {
    oiNew := [];
    for i := 0 to nBlocks
      invariant EndOf(base, i, nBlocks, pij.Length2, lastValid) >= base
      invariant i > 0 ==> GroupSums(oiNew, exp, s, v, m, base, EndOf(base, i, nBlocks, pij.Length2, lastValid))
    {
      var physBlock := blockIndices[i];
      var vjRow := physBlock * pij.Length2;
      ghost var pos, valid := BlockStart(base, i, pij.Length2), ValidLen(i, nBlocks, pij.Length2, lastValid);
      assert BlockValues(valueCache, vjRow, pij.Length2, v, pos, valid);
      oiNew := PvBlock(LoadTile(pij, i), valueCache, vjRow, pij.Length2, i == 0, oiNew, headDim, exp, s, v, m, base,
          pos, valid);
    }
  }
}
