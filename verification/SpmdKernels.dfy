/** The five SPMD kernels of examples/models/09_paged_attention_spmd.py, step by step, and
    what an iteration of each does to the rows of one request. */
module SpmdKernels {
  import opened OnlineSoftmax
  import opened PagedAttention
  import opened PagedAttentionMain
  import opened Paging
  import opened SpmdSchedule

  /** The arguments of the kernels for one tile of query heads. */
  datatype Setup = Setup(inp: Inputs, exp: real -> real, scale: real, qTile: nat, numHeads: nat, blockNum: nat,
      bs: nat, qOffset: nat)

  /** The rows of one request in every shared buffer; `out` holds all its heads. */
  datatype Cell = Cell(sij: seq<seq<real>>, pij: seq<seq<real>>, mij: seq<real>, lij: seq<real>, oiNew: seq<seq<real>>,
                       mi: seq<real>, li: seq<real>, oi: seq<seq<real>>, out: seq<seq<real>>)

  const MASK := -1000000000000000000000000000000.0

  function Zeros(rows: nat, columns: nat): (z: seq<seq<real>>)
    ensures |z| == rows && forall r :: 0 <= r < rows ==> |z[r]| == columns && forall c :: 0 <= c < columns ==>
      z[r][c] == 0.0
  {
    seq(rows, _ => seq(columns, _ => 0.0))
  }

  function Fill(rows: nat, x: real): (z: seq<real>)
    ensures |z| == rows && forall r :: 0 <= r < rows ==> z[r] == x
  {
    seq(rows, _ => x)
  }

  /** `max(min(cur - start, block_size), 0)`. */
  function Valid(x: Setup, b: nat, bn: nat): (n: nat)
    ensures n <= x.bs
  {
    if b >= |x.inp.contextLens| then 0
    else
      var remaining := x.inp.contextLens[b] - bn * x.bs;
      if remaining <= 0 then 0 else if remaining < x.bs then remaining else x.bs
  }

  /** The reads of the matmul kernels stay inside their tensors. */
  predicate Readable(x: Setup, b: nat, bn: nat) {
    && x.inp.RowsOk() && b * x.blockNum + bn < |x.inp.blockTable|
    && x.inp.blockTable[b * x.blockNum + bn] * x.bs + x.bs <= |x.inp.keyCache|
    && b * x.numHeads + x.qOffset + x.qTile <= |x.inp.query|
  }

  function FirstRow(x: Setup, b: nat, bn: nat): nat
    requires Readable(x, b, bn)
  {
    x.inp.blockTable[b * x.blockNum + bn] * x.bs
  }

  // ---------------------------------------------------------------- tiles

  function QkTile(x: Setup, b: nat, bn: nat): (t: seq<seq<real>>)
    requires Readable(x, b, bn)
    ensures |t| == x.qTile
    ensures forall r :: 0 <= r < x.qTile ==>
              t[r] == QkRow(x.inp.query[b * x.numHeads + x.qOffset + r], x.inp.keyCache, FirstRow(x, b, bn), x.bs)
  {
    seq(x.qTile, r requires 0 <= r < x.qTile && Readable(x, b, bn) =>
      QkRow(x.inp.query[b * x.numHeads + x.qOffset + r], x.inp.keyCache, FirstRow(x, b, bn), x.bs))
  }

  /** `fillpad` and scaling of a loaded row. */
  function PadRow(row: seq<real>, valid: nat, scale: real): (p: seq<Ext>)
    ensures |p| == |row| && forall c :: 0 <= c < |row| ==> p[c] == PadAt(row[c], c < valid, scale)
  {
    seq(|row|, c requires 0 <= c < |row| => PadAt(row[c], c < valid, scale))
  }

  function Maximum(row: seq<Ext>): real {
    match RowMax(row, |row|)
    case Fin(m) => m
    case NegInf => MASK
  }

  function RowMaxima(sij: seq<seq<real>>, valid: nat, scale: real): (m: seq<real>)
    ensures |m| == |sij| && forall r :: 0 <= r < |m| ==> m[r] == Maximum(PadRow(sij[r], valid, scale))
  {
    seq(|sij|, r requires 0 <= r < |sij| => Maximum(PadRow(sij[r], valid, scale)))
  }

  function WeightTile(exp: real -> real, sij: seq<seq<real>>, valid: nat, scale: real): (p: seq<seq<real>>)
    ensures |p| == |sij|
    ensures forall r :: 0 <= r < |p| ==>
      p[r] == ExpRow(exp, PadRow(sij[r], valid, scale), Maximum(PadRow(sij[r], valid, scale)))
  {
    seq(|sij|, r requires 0 <= r < |sij| =>
      ExpRow(exp, PadRow(sij[r], valid, scale), Maximum(PadRow(sij[r], valid, scale))))
  }

  function RowTotals(p: seq<seq<real>>): (l: seq<real>)
    ensures |l| == |p| && forall r :: 0 <= r < |l| ==> l[r] == RowSum(p[r], |p[r]|)
  {
    seq(|p|, r requires 0 <= r < |p| => RowSum(p[r], |p[r]|))
  }

  function PvTile(x: Setup, b: nat, bn: nat, p: seq<seq<real>>): (t: seq<seq<real>>)
    requires Readable(x, b, bn) && forall r :: 0 <= r < |p| ==> |p[r]| == x.bs
    ensures |t| == |p| && forall r :: 0 <= r < |p| ==>
      t[r] == PvRow(p[r], x.inp.valueCache, FirstRow(x, b, bn), x.inp.headDim)
  {
    seq(|p|, r requires 0 <= r < |p| && Readable(x, b, bn) && (forall r' :: 0 <= r' < |p| ==> |p[r']| == x.bs) =>
      PvRow(p[r], x.inp.valueCache, FirstRow(x, b, bn), x.inp.headDim))
  }

  /** `pl.store` of a tile of rows. */
  function StoreAt<T>(rows: seq<T>, offset: nat, tile: seq<T>): (t: seq<T>)
    requires offset + |tile| <= |rows|
    ensures |t| == |rows|
    ensures forall i :: 0 <= i < |rows| ==> t[i] == if offset <= i < offset + |tile| then tile[i - offset] else rows[i]
  {
    rows[..offset] + tile + rows[offset + |tile|..]
  }

  predicate SameShape(a: seq<seq<real>>, b: seq<seq<real>>) {
    |a| == |b| && forall r :: 0 <= r < |a| ==> |a[r]| == |b[r]|
  }

  /** The operands of an update have matching sizes. */
  predicate Mergeable(m: seq<real>, l: seq<real>, o: seq<seq<real>>, mij: seq<real>, lij: seq<real>,
      oNew: seq<seq<real>>) {
    |m| == |l| == |o| == |mij| == |lij| && SameShape(o, oNew)
  }

  predicate Divisible(o: seq<seq<real>>, l: seq<real>) {
    |o| == |l| && forall r :: 0 <= r < |l| ==> l[r] != 0.0
  }

  // ---------------------------------------------------------------- one iteration of each kernel

  /** `SpmdQkMatmul`: the scores of the block, when it holds tokens of the request. */
  function Qk(x: Setup, bn: nat, b: nat, c: Cell): Cell {
    if Valid(x, b, bn) > 0 && Readable(x, b, bn) then c.(sij := QkTile(x, b, bn)) else c
  }

  /** `SpmdSoftmaxPrepare`: weights, row maxima and row sums; the mask when no tokens. */
  function Prepare(x: Setup, bn: nat, b: nat, c: Cell): Cell {
    var valid := Valid(x, b, bn);
    if valid == 0 then
      c.(pij := Zeros(x.qTile, x.bs), mij := Fill(x.qTile, MASK), lij := RowTotals(Zeros(x.qTile, x.bs)))
    else
      c.(pij := WeightTile(x.exp, c.sij, valid, x.scale), mij := RowMaxima(c.sij, valid, x.scale),
         lij := RowTotals(WeightTile(x.exp, c.sij, valid, x.scale)))
  }

  function PvReadable(x: Setup, bn: nat, b: nat, p: seq<seq<real>>): bool {
    Valid(x, b, bn) > 0 && Readable(x, b, bn) && forall r :: 0 <= r < |p| ==> |p[r]| == x.bs
  }

  /** `SpmdPvMatmul`. */
  function Pv(x: Setup, bn: nat, b: nat, c: Cell): Cell {
    if PvReadable(x, bn, b, c.pij) then c.(oiNew := PvTile(x, b, bn, c.pij)) else c
  }

  /** `SpmdOnlineUpdate`. */
  function Update(x: Setup, bn: nat, c: Cell): Cell {
    if bn == 0 then c.(mi := c.mij, li := c.lij, oi := c.oiNew)
    else if Mergeable(c.mi, c.li, c.oi, c.mij, c.lij, c.oiNew) then
      c.(mi := MaxVector(c.mi, c.mij), li := RescaleVector(x.exp, c.mi, c.li, c.mij, c.lij),
         oi := RescaleTile(x.exp, c.mi, c.oi, c.mij, c.oiNew))
    else c
  }

  /** `SpmdNormalize`. */
  function Normalize(x: Setup, c: Cell): Cell {
    if Divisible(c.oi, c.li) && x.qOffset + |c.oi| <= |c.out|
    then c.(out := StoreAt(c.out, x.qOffset, DivideRows(c.oi, c.li))) else c
  }

  // ---------------------------------------------------------------- loads and stores

  const BLANK := Cell([], [], [], [], [], [], [], [], [])

  function QkKernel(x: Setup, bn: nat): Kernel<Cell, Cell> {
    Kernel(1, BLANK, (b, k, r, c) => (r, Qk(x, bn, b, c)))
  }

  function PrepareAct(x: Setup, bn: nat, b: nat, k: nat, r: Cell, c: Cell): (Cell, Cell) {
    var valid := Valid(x, b, bn);
    if k == 0 then (if valid == 0 then r else r.(sij := c.sij), c)
    else if k == 1 then (r, c.(pij := if valid == 0 then Zeros(x.qTile, x.bs)
        else WeightTile(x.exp, r.sij, valid, x.scale)))
    else if k == 2 then (r, c.(mij := if valid == 0 then Fill(x.qTile, MASK) else RowMaxima(r.sij, valid, x.scale)))
    else (r, c.(lij := RowTotals(if valid == 0 then Zeros(x.qTile, x.bs)
        else WeightTile(x.exp, r.sij, valid, x.scale))))
  }

  function PrepareKernel(x: Setup, bn: nat): Kernel<Cell, Cell> {
    Kernel(4, BLANK, (b, k, r, c) => PrepareAct(x, bn, b, k, r, c))
  }

  function PvAct(x: Setup, bn: nat, b: nat, k: nat, r: Cell, c: Cell): (Cell, Cell) {
    if k == 0 then (r.(pij := c.pij), c)
    else (r, if PvReadable(x, bn, b, r.pij) then c.(oiNew := PvTile(x, b, bn, r.pij)) else c)
  }

  function PvKernel(x: Setup, bn: nat): Kernel<Cell, Cell> {
    Kernel(2, BLANK, (b, k, r, c) => PvAct(x, bn, b, k, r, c))
  }

  /** Six loads, then the three stores in place; the first block only copies. */
  function UpdateAct(x: Setup, bn: nat, k: nat, r: Cell, c: Cell): (Cell, Cell) {
    if k == 0 then (r.(mij := c.mij), c)
    else if k == 1 then (r.(lij := c.lij), c)
    else if k == 2 then (r.(oiNew := c.oiNew), c)
    else if bn == 0 then
      (r, if k == 3 then c.(mi := r.mij) else if k == 4 then c.(li := r.lij) else c.(oi := r.oiNew))
    else if k == 3 then (r.(mi := c.mi), c)
    else if k == 4 then (r.(li := c.li), c)
    else if k == 5 then (r.(oi := c.oi), c)
    else if !Mergeable(r.mi, r.li, r.oi, r.mij, r.lij, r.oiNew) then (r, c)
    else if k == 6 then (r, c.(mi := MaxVector(r.mi, r.mij)))
    else if k == 7 then (r, c.(li := RescaleVector(x.exp, r.mi, r.li, r.mij, r.lij)))
    else (r, c.(oi := RescaleTile(x.exp, r.mi, r.oi, r.mij, r.oiNew)))
  }

  function UpdateKernel(x: Setup, bn: nat): Kernel<Cell, Cell> {
    Kernel(if bn == 0 then 6 else 9, BLANK, (b, k, r, c) => UpdateAct(x, bn, k, r, c))
  }

  function NormalizeAct(x: Setup, k: nat, r: Cell, c: Cell): (Cell, Cell) {
    if k == 0 then (r.(oi := c.oi), c)
    else if k == 1 then (r.(li := c.li), c)
    else (r, if Divisible(r.oi, r.li) && x.qOffset + |r.oi| <= |c.out|
             then c.(out := StoreAt(c.out, x.qOffset, DivideRows(r.oi, r.li))) else c)
  }

  function NormalizeKernel(x: Setup): Kernel<Cell, Cell> {
    Kernel(3, BLANK, (b, k, r, c) => NormalizeAct(x, k, r, c))
  }

  // The single loads and stores of an iteration add up to the kernel's effect on its rows.

  lemma QkIterates(x: Setup, bn: nat, b: nat, c: Cell)
    ensures Iterate(QkKernel(x, bn), b, c) == Qk(x, bn, b, c)
  {
    assert Partial(QkKernel(x, bn), b, 0, c) == (BLANK, c);
  }

  lemma PrepareIterates(x: Setup, bn: nat, b: nat, c: Cell)
    ensures Iterate(PrepareKernel(x, bn), b, c) == Prepare(x, bn, b, c)
  {
    var k := PrepareKernel(x, bn);
    assert Partial(k, b, 1, c) == PrepareAct(x, bn, b, 0, BLANK, c);
    var p1 := Partial(k, b, 1, c);
    assert Partial(k, b, 2, c) == PrepareAct(x, bn, b, 1, p1.0, p1.1);
    var p2 := Partial(k, b, 2, c);
    assert Partial(k, b, 3, c) == PrepareAct(x, bn, b, 2, p2.0, p2.1);
    var p3 := Partial(k, b, 3, c);
    assert Partial(k, b, 4, c) == PrepareAct(x, bn, b, 3, p3.0, p3.1);
  }

  lemma PvIterates(x: Setup, bn: nat, b: nat, c: Cell)
    ensures Iterate(PvKernel(x, bn), b, c) == Pv(x, bn, b, c)
  {
    assert Partial(PvKernel(x, bn), b, 1, c) == PvAct(x, bn, b, 0, BLANK, c);
  }

  /** After the loads the registers hold what the rows hold. */
  lemma UpdateLoads(x: Setup, bn: nat, b: nat, c: Cell)
    ensures Partial(UpdateKernel(x, bn), b, 3, c) == (BLANK.(mij := c.mij, lij := c.lij, oiNew := c.oiNew), c)
    ensures bn > 0 ==>
      Partial(UpdateKernel(x, bn), b, 6, c) == (BLANK.(mij := c.mij, lij := c.lij, oiNew := c.oiNew, mi := c.mi,
          li := c.li, oi := c.oi), c)
  {
    var k := UpdateKernel(x, bn);
    assert Partial(k, b, 1, c) == UpdateAct(x, bn, 0, BLANK, c);
    assert Partial(k, b, 2, c) == (BLANK.(mij := c.mij, lij := c.lij), c);
    if bn > 0 {
      assert Partial(k, b, 4, c) == (BLANK.(mij := c.mij, lij := c.lij, oiNew := c.oiNew, mi := c.mi), c);
      assert Partial(k, b, 5, c) == (BLANK.(mij := c.mij, lij := c.lij, oiNew := c.oiNew, mi := c.mi, li := c.li), c);
    }
  }

  lemma UpdateIterates(x: Setup, bn: nat, b: nat, c: Cell)
    ensures Iterate(UpdateKernel(x, bn), b, c) == Update(x, bn, c)
  {
    var k := UpdateKernel(x, bn);
    UpdateLoads(x, bn, b, c);
    var n := if bn == 0 then 3 else 6;
    var p := Partial(k, b, n, c);
    assert Partial(k, b, n + 1, c) == UpdateAct(x, bn, n, p.0, p.1);
    var p1 := Partial(k, b, n + 1, c);
    assert Partial(k, b, n + 2, c) == UpdateAct(x, bn, n + 1, p1.0, p1.1);
    var p2 := Partial(k, b, n + 2, c);
    assert Partial(k, b, n + 3, c) == UpdateAct(x, bn, n + 2, p2.0, p2.1);
  }

  lemma NormalizeIterates(x: Setup, b: nat, c: Cell)
    ensures Iterate(NormalizeKernel(x), b, c) == Normalize(x, c)
  {
    var k := NormalizeKernel(x);
    assert Partial(k, b, 1, c) == NormalizeAct(x, 0, BLANK, c);
    assert Partial(k, b, 2, c) == (BLANK.(oi := c.oi, li := c.li), c);
  }
}
