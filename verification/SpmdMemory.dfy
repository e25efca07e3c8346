/** The shared buffers of the SPMD kernels as they lie in memory: the rows of all requests one
    after another, `q_tile` rows a request, or `num_heads` in the output tensor. Every load
    and store of a kernel names its rows by `b * q_tile` or `b * num_heads + q_offset`, and
    those rows are shown not to overlap for different requests. */
module SpmdMemory {
  import opened Arithmetic
  import opened PagedAttention
  import opened PagedAttentionMain
  import opened Paging
  import opened SpmdSchedule
  import opened SpmdKernels

  datatype Buffers = Buffers(sij: seq<seq<real>>, pij: seq<seq<real>>, mij: seq<real>, lij: seq<real>,
      oiNew: seq<seq<real>>, mi: seq<real>, li: seq<real>, oi: seq<seq<real>>, out: seq<seq<real>>)

  // ---------------------------------------------------------------- rows of one request

  /** The rows of different requests do not overlap, and lie inside the buffer. */
  lemma RowsApart(w: nat, n: nat, b: nat, b': nat)
    requires b < n && b' < n
    ensures 0 <= b * w && b * w + w <= n * w
    ensures b < b' ==> b * w + w <= b' * w
    ensures b' < b ==> b' * w + w <= b * w
  {
    MulStep(b, w);
    MulStep(b', w);
    MulLe(0, b, w);
    MulLe(b + 1, n, w);
    if b < b' { MulLe(b + 1, b', w); }
    if b' < b { MulLe(b' + 1, b, w); }
  }

  /** `pl.load` of the `w` rows of request `b`. */
  function Rows<T>(buffer: seq<T>, w: nat, n: nat, b: nat): (rows: seq<T>)
    requires |buffer| == n * w && b < n
    ensures |rows| == w
  {
    RowsApart(w, n, b, b);
    buffer[b * w..b * w + w]
  }

  /** A store at `offset` into the rows of request `b` changes them and those of no other. */
  lemma StoreKeepsOthers<T>(buffer: seq<T>, w: nat, n: nat, b: nat, offset: nat, tile: seq<T>)
    requires |buffer| == n * w && b < n && offset + |tile| <= w
    ensures 0 <= b * w && b * w + offset + |tile| <= n * w
    ensures Rows(StoreAt(buffer, b * w + offset, tile), w, n, b) == StoreAt(Rows(buffer, w, n, b), offset, tile)
    ensures forall b' :: 0 <= b' < n && b' != b ==>
      Rows(StoreAt(buffer, b * w + offset, tile), w, n, b') == Rows(buffer, w, n, b')
  {
    RowsApart(w, n, b, b);
    var stored := StoreAt(buffer, b * w + offset, tile);
    forall b' | 0 <= b' < n && b' != b
      ensures Rows(stored, w, n, b') == Rows(buffer, w, n, b')
    {
      RowsApart(w, n, b, b');
      RowsApart(w, n, b', b');
    }
  }

  /** A store that reaches past the rows of request `b` lands in those of the next request,
      whatever they held. */
  lemma StoreSpills<T>(buffer: seq<T>, w: nat, n: nat, b: nat, offset: nat, tile: seq<T>, i: nat)
    requires |buffer| == n * w && b + 1 < n && 0 <= b * w && b * w + offset + |tile| <= n * w
    requires i < |tile| && w <= offset + i < 2 * w
    ensures Rows(StoreAt(buffer, b * w + offset, tile), w, n, b + 1)[offset + i - w] == tile[i]
  {
    RowsApart(w, n, b + 1, b);
    MulStep(b, w);
  }

  /** A store of all rows of request `b`. */
  function StoreRows<T>(buffer: seq<T>, w: nat, n: nat, b: nat, tile: seq<T>): (stored: seq<T>)
    requires |buffer| == n * w && b < n && |tile| == w
    ensures |stored| == n * w && Rows(stored, w, n, b) == tile
    ensures forall b' :: 0 <= b' < n && b' != b ==> Rows(stored, w, n, b') == Rows(buffer, w, n, b')
  {
    StoreKeepsOthers(buffer, w, n, b, 0, tile);
    StoreAt(buffer, b * w, tile)
  }

  /** The buffers hold rows for `n` requests. */
  predicate Whole(q: nat, heads: nat, n: nat, m: Buffers) {
    && |m.sij| == |m.pij| == |m.mij| == |m.lij| == |m.oiNew| == |m.mi| == |m.li| == |m.oi| == n * q
    && |m.out| == n * heads
  }

  /** What the buffers hold for request `b`. */
  function CellAt(q: nat, heads: nat, n: nat, m: Buffers, b: nat): (c: Cell)
    requires Whole(q, heads, n, m) && b < n
    ensures |c.sij| == |c.pij| == |c.mij| == |c.lij| == |c.oiNew| == |c.mi| == |c.li| == |c.oi| == q && |c.out| == heads
  {
    Cell(Rows(m.sij, q, n, b), Rows(m.pij, q, n, b), Rows(m.mij, q, n, b), Rows(m.lij, q, n, b), Rows(m.oiNew, q, n, b),
         Rows(m.mi, q, n, b), Rows(m.li, q, n, b), Rows(m.oi, q, n, b), Rows(m.out, heads, n, b))
  }

  /** All requests, in order. */
  function Cells(q: nat, heads: nat, n: nat, m: Buffers): (cells: seq<Cell>)
    requires Whole(q, heads, n, m)
    ensures |cells| == n && forall b :: 0 <= b < n ==> cells[b] == CellAt(q, heads, n, m, b)
  {
    seq(n, b requires 0 <= b < n && Whole(q, heads, n, m) => CellAt(q, heads, n, m, b))
  }

  // ---------------------------------------------------------------- the kernels on the buffers

  datatype Stage = QkStage | PrepareStage | PvStage | UpdateStage | NormalizeStage

  function KernelOf(stage: Stage, x: Setup, bn: nat): (kernel: Kernel<Cell, Cell>)
    ensures kernel.steps > 0
  {
    match stage
    case QkStage => QkKernel(x, bn)
    case PrepareStage => PrepareKernel(x, bn)
    case PvStage => PvKernel(x, bn)
    case UpdateStage => UpdateKernel(x, bn)
    case NormalizeStage => NormalizeKernel(x)
  }

  /** The tiles that an instance has loaded by step `k` have `q_tile` rows. */
  predicate Loaded(stage: Stage, x: Setup, bn: nat, b: nat, k: nat, r: Cell) {
    match stage
    case QkStage => true
    case PrepareStage => k > 0 && Valid(x, b, bn) > 0 ==> |r.sij| == x.qTile
    case PvStage => k > 0 ==> |r.pij| == x.qTile
    case UpdateStage =>
      && (k > 0 ==> |r.mij| == x.qTile) && (k > 1 ==> |r.lij| == x.qTile) && (k > 2 ==> |r.oiNew| == x.qTile)
      && (bn > 0 ==> (k > 3 ==> |r.mi| == x.qTile) && (k > 4 ==> |r.li| == x.qTile) && (k > 5 ==> |r.oi| == x.qTile))
    case NormalizeStage => (k > 0 ==> |r.oi| == x.qTile) && (k > 1 ==> |r.li| == x.qTile)
  }

  function QkAccess(x: Setup, n: nat, bn: nat, b: nat, r: Cell, m: Buffers): (Cell, Buffers)
    requires Whole(x.qTile, x.numHeads, n, m) && b < n
  {
    (r, if Valid(x, b, bn) > 0 && Readable(x, b, bn) then m.(sij := StoreRows(m.sij, x.qTile, n, b, QkTile(x, b, bn)))
        else m)
  }

  function PrepareAccess(x: Setup, n: nat, bn: nat, b: nat, k: nat, r: Cell, m: Buffers): (Cell, Buffers)
    requires Whole(x.qTile, x.numHeads, n, m) && b < n && Loaded(PrepareStage, x, bn, b, k, r)
  {
    var q, valid := x.qTile, Valid(x, b, bn);
    if k == 0 then (if valid == 0 then r else r.(sij := Rows(m.sij, q, n, b)), m)
    else
      var weights := if valid == 0 then Zeros(q, x.bs) else WeightTile(x.exp, r.sij, valid, x.scale);
      if k == 1 then (r, m.(pij := StoreRows(m.pij, q, n, b, weights)))
      else if k == 2 then
        (r, m.(mij := StoreRows(m.mij, q, n, b, if valid == 0 then Fill(q, MASK)
            else RowMaxima(r.sij, valid, x.scale))))
      else (r, m.(lij := StoreRows(m.lij, q, n, b, RowTotals(weights))))
  }

  function PvAccess(x: Setup, n: nat, bn: nat, b: nat, k: nat, r: Cell, m: Buffers): (Cell, Buffers)
    requires Whole(x.qTile, x.numHeads, n, m) && b < n && Loaded(PvStage, x, bn, b, k, r)
  {
    if k == 0 then (r.(pij := Rows(m.pij, x.qTile, n, b)), m)
    else (r, if PvReadable(x, bn, b, r.pij) then m.(oiNew := StoreRows(m.oiNew, x.qTile, n, b, PvTile(x, b, bn, r.pij)))
        else m)
  }

  function UpdateAccess(x: Setup, n: nat, bn: nat, b: nat, k: nat, r: Cell, m: Buffers): (Cell, Buffers)
    requires Whole(x.qTile, x.numHeads, n, m) && b < n && Loaded(UpdateStage, x, bn, b, k, r)
  {
    var q := x.qTile;
    if k == 0 then (r.(mij := Rows(m.mij, q, n, b)), m)
    else if k == 1 then (r.(lij := Rows(m.lij, q, n, b)), m)
    else if k == 2 then (r.(oiNew := Rows(m.oiNew, q, n, b)), m)
    else if bn == 0 then
      (r, if k == 3 then m.(mi := StoreRows(m.mi, q, n, b, r.mij))
          else if k == 4 then m.(li := StoreRows(m.li, q, n, b, r.lij))
          else m.(oi := StoreRows(m.oi, q, n, b, r.oiNew)))
    else if k == 3 then (r.(mi := Rows(m.mi, q, n, b)), m)
    else if k == 4 then (r.(li := Rows(m.li, q, n, b)), m)
    else if k == 5 then (r.(oi := Rows(m.oi, q, n, b)), m)
    else if !Mergeable(r.mi, r.li, r.oi, r.mij, r.lij, r.oiNew) then (r, m)
    else if k == 6 then (r, m.(mi := StoreRows(m.mi, q, n, b, MaxVector(r.mi, r.mij))))
    else if k == 7 then (r, m.(li := StoreRows(m.li, q, n, b, RescaleVector(x.exp, r.mi, r.li, r.mij, r.lij))))
    else (r, m.(oi := StoreRows(m.oi, q, n, b, RescaleTile(x.exp, r.mi, r.oi, r.mij, r.oiNew))))
  }

  function NormalizeAccess(x: Setup, n: nat, b: nat, k: nat, r: Cell, m: Buffers): (Cell, Buffers)
    requires Whole(x.qTile, x.numHeads, n, m) && b < n && Loaded(NormalizeStage, x, 0, b, k, r)
    requires x.qOffset + x.qTile <= x.numHeads
  {
    if k == 0 then (r.(oi := Rows(m.oi, x.qTile, n, b)), m)
    else if k == 1 then (r.(li := Rows(m.li, x.qTile, n, b)), m)
    else if !Divisible(r.oi, r.li) then (r, m)
    else
      StoreKeepsOthers(m.out, x.numHeads, n, b, x.qOffset, DivideRows(r.oi, r.li));
      (r, m.(out := StoreAt(m.out, b * x.numHeads + x.qOffset, DivideRows(r.oi, r.li))))
  }

  /** Step `k` of an instance at request `b`: one load or one store. */
  function Access(stage: Stage, x: Setup, n: nat, bn: nat, b: nat, k: nat, r: Cell, m: Buffers): (Cell, Buffers)
    requires Whole(x.qTile, x.numHeads, n, m) && b < n && Loaded(stage, x, bn, b, k, r)
    requires x.qOffset + x.qTile <= x.numHeads
  {
    match stage
    case QkStage => QkAccess(x, n, bn, b, r, m)
    case PrepareStage => PrepareAccess(x, n, bn, b, k, r, m)
    case PvStage => PvAccess(x, n, bn, b, k, r, m)
    case UpdateStage => UpdateAccess(x, n, bn, b, k, r, m)
    case NormalizeStage => NormalizeAccess(x, n, b, k, r, m)
  }

  /** `m'` is `m` but for the rows of request `b`, which now hold `c`. */
  ghost predicate Becomes(x: Setup, n: nat, b: nat, m: Buffers, m': Buffers, c: Cell)
    requires Whole(x.qTile, x.numHeads, n, m) && b < n
  {
    && Whole(x.qTile, x.numHeads, n, m') && CellAt(x.qTile, x.numHeads, n, m', b) == c
    && forall b' :: 0 <= b' < n && b' != b ==>
        CellAt(x.qTile, x.numHeads, n, m', b') == CellAt(x.qTile, x.numHeads, n, m, b')
  }

  lemma QkIsOwn(x: Setup, n: nat, bn: nat, b: nat, k: nat, r: Cell, m: Buffers)
    requires Whole(x.qTile, x.numHeads, n, m) && b < n && k < QkKernel(x, bn).steps
    ensures var (r', m') := QkAccess(x, n, bn, b, r, m);
            var (r'', c) := QkKernel(x, bn).act(b, k, r, CellAt(x.qTile, x.numHeads, n, m, b));
            r' == r'' && Becomes(x, n, b, m, m', c) && Loaded(QkStage, x, bn, b, k + 1, r')
  {
  }

  lemma PrepareIsOwn(x: Setup, n: nat, bn: nat, b: nat, k: nat, r: Cell, m: Buffers)
    requires Whole(x.qTile, x.numHeads, n, m) && b < n && k < PrepareKernel(x, bn).steps
      && Loaded(PrepareStage, x, bn, b, k, r)
    ensures var (r', m') := PrepareAccess(x, n, bn, b, k, r, m);
            var (r'', c) := PrepareKernel(x, bn).act(b, k, r, CellAt(x.qTile, x.numHeads, n, m, b));
            r' == r'' && Becomes(x, n, b, m, m', c) && Loaded(PrepareStage, x, bn, b, k + 1, r')
  {
  }

  lemma PvIsOwn(x: Setup, n: nat, bn: nat, b: nat, k: nat, r: Cell, m: Buffers)
    requires Whole(x.qTile, x.numHeads, n, m) && b < n && k < PvKernel(x, bn).steps && Loaded(PvStage, x, bn, b, k, r)
    ensures var (r', m') := PvAccess(x, n, bn, b, k, r, m);
            var (r'', c) := PvKernel(x, bn).act(b, k, r, CellAt(x.qTile, x.numHeads, n, m, b));
            r' == r'' && Becomes(x, n, b, m, m', c) && Loaded(PvStage, x, bn, b, k + 1, r')
  {
  }

  lemma UpdateIsOwn(x: Setup, n: nat, bn: nat, b: nat, k: nat, r: Cell, m: Buffers)
    requires Whole(x.qTile, x.numHeads, n, m) && b < n && k < UpdateKernel(x, bn).steps
      && Loaded(UpdateStage, x, bn, b, k, r)
    ensures var (r', m') := UpdateAccess(x, n, bn, b, k, r, m);
            var (r'', c) := UpdateKernel(x, bn).act(b, k, r, CellAt(x.qTile, x.numHeads, n, m, b));
            r' == r'' && Becomes(x, n, b, m, m', c) && Loaded(UpdateStage, x, bn, b, k + 1, r')
  {
  }

  lemma NormalizeIsOwn(x: Setup, n: nat, bn: nat, b: nat, k: nat, r: Cell, m: Buffers)
    requires Whole(x.qTile, x.numHeads, n, m) && b < n && k < NormalizeKernel(x).steps
      && Loaded(NormalizeStage, x, bn, b, k, r)
    requires x.qOffset + x.qTile <= x.numHeads
    ensures var (r', m') := NormalizeAccess(x, n, b, k, r, m);
            var (r'', c) := NormalizeKernel(x).act(b, k, r, CellAt(x.qTile, x.numHeads, n, m, b));
            r' == r'' && Becomes(x, n, b, m, m', c) && Loaded(NormalizeStage, x, bn, b, k + 1, r')
  {
    if k == 2 && Divisible(r.oi, r.li) {
      StoreKeepsOthers(m.out, x.numHeads, n, b, x.qOffset, DivideRows(r.oi, r.li));
    }
  }

  /** A load or store of an instance at request `b` does to the rows of `b` what the kernel's
      step does, and leaves the rows of every other request alone. */
  lemma AccessIsOwn(stage: Stage, x: Setup, n: nat, bn: nat, b: nat, k: nat, r: Cell, m: Buffers)
    requires Whole(x.qTile, x.numHeads, n, m) && b < n && Loaded(stage, x, bn, b, k, r)
    requires x.qOffset + x.qTile <= x.numHeads && k < KernelOf(stage, x, bn).steps
    ensures var (r', m') := Access(stage, x, n, bn, b, k, r, m);
            var (r'', c) := KernelOf(stage, x, bn).act(b, k, r, CellAt(x.qTile, x.numHeads, n, m, b));
            r' == r'' && Becomes(x, n, b, m, m', c) && Loaded(stage, x, bn, b, k + 1, r')
  {
    match stage
    case QkStage => QkIsOwn(x, n, bn, b, k, r, m);
    case PrepareStage => PrepareIsOwn(x, n, bn, b, k, r, m);
    case PvStage => PvIsOwn(x, n, bn, b, k, r, m);
    case UpdateStage => UpdateIsOwn(x, n, bn, b, k, r, m);
    case NormalizeStage => NormalizeIsOwn(x, n, bn, b, k, r, m);
  }

  // ---------------------------------------------------------------- interleavings

  /** The instances over the shared memory. */
  datatype MemState = MemState(at: seq<nat>, k: seq<nat>, regs: seq<Cell>, mem: Buffers)

  ghost predicate MemOk(stage: Stage, x: Setup, n: nat, bn: nat, cores: nat, s: MemState) {
    && cores > 0 && |s.at| == |s.k| == |s.regs| == cores
    && Whole(x.qTile, x.numHeads, n, s.mem) && x.qOffset + x.qTile <= x.numHeads
    && (forall i :: 0 <= i < cores ==> InstanceReady(stage, x, bn, s, i))
  }

  ghost predicate InstanceReady(stage: Stage, x: Setup, bn: nat, s: MemState, i: nat)
    requires i < |s.at| == |s.k| == |s.regs|
  {
    s.k[i] < KernelOf(stage, x, bn).steps && Loaded(stage, x, bn, s.at[i], s.k[i], s.regs[i])
  }

  /** One load or store of instance `i`. */
  ghost function MemStep(stage: Stage, x: Setup, n: nat, bn: nat, cores: nat, s: MemState, i: nat): MemState
    requires MemOk(stage, x, n, bn, cores, s) && i < cores && s.at[i] < n
  {
    assert InstanceReady(stage, x, bn, s, i);
    var kernel := KernelOf(stage, x, bn);
    var (r, m) := Access(stage, x, n, bn, s.at[i], s.k[i], s.regs[i], s.mem);
    if s.k[i] + 1 < kernel.steps then MemState(s.at, s.k[i := s.k[i] + 1], s.regs[i := r], m)
    else MemState(s.at[i := s.at[i] + cores], s.k[i := 0], s.regs[i := kernel.start], m)
  }

  /** The same state, its memory seen request by request. */
  ghost function ByRequest(x: Setup, n: nat, s: MemState): State<Cell, Cell>
    requires Whole(x.qTile, x.numHeads, n, s.mem)
  {
    State(s.at, s.k, s.regs, Cells(x.qTile, x.numHeads, n, s.mem))
  }

  ghost predicate SeenAs(stage: Stage, x: Setup, n: nat, bn: nat, cores: nat, s: MemState, t: State<Cell, Cell>) {
    MemOk(stage, x, n, bn, cores, s) && t == ByRequest(x, n, s)
  }

  lemma MemStepRefines(stage: Stage, x: Setup, n: nat, bn: nat, cores: nat, s: MemState, i: nat)
    requires MemOk(stage, x, n, bn, cores, s) && i < cores && s.at[i] < n
    ensures MemOk(stage, x, n, bn, cores, MemStep(stage, x, n, bn, cores, s, i))
    ensures ByRequest(x, n, MemStep(stage, x, n, bn, cores, s, i))
      == Step(KernelOf(stage, x, bn), cores, ByRequest(x, n, s), i)
  {
    assert InstanceReady(stage, x, bn, s, i);
    AccessIsOwn(stage, x, n, bn, s.at[i], s.k[i], s.regs[i], s.mem);
    var t := MemStep(stage, x, n, bn, cores, s, i);
    forall j | 0 <= j < cores
      ensures InstanceReady(stage, x, bn, t, j)
    {
      assert InstanceReady(stage, x, bn, s, j);
    }
    assert Cells(x.qTile, x.numHeads, n, t.mem) == Step(KernelOf(stage, x, bn), cores, ByRequest(x, n, s), i).cells;
  }

  ghost predicate MemMoves(stage: Stage, x: Setup, n: nat, bn: nat, cores: nat, s: MemState, t: MemState) {
    && MemOk(stage, x, n, bn, cores, s)
    && exists i :: 0 <= i < cores && s.at[i] < n && t == MemStep(stage, x, n, bn, cores, s, i)
  }

  ghost predicate MemRun(stage: Stage, x: Setup, n: nat, bn: nat, cores: nat, m: Buffers, run: seq<MemState>) {
    && Whole(x.qTile, x.numHeads, n, m) && run != [] && MemOk(stage, x, n, bn, cores, run[0]) && run[0].mem == m
    && Init(KernelOf(stage, x, bn), cores, Cells(x.qTile, x.numHeads, n, m), ByRequest(x, n, run[0]))
    && forall j :: 0 <= j < |run| - 1 ==> MemMoves(stage, x, n, bn, cores, run[j], run[j + 1])
  }

  lemma MemMoveRefines(stage: Stage, x: Setup, n: nat, bn: nat, cores: nat, s: MemState, t: MemState, u: State<Cell,
      Cell>)
    requires SeenAs(stage, x, n, bn, cores, s, u) && MemMoves(stage, x, n, bn, cores, s, t)
    ensures MemOk(stage, x, n, bn, cores, t) && Moves(KernelOf(stage, x, bn), cores, u, ByRequest(x, n, t))
  {
    var i :| 0 <= i < cores && s.at[i] < n && t == MemStep(stage, x, n, bn, cores, s, i);
    MemStepRefines(stage, x, n, bn, cores, s, i);
    assert Enabled(cores, u, i);
  }

  /** A run on the memory is a run request by request. */
  lemma {:induction false} MemRunRefines(stage: Stage, x: Setup, n: nat, bn: nat, cores: nat, m: Buffers,
      run: seq<MemState>) returns (seen: seq<State<Cell, Cell>>)
    requires MemRun(stage, x, n, bn, cores, m, run)
    ensures |seen| == |run| && Run(KernelOf(stage, x, bn), cores, Cells(x.qTile, x.numHeads, n, m), seen)
    ensures forall j :: 0 <= j < |run| ==> SeenAs(stage, x, n, bn, cores, run[j], seen[j])
    decreases |run|
  {
    var last := |run| - 1;
    if last == 0 {
      seen := [ByRequest(x, n, run[0])];
    } else {
      var before := run[..last];
      forall j | 0 <= j < |before| - 1
        ensures MemMoves(stage, x, n, bn, cores, before[j], before[j + 1])
      {
        assert MemMoves(stage, x, n, bn, cores, run[j], run[j + 1]);
      }
      var was := MemRunRefines(stage, x, n, bn, cores, m, before);
      assert MemMoves(stage, x, n, bn, cores, run[last - 1], run[last - 1 + 1]);
      assert SeenAs(stage, x, n, bn, cores, before[last - 1], was[last - 1]);
      MemMoveRefines(stage, x, n, bn, cores, run[last - 1], run[last], was[last - 1]);
      RunSnoc(KernelOf(stage, x, bn), cores, Cells(x.qTile, x.numHeads, n, m), was, ByRequest(x, n, run[last]));
      seen := was + [ByRequest(x, n, run[last])];
      forall j | 0 <= j < |run|
        ensures SeenAs(stage, x, n, bn, cores, run[j], seen[j])
      {
        if j < last {
          assert SeenAs(stage, x, n, bn, cores, before[j], was[j]);
        }
      }
    }
  }

  ghost predicate MemFinished(n: nat, s: MemState) {
    forall i :: 0 <= i < |s.at| ==> s.at[i] >= n
  }

  /** Any finished interleaving of the loads and stores of any number of instances leaves in
      memory, request by request, what the sequential loop over the batch leaves. */
  lemma AnyOrderInMemory(stage: Stage, x: Setup, n: nat, bn: nat, cores: nat, m: Buffers, run: seq<MemState>, b: nat)
    requires MemRun(stage, x, n, bn, cores, m, run) && MemFinished(n, run[|run| - 1]) && b < n
    ensures Whole(x.qTile, x.numHeads, n, run[|run| - 1].mem)
    ensures CellAt(x.qTile, x.numHeads, n, run[|run| - 1].mem, b)
         == Iterate(KernelOf(stage, x, bn), b, CellAt(x.qTile, x.numHeads, n, m, b))
  {
    var seen := MemRunRefines(stage, x, n, bn, cores, m, run);
    assert SeenAs(stage, x, n, bn, cores, run[|run| - 1], seen[|seen| - 1]);
    AnyScheduleIsSequential(KernelOf(stage, x, bn), cores, Cells(x.qTile, x.numHeads, n, m), seen, b);
  }

  /** In every reachable state: the rows that two instances are about to load or store do not
      overlap, in the tile buffers or in the output. */
  lemma AccessesDoNotOverlap(stage: Stage, x: Setup, n: nat, bn: nat, cores: nat, m: Buffers, run: seq<MemState>,
      j: nat, i: nat, i': nat)
    requires MemRun(stage, x, n, bn, cores, m, run) && j < |run| && i < cores && i' < cores && i != i'
    requires |run[j].at| == cores && run[j].at[i] < n && run[j].at[i'] < n
    ensures var q, h, b, b' := x.qTile, x.numHeads, run[j].at[i], run[j].at[i'];
            && (b * q + q <= b' * q || b' * q + q <= b * q)
            && (b * h + x.qOffset + q <= b' * h + x.qOffset || b' * h + x.qOffset + q <= b * h + x.qOffset)
  {
    var seen := MemRunRefines(stage, x, n, bn, cores, m, run);
    assert SeenAs(stage, x, n, bn, cores, run[j], seen[j]);
    WritesAreDisjoint(KernelOf(stage, x, bn), cores, Cells(x.qTile, x.numHeads, n, m), seen, j, i, i');
    RowsApart(x.qTile, n, run[j].at[i], run[j].at[i']);
    RowsApart(x.numHeads, n, run[j].at[i], run[j].at[i']);
  }
}
