/** The SPMD program itself: instances on shared buffers, dispatches, and the two loops of
    `paged_attention_spmd`. */
module SpmdProgram {
  import opened Arithmetic
  import opened OnlineSoftmax
  import opened PagedAttention
  import opened PagedAttentionMain
  import opened Paging
  import opened SpmdSchedule
  import opened SpmdKernels
  import opened SpmdAttention
  import opened SpmdMemory

  /** The shared buffers, `q` rows a request and `heads` in the output. */
  class Batch {
    const n: nat
    const q: nat
    const heads: nat
    var mem: Buffers

    predicate Valid()
      reads this
    {
      Whole(q, heads, n, mem)
    }

    /** The rows of request `b`. */
    function At(b: nat): Cell
      requires Valid() && b < n
      reads this
    {
      CellAt(q, heads, n, mem, b)
    }

    /** The setup addresses these buffers, and its tile stays inside a request's heads. */
    predicate Suits(x: Setup) {
      x.qTile == q && x.numHeads == heads && x.qOffset + x.qTile <= x.numHeads
    }

    constructor (n: nat, q: nat, heads: nat, out: seq<seq<real>>)
      requires |out| == n * heads
      ensures Valid() && this.n == n && this.q == q && this.heads == heads && mem.out == out
    {
      this.n, this.q, this.heads := n, q, heads;
      mem := Buffers(Zeros(n * q, 0), Zeros(n * q, 0), Fill(n * q, 0.0), Fill(n * q, 0.0), Zeros(n * q, 0),
                     Fill(n * q, 0.0), Fill(n * q, 0.0), Zeros(n * q, 0), out);
    }

    /** One turn of a strided loop: the loads and stores of the kernel at request `b`. */
    method Iteration(stage: Stage, x: Setup, bn: nat, b: nat)
      requires Valid() && Suits(x) && b < n
      modifies this`mem
      ensures Valid() && At(b) == Iterate(KernelOf(stage, x, bn), b, old(At(b)))
      ensures forall c :: 0 <= c < n && c != b ==> At(c) == old(At(c))
    {
      var kernel := KernelOf(stage, x, bn);
      var regs := kernel.start;
      for k := 0 to kernel.steps
        invariant Valid() && Loaded(stage, x, bn, b, k, regs) && (regs, At(b)) == Partial(kernel, b, k, old(At(b)))
        invariant forall c :: 0 <= c < n && c != b ==> At(c) == old(At(c))
      {
        AccessIsOwn(stage, x, n, bn, b, k, regs, mem);
        var (r, m) := Access(stage, x, n, bn, b, k, regs, mem);
        regs, mem := r, m;
      }
    }

    /** One instance on its own: `for b in pl.range(idx, batch, block_num)`. */
    method Instance(stage: Stage, x: Setup, bn: nat, cores: nat, idx: nat)
      requires Valid() && Suits(x) && idx < cores
      modifies this`mem
      ensures Valid()
      ensures forall b :: 0 <= b < n ==>
                At(b) == if b % cores == idx then Iterate(KernelOf(stage, x, bn), b, old(At(b))) else old(At(b))
    {
      ghost var before := Cells(q, heads, n, mem);
      var b := idx;
      StridesPartition(cores, idx, idx, 0);
      FirstOwn(cores, idx);
      while b < n
        invariant Valid() && b % cores == idx
        invariant forall c :: 0 <= c < n ==>
                    At(c) == if c % cores == idx && c < b then Iterate(KernelOf(stage, x, bn), c, before[c])
                        else before[c]
      {
        Iteration(stage, x, bn, b);
        NextStride(cores, b);
        forall c | b < c < n && c % cores == idx
          ensures b + cores <= c
        {
          NothingBetween(cores, b, c);
        }
        b := b + cores;
      }
    }

    /** One load or store of instance `i`, among the instances at `at`. */
    method Perform(stage: Stage, x: Setup, bn: nat, cores: nat, at: seq<nat>, k: seq<nat>, regs: seq<Cell>, i: nat)
        returns (at': seq<nat>, k': seq<nat>, regs': seq<Cell>)
      requires MemOk(stage, x, n, bn, cores, MemState(at, k, regs, mem)) && Suits(x) && i < cores && at[i] < n
      modifies this`mem
      ensures MemState(at', k', regs', mem) == MemStep(stage, x, n, bn, cores, MemState(at, k, regs, old(mem)), i)
    {
      assert InstanceReady(stage, x, bn, MemState(at, k, regs, mem), i);
      var kernel := KernelOf(stage, x, bn);
      var (r, m) := Access(stage, x, n, bn, at[i], k[i], regs[i], mem);
      mem := m;
      if k[i] + 1 < kernel.steps {
        at', k', regs' := at, k[i := k[i] + 1], regs[i := r];
      } else {
        at', k', regs' := at[i := at[i] + cores], k[i := 0], regs[i := kernel.start];
      }
    }

    /** All instances at once, their single loads and stores in any order. */
    method Dispatch(stage: Stage, x: Setup, bn: nat, cores: nat)
      requires Valid() && Suits(x) && cores > 0
      modifies this`mem
      ensures Valid() && forall b :: 0 <= b < n ==> At(b) == Iterate(KernelOf(stage, x, bn), b, old(At(b)))
    {
      var kernel := KernelOf(stage, x, bn);
      ghost var before := Cells(q, heads, n, mem);
      var at: seq<nat>, k: seq<nat>, regs := seq(cores, i => i), seq(cores, _ => 0), seq(cores, _ => kernel.start);
      InitInv(kernel, cores, before, State(at, k, regs, before));
      while exists i :: 0 <= i < cores && at[i] < n
        invariant MemOk(stage, x, n, bn, cores, MemState(at, k, regs, mem))
        invariant Inv(kernel, cores, before, ByRequest(x, n, MemState(at, k, regs, mem)))
        decreases Left(kernel, cores, ByRequest(x, n, MemState(at, k, regs, mem)), cores)
      {
        var i: nat :| i < cores && at[i] < n;
        ghost var s := MemState(at, k, regs, mem);
        StepSpends(kernel, cores, before, ByRequest(x, n, s), i, cores);
        StepKeepsInv(kernel, cores, before, ByRequest(x, n, s), i);
        MemStepRefines(stage, x, n, bn, cores, s, i);
        at, k, regs := Perform(stage, x, bn, cores, at, k, regs, i);
      }
      ghost var last := ByRequest(x, n, MemState(at, k, regs, mem));
      forall b | 0 <= b < n
        ensures At(b) == Iterate(kernel, b, before[b])
      {
        AllDone(kernel, cores, before, last, b);
      }
    }

    /** The four stages of one block over the whole batch, in temporaries created anew. */
    method BlockStages(x: Setup, cores: nat, bn: nat)
      requires Valid() && Suits(x) && cores > 0
      modifies this`mem
      ensures Valid() && BlockDone(x, bn, old(Cells(q, heads, n, mem)), Cells(q, heads, n, mem))
    {
      ghost var before := Cells(q, heads, n, mem);
      mem := mem.(sij := Zeros(n * q, x.bs), pij := Zeros(n * q, x.bs), mij := Fill(n * q, 0.0),
          lij := Fill(n * q, 0.0), oiNew := Zeros(n * q, x.inp.headDim));
      ghost var c0 := Cells(q, heads, n, mem);
      Dispatch(QkStage, x, bn, cores);
      Dispatch(PrepareStage, x, bn, cores);
      Dispatch(PvStage, x, bn, cores);
      Dispatch(UpdateStage, x, bn, cores);
      forall b | 0 <= b < n
        ensures At(b) == Block(x, bn, b, before[b])
      {
        NewRows(x, q, n, b);
        StagesIterate(x, bn, b, c0[b]);
        assert c0[b] == Fresh(x, before[b]);
      }
    }

    /** The block loop of one tile. */
    method BlockLoop(x: Setup, cores: nat, maxBn: nat)
      requires Valid() && Suits(x) && cores > 0 && SetupOk(x) && n == |x.inp.contextLens|
      modifies this`mem
      ensures Valid() && AllHold(x, maxBn, old(Cells(q, heads, n, mem)), Cells(q, heads, n, mem))
    {
      ghost var before := Cells(q, heads, n, mem);
      for bn := 0 to maxBn
        invariant Valid() && AllHold(x, bn, before, Cells(q, heads, n, mem))
      {
        ghost var was := Cells(q, heads, n, mem);
        BlockStages(x, cores, bn);
        BlockMore(x, bn, before, was, Cells(q, heads, n, mem));
      }
    }

    /** All blocks for one tile of query heads, then the normalisation. Without a block there
        is nothing to normalise. */
    method TileLoop(x: Setup, cores: nat, maxBn: nat)
      requires Valid() && Suits(x) && cores > 0 && SetupOk(x) && n == |x.inp.contextLens|
      modifies this`mem
      ensures Valid() && TileDone(x, maxBn, old(Cells(q, heads, n, mem)), Cells(q, heads, n, mem))
    {
      ghost var before := Cells(q, heads, n, mem);
      mem := mem.(mi := Fill(n * q, 0.0), li := Fill(n * q, 0.0), oi := Zeros(n * q, x.inp.headDim));
      ghost var start := Cells(q, heads, n, mem);
      BlockLoop(x, cores, maxBn);
      ghost var sums := Cells(q, heads, n, mem);
      Dispatch(NormalizeStage, x, 0, cores);
      forall b | maxBn > 0 && 0 <= b < n
        ensures Seen(x, b, maxBn) > 0 && TileFinished(x, b, Seen(x, b, maxBn), before[b].out, At(b).out)
      {
        assert Holds(x, maxBn, start[b], b, sums[b]) && start[b].out == before[b].out;
        SomeSeen(x, b, maxBn);
        NormalizeIterates(x, b, sums[b]);
        NormalizeIsFinal(x, b, Seen(x, b, maxBn), sums[b]);
      }
    }

    /** The loop over the tiles of query heads. */
    method AllTiles(x: Setup, cores: nat, maxBn: nat)
      requires Valid() && ProgramOk(x) && cores > 0 && n == |x.inp.contextLens| && q == x.qTile && heads == x.numHeads
      modifies this`mem
      ensures Valid() && TilesDone(x, maxBn, Cells(q, heads, n, mem), heads)
    {
      var qLoop := CeilDiv(x.numHeads, x.qTile);
      NoTileDone(x, maxBn, Cells(q, heads, n, mem));
      for t := 0 to qLoop
        invariant Valid() && TilesDone(x, maxBn, Cells(q, heads, n, mem), t * x.qTile)
      {
        ghost var was := Cells(q, heads, n, mem);
        TileFits(x, t);
        TileLoop(TileSetup(x, t), cores, maxBn);
        OneMoreTile(x, t, maxBn, was, Cells(q, heads, n, mem));
      }
      WholeTiles(x.numHeads, x.qTile);
    }
  }

  /** The accumulators of every request after the blocks before `bn`; the output as it was. */
  ghost predicate AllHold(x: Setup, bn: nat, before: seq<Cell>, now: seq<Cell>)
    requires x.bs > 0 && |before| == |now| == |x.inp.contextLens|
  {
    forall b :: 0 <= b < |now| ==> Holds(x, bn, before[b], b, now[b])
  }

  ghost predicate Holds(x: Setup, bn: nat, before: Cell, b: nat, now: Cell)
    requires x.bs > 0 && b < |x.inp.contextLens|
  {
    HoldsUpTo(x, b, bn, now) && now.out == before.out
  }

  /** Every request has been through the four stages of block `bn`. */
  ghost predicate BlockDone(x: Setup, bn: nat, was: seq<Cell>, now: seq<Cell>) {
    |was| == |now| && forall b :: 0 <= b < |now| ==> now[b] == Block(x, bn, b, was[b])
  }

  lemma BlockMore(x: Setup, bn: nat, before: seq<Cell>, was: seq<Cell>, now: seq<Cell>)
    requires SetupOk(x) && |before| == |was| == |now| == |x.inp.contextLens| && AllHold(x, bn, before, was)
    requires BlockDone(x, bn, was, now)
    ensures AllHold(x, bn + 1, before, now)
  {
    forall b | 0 <= b < |now|
      ensures Holds(x, bn + 1, before[b], b, now[b])
    {
      assert Holds(x, bn, before[b], b, was[b]);
      BlockAccumulates(x, b, bn, was[b]);
    }
  }

  /** The tile's heads of every request are final, once some block is run, the others as
      they were. */
  ghost predicate TileDone(x: Setup, maxBn: nat, was: seq<Cell>, now: seq<Cell>)
    requires IsExp(x.exp) && x.bs > 0 && |was| == |now| == |x.inp.contextLens|
  {
    maxBn > 0 ==> forall b :: 0 <= b < |was| ==>
        Seen(x, b, maxBn) > 0 && TileFinished(x, b, Seen(x, b, maxBn), was[b].out, now[b].out)
  }

  lemma AllDone(kernel: Kernel<Cell, Cell>, cores: nat, before: seq<Cell>, s: State<Cell, Cell>, b: nat)
    requires Inv(kernel, cores, before, s) && b < |before| && forall i :: 0 <= i < cores ==> s.at[i] >= |before|
    ensures s.cells[b] == Iterate(kernel, b, before[b])
  {
    StridesPartition(cores, b, b % cores, b / cores);
    assert CellOk(kernel, cores, before, s, b);
  }

  /** The four dispatches of a block, for one request. */
  lemma StagesIterate(x: Setup, bn: nat, b: nat, c: Cell)
    ensures Iterate(UpdateKernel(x, bn), b, Iterate(PvKernel(x, bn), b,
      Iterate(PrepareKernel(x, bn), b, Iterate(QkKernel(x, bn), b, c))))
         == Update(x, bn, Pv(x, bn, b, Prepare(x, bn, b, Qk(x, bn, b, c))))
  {
    var c1 := Qk(x, bn, b, c);
    QkIterates(x, bn, b, c);
    PrepareIterates(x, bn, b, c1);
    PvIterates(x, bn, b, Prepare(x, bn, b, c1));
    UpdateIterates(x, bn, b, Pv(x, bn, b, Prepare(x, bn, b, c1)));
  }

  /** New buffers hold zeros for every request. */
  lemma NewRows(x: Setup, q: nat, n: nat, b: nat)
    requires b < n
    ensures Rows(Zeros(n * q, x.bs), q, n, b) == Zeros(q, x.bs) && Rows(Fill(n * q, 0.0), q, n, b) == Fill(q, 0.0)
    ensures Rows(Zeros(n * q, x.inp.headDim), q, n, b) == Zeros(q, x.inp.headDim)
  {
    RowsApart(q, n, b, b);
    ZeroRows(x.bs, q, n, b);
    ZeroRows(x.inp.headDim, q, n, b);
  }

  lemma ZeroRows(columns: nat, q: nat, n: nat, b: nat)
    requires b < n
    ensures Rows(Zeros(n * q, columns), q, n, b) == Zeros(q, columns)
  {
    RowsApart(q, n, b, b);
    var rows, zeros := Rows(Zeros(n * q, columns), q, n, b), Zeros(q, columns);
    forall r | 0 <= r < q
      ensures rows[r] == zeros[r]
    {
      assert rows[r] == Zeros(n * q, columns)[b * q + r];
    }
  }

  lemma FirstOwn(cores: nat, idx: nat)
    requires idx < cores
    ensures idx % cores == idx && forall c: nat :: c < idx ==> c % cores != idx
  {
  }

  lemma SomeSeen(x: Setup, b: nat, maxBn: nat)
    requires SetupOk(x) && b < |x.inp.contextLens| && maxBn > 0
    ensures Seen(x, b, maxBn) > 0
  {
  }

  // ---------------------------------------------------------------- orchestration

  /** Blocks that some request needs. */
  function BlocksNeeded(lens: seq<nat>, bs: nat): (n: nat)
    requires bs > 0
    ensures forall b :: 0 <= b < |lens| ==> CeilDiv(lens[b], bs) <= n
    ensures n == 0 || exists b :: 0 <= b < |lens| && CeilDiv(lens[b], bs) == n
  {
    if lens == [] then 0
    else
      var before, last := BlocksNeeded(lens[..|lens| - 1], bs), CeilDiv(lens[|lens| - 1], bs);
      assert forall b :: 0 <= b < |lens| - 1 ==> lens[b] == lens[..|lens| - 1][b];
      assert CeilDiv(lens[|lens| - 1], bs) == last;
      if before < last then last else before
  }

  /** The loop that finds how many blocks to run. */
  method MaxBlocks(lens: seq<nat>, bs: nat, active: nat) returns (maxBn: nat)
    requires bs > 0
    ensures maxBn == if BlocksNeeded(lens, bs) < active then BlocksNeeded(lens, bs) else active
  {
    if |lens| == 0 {
      maxBn := 0;
    } else {
      maxBn := (lens[0] + bs - 1) / bs;
      assert lens[..1][..0] == [];
      for b := 1 to |lens|
        invariant maxBn == BlocksNeeded(lens[..b], bs)
      {
        var bn := (lens[b] + bs - 1) / bs;
        assert lens[..b + 1][..b] == lens[..b];
        maxBn := if maxBn < bn then bn else maxBn;
      }
      assert lens[..|lens|] == lens;
    }
    if active < maxBn { maxBn := active; }
  }

  /** All tokens are seen exactly when the active blocks reach the end of the request. */
  lemma AllSeen(x: Setup, b: nat, maxBn: nat)
    requires x.bs > 0 && b < |x.inp.contextLens|
    ensures Seen(x, b, maxBn) == x.inp.contextLens[b] <==> CeilDiv(x.inp.contextLens[b], x.bs) <= maxBn
  {
    var cur := x.inp.contextLens[b];
    var need := CeilDiv(cur, x.bs);
    if need <= maxBn {
      MulLe(need, maxBn, x.bs);
    } else {
      MulLe(maxBn, need - 1, x.bs);
    }
  }

  /** The setup of query tile `q`. */
  function TileSetup(x: Setup, q: nat): Setup {
    x.(qOffset := q * x.qTile)
  }

  /** What the host guarantees for the whole call: whole query tiles, and for every request
      some tokens and enough blocks of the pool in its table row. */
  ghost predicate ProgramOk(x: Setup) {
    && IsExp(x.exp) && x.scale > 0.0 && x.bs > 0 && x.qTile > 0 && x.numHeads % x.qTile == 0 && x.inp.RowsOk()
    && |x.inp.contextLens| * x.numHeads <= |x.inp.query|
    && (forall b :: 0 <= b < |x.inp.contextLens| ==>
          x.inp.contextLens[b] > 0 && TableOk(x.inp.blockTable, x.blockNum, x.bs, |x.inp.keyCache|, b,
              x.inp.contextLens[b]))
  }

  lemma TileFits(x: Setup, q: nat)
    requires ProgramOk(x) && q < CeilDiv(x.numHeads, x.qTile)
    ensures SetupOk(TileSetup(x, q)) && q * x.qTile + x.qTile == (q + 1) * x.qTile <= x.numHeads
  {
    MulStep(q, x.qTile);
    WholeTiles(x.numHeads, x.qTile);
    MulLe(q + 1, CeilDiv(x.numHeads, x.qTile), x.qTile);
  }

  lemma WholeTiles(n: nat, k: nat)
    requires k > 0 && n % k == 0
    ensures CeilDiv(n, k) * k == n
  {
    DivBounds(n, k);
    var q := CeilDiv(n, k);
    assert n == (n / k) * k;
    if q > n / k { MulLe(n / k, q - 1, k); } else { MulLe(q, n / k, k); }
  }

  /** A head's output row is the softmax over the tokens of the blocks run. */
  ghost predicate HeadDoneUpTo(x: Setup, b: nat, maxBn: nat, row: seq<real>, h: nat)
    requires IsExp(x.exp) && x.bs > 0 && b < |x.inp.contextLens| && Seen(x, b, maxBn) > 0
  {
    RowFinal(x.exp, x.inp, x.scale, RowOf(x, b), b * x.numHeads + h, Seen(x, b, maxBn), row)
  }

  ghost predicate HeadsDone(x: Setup, b: nat, maxBn: nat, out: seq<seq<real>>, heads: nat)
    requires IsExp(x.exp) && x.bs > 0 && b < |x.inp.contextLens|
  {
    && Seen(x, b, maxBn) > 0 && |out| == x.numHeads
    && forall h :: 0 <= h < heads && h < x.numHeads ==> HeadDoneUpTo(x, b, maxBn, out[h], h)
  }

  /** The first `heads` heads of every request, once some block is run. */
  ghost predicate TilesDone(x: Setup, maxBn: nat, cells: seq<Cell>, heads: nat)
    requires IsExp(x.exp) && x.bs > 0 && |cells| == |x.inp.contextLens|
  {
    maxBn > 0 ==> forall b :: 0 <= b < |cells| ==> HeadsDone(x, b, maxBn, cells[b].out, heads)
  }

  lemma NoTileDone(x: Setup, maxBn: nat, cells: seq<Cell>)
    requires ProgramOk(x) && |cells| == |x.inp.contextLens| && forall b :: 0 <= b < |cells| ==>
      |cells[b].out| == x.numHeads
    ensures TilesDone(x, maxBn, cells, 0)
  {
    if maxBn > 0 { MulLe(1, maxBn, x.bs); }
  }

  lemma MoreHeads(x: Setup, q: nat, b: nat, maxBn: nat, was: seq<seq<real>>, out: seq<seq<real>>)
    requires ProgramOk(x) && q < CeilDiv(x.numHeads, x.qTile) && b < |x.inp.contextLens|
    requires HeadsDone(x, b, maxBn, was, q * x.qTile)
    requires TileFinished(TileSetup(x, q), b, Seen(x, b, maxBn), was, out)
    ensures HeadsDone(x, b, maxBn, out, (q + 1) * x.qTile)
  {
    TileFits(x, q);
    forall h | 0 <= h < (q + 1) * x.qTile && h < x.numHeads
      ensures HeadDoneUpTo(x, b, maxBn, out[h], h)
    {
      assert HeadFinished(TileSetup(x, q), b, Seen(x, b, maxBn), was, out, h);
    }
  }

  lemma OneMoreTile(x: Setup, q: nat, maxBn: nat, was: seq<Cell>, now: seq<Cell>)
    requires ProgramOk(x) && q < CeilDiv(x.numHeads, x.qTile) && |was| == |now| == |x.inp.contextLens|
    requires TilesDone(x, maxBn, was, q * x.qTile)
    requires TileDone(TileSetup(x, q), maxBn, was, now)
    ensures TilesDone(x, maxBn, now, (q + 1) * x.qTile)
  {
    forall b | maxBn > 0 && 0 <= b < |now|
      ensures HeadsDone(x, b, maxBn, now[b].out, (q + 1) * x.qTile)
    {
      MoreHeads(x, q, b, maxBn, was[b].out, now[b].out);
    }
  }

  /** Every tile of the loop stays inside the heads of its request exactly when `q_tile`
      divides the number of heads; otherwise the last one reaches into the next request. */
  lemma TilesStayExactly(heads: nat, tile: nat)
    requires tile > 0
    ensures (forall q :: 0 <= q < CeilDiv(heads, tile) ==> TileInside(heads, tile, q)) <==> heads % tile == 0
  {
    if heads % tile == 0 {
      WholeTiles(heads, tile);
      forall q | 0 <= q < CeilDiv(heads, tile)
        ensures TileInside(heads, tile, q)
      {
        MulStep(q, tile);
        MulLe(q + 1, CeilDiv(heads, tile), tile);
      }
    } else {
      var last := CeilDiv(heads, tile) - 1;
      MulStep(last, tile);
      DivModAt(last + 1, tile, 0);
      assert !TileInside(heads, tile, last);
    }
  }

  predicate TileInside(heads: nat, tile: nat, q: nat) {
    q * tile + tile <= heads
  }

  /** `paged_attention_spmd`: whatever the number of instances and whatever the order of
      their steps, every head of every request ends as the softmax average over the tokens
      in the blocks run, which is all its tokens exactly when the active blocks suffice. */
  method PagedAttentionSpmd(x: Setup, active: nat, cores: nat, out: seq<seq<real>>) returns (batch: Batch, maxBn: nat)
    requires ProgramOk(x) && cores > 0 && |out| == |x.inp.contextLens| * x.numHeads
    ensures maxBn == if BlocksNeeded(x.inp.contextLens, x.bs) < active then BlocksNeeded(x.inp.contextLens, x.bs)
      else active
    ensures maxBn > 0 <==> active > 0 && |x.inp.contextLens| > 0
    ensures |batch.mem.out| == |out|
    ensures maxBn > 0 ==> forall b :: 0 <= b < |x.inp.contextLens| ==>
              HeadsDone(x, b, maxBn, Rows(batch.mem.out, x.numHeads, |x.inp.contextLens|, b), x.numHeads)
    ensures maxBn > 0 ==> forall b :: 0 <= b < |x.inp.contextLens| ==>
              (Seen(x, b, maxBn) == x.inp.contextLens[b] <==> CeilDiv(x.inp.contextLens[b], x.bs) <= active)
  {
    var n := |x.inp.contextLens|;
    maxBn := MaxBlocks(x.inp.contextLens, x.bs, active);
    assert n > 0 ==> CeilDiv(x.inp.contextLens[0], x.bs) > 0;
    batch := new Batch(n, x.qTile, x.numHeads, out);
    batch.AllTiles(x, cores, maxBn);
    forall b | maxBn > 0 && 0 <= b < n
      ensures HeadsDone(x, b, maxBn, Rows(batch.mem.out, x.numHeads, n, b), x.numHeads)
      ensures Seen(x, b, maxBn) == x.inp.contextLens[b] <==> CeilDiv(x.inp.contextLens[b], x.bs) <= active
    {
      assert Rows(batch.mem.out, x.numHeads, n, b) == Cells(x.qTile, x.numHeads, n, batch.mem)[b].out;
      AllSeen(x, b, maxBn);
    }
  }
}
