/** An SPMD dispatch: `cores` instances of one kernel walk the batch with a stride, each
    iteration a few loads and stores on the rows of one request
    (examples/models/09_paged_attention_spmd.py). Whatever the interleaving of those single
    steps, the outcome is that of the plain loop over the batch. */
module SpmdSchedule {
  import opened Arithmetic

  /** A kernel body: `steps` loads and stores, the `k`-th of them `act(b, k, ..)` on the
      instance's registers and the rows of request `b`. */
  datatype Kernel<!R, !C> = Kernel(steps: nat, start: R, act: (nat, nat, R, C) -> (R, C))

  /** Instance `i` is at request `at[i]`, step `k[i]`. */
  datatype State<R, C> = State(at: seq<nat>, k: seq<nat>, regs: seq<R>, cells: seq<C>)

  predicate Shape<R, C>(cores: nat, s: State<R, C>) {
    cores > 0 && |s.at| == |s.k| == |s.regs| == cores
  }

  ghost predicate Init<R, C>(kernel: Kernel<R, C>, cores: nat, cells: seq<C>, s: State<R, C>) {
    && Shape(cores, s) && s.cells == cells
    && forall i :: 0 <= i < cores ==> s.at[i] == i && s.k[i] == 0 && s.regs[i] == kernel.start
  }

  predicate Enabled<R, C>(cores: nat, s: State<R, C>, i: nat)
    requires Shape(cores, s)
  {
    i < cores && s.at[i] < |s.cells|
  }

  /** One load or store of instance `i`. */
  function Step<R, C>(kernel: Kernel<R, C>, cores: nat, s: State<R, C>, i: nat): (t: State<R, C>)
    requires Shape(cores, s) && Enabled(cores, s, i)
    ensures Shape(cores, t) && |t.cells| == |s.cells|
  {
    var b := s.at[i];
    var (r, c) := kernel.act(b, s.k[i], s.regs[i], s.cells[b]);
    if s.k[i] + 1 < kernel.steps
    then s.(k := s.k[i := s.k[i] + 1], regs := s.regs[i := r], cells := s.cells[b := c])
    else s.(at := s.at[i := b + cores], k := s.k[i := 0], regs := s.regs[i := kernel.start], cells := s.cells[b := c])
  }

  ghost predicate Moves<R, C>(kernel: Kernel<R, C>, cores: nat, s: State<R, C>, t: State<R, C>) {
    Shape(cores, s) && exists i :: Enabled(cores, s, i) && t == Step(kernel, cores, s, i)
  }

  ghost predicate Run<R, C>(kernel: Kernel<R, C>, cores: nat, cells: seq<C>, run: seq<State<R, C>>) {
    run != [] && Init(kernel, cores, cells, run[0]) && forall j :: 0 <= j < |run| - 1 ==>
        Moves(kernel, cores, run[j], run[j + 1])
  }

  lemma RunSnoc<R, C>(kernel: Kernel<R, C>, cores: nat, cells: seq<C>, run: seq<State<R, C>>, t: State<R, C>)
    requires Run(kernel, cores, cells, run) && Moves(kernel, cores, run[|run| - 1], t)
    ensures Run(kernel, cores, cells, run + [t])
  {
    var more := run + [t];
    forall j | 0 <= j < |more| - 1
      ensures Moves(kernel, cores, more[j], more[j + 1])
    {
      if j < |run| - 1 {
        assert Moves(kernel, cores, run[j], run[j + 1]);
      }
    }
  }

  predicate Finished<R, C>(cores: nat, s: State<R, C>)
    requires Shape(cores, s)
  {
    forall i :: 0 <= i < cores ==> s.at[i] >= |s.cells|
  }

  // ---------------------------------------------------------------- one iteration on its own

  /** Registers and rows after `k` steps of the iteration for request `b`. */
  function Partial<R, C>(kernel: Kernel<R, C>, b: nat, k: nat, cell: C): (R, C) {
    if k == 0 then (kernel.start, cell)
    else
      var (r, c) := Partial(kernel, b, k - 1, cell);
      kernel.act(b, k - 1, r, c)
  }

  /** The whole iteration. */
  function Iterate<R, C>(kernel: Kernel<R, C>, b: nat, cell: C): C {
    Partial(kernel, b, kernel.steps, cell).1
  }

  // ---------------------------------------------------------------- the strided partition

  /** Every request belongs to exactly one instance: the loop that starts at `b % cores`
      reaches it after `b / cores` strides, and no other loop does. */
  lemma StridesPartition(cores: nat, b: nat, i: nat, j: nat)
    requires cores > 0 && i < cores
    ensures b == i + j * cores <==> i == b % cores && j == b / cores
    ensures b % cores < cores
  {
    if b == i + j * cores {
      DivUnique(b, cores, j, i);
    }
  }

  lemma NextStride(cores: nat, b: nat)
    requires cores > 0
    ensures (b + cores) % cores == b % cores
  {
    assert b + cores == (b / cores + 1) * cores + b % cores;
    DivUnique(b + cores, cores, b / cores + 1, b % cores);
  }

  /** Between two strides of an instance lies no request of its own. */
  lemma NothingBetween(cores: nat, b: nat, c: nat)
    requires cores > 0 && b % cores == c % cores && b < c
    ensures b + cores <= c
  {
    var d := c / cores - b / cores;
    assert c - b == d * cores;
    Grows(d, cores);
  }

  // ---------------------------------------------------------------- invariant

  /** The rows of request `b`: done, being worked on, or not yet touched, as their owner says. */
  ghost predicate CellOk<R, C>(kernel: Kernel<R, C>, cores: nat, cells: seq<C>, s: State<R, C>, b: nat)
    requires Shape(cores, s) && b < |cells| == |s.cells|
  {
    var i := b % cores;
    if b < s.at[i] then s.cells[b] == Iterate(kernel, b, cells[b])
    else if b == s.at[i] then (s.regs[i], s.cells[b]) == Partial(kernel, b, s.k[i], cells[b])
    else s.cells[b] == cells[b]
  }

  ghost predicate InstanceOk<R, C>(kernel: Kernel<R, C>, cores: nat, s: State<R, C>, i: nat)
    requires Shape(cores, s) && i < cores
  {
    s.at[i] % cores == i && s.k[i] < kernel.steps && (s.k[i] == 0 ==> s.regs[i] == kernel.start)
  }

  ghost predicate Inv<R, C>(kernel: Kernel<R, C>, cores: nat, cells: seq<C>, s: State<R, C>) {
    && Shape(cores, s) && |s.cells| == |cells|
    && (forall i :: 0 <= i < cores ==> InstanceOk(kernel, cores, s, i))
    && (forall b :: 0 <= b < |cells| ==> CellOk(kernel, cores, cells, s, b))
  }

  lemma InitInv<R, C>(kernel: Kernel<R, C>, cores: nat, cells: seq<C>, s: State<R, C>)
    requires Init(kernel, cores, cells, s) && kernel.steps > 0
    ensures Inv(kernel, cores, cells, s)
  {
    forall i | 0 <= i < cores
      ensures InstanceOk(kernel, cores, s, i)
    {
      StridesPartition(cores, i, i, 0);
    }
    forall b | 0 <= b < |cells|
      ensures CellOk(kernel, cores, cells, s, b)
    {
      StridesPartition(cores, b, b % cores, b / cores);
      Below(cores, b);
    }
  }

  lemma Below(cores: nat, b: nat)
    requires cores > 0
    ensures b % cores <= b
  {
  }

  lemma StepKeepsCell<R, C>(kernel: Kernel<R, C>, cores: nat, cells: seq<C>, s: State<R, C>, i: nat, b: nat)
    requires Inv(kernel, cores, cells, s) && Enabled(cores, s, i) && b < |cells|
    ensures CellOk(kernel, cores, cells, Step(kernel, cores, s, i), b)
  {
    assert InstanceOk(kernel, cores, s, i) && CellOk(kernel, cores, cells, s, b)
        && CellOk(kernel, cores, cells, s, s.at[i]);
    if b % cores == i {
      if b > s.at[i] {
        NothingBetween(cores, s.at[i], b);
      }
    }
  }

  lemma StepKeepsInv<R, C>(kernel: Kernel<R, C>, cores: nat, cells: seq<C>, s: State<R, C>, i: nat)
    requires Inv(kernel, cores, cells, s) && Enabled(cores, s, i)
    ensures Inv(kernel, cores, cells, Step(kernel, cores, s, i))
  {
    var t := Step(kernel, cores, s, i);
    NextStride(cores, s.at[i]);
    forall j | 0 <= j < cores
      ensures InstanceOk(kernel, cores, t, j)
    {
      assert InstanceOk(kernel, cores, s, j) && InstanceOk(kernel, cores, s, i);
    }
    forall b | 0 <= b < |cells|
      ensures CellOk(kernel, cores, cells, t, b)
    {
      StepKeepsCell(kernel, cores, cells, s, i, b);
    }
  }

  lemma {:induction false} RunKeepsInv<R, C>(kernel: Kernel<R, C>, cores: nat, cells: seq<C>, run: seq<State<R, C>>,
      j: nat)
    requires Run(kernel, cores, cells, run) && kernel.steps > 0 && j < |run|
    ensures Inv(kernel, cores, cells, run[j])
  {
    if j == 0 {
      InitInv(kernel, cores, cells, run[0]);
    } else {
      RunKeepsInv(kernel, cores, cells, run, j - 1);
      assert Moves(kernel, cores, run[j - 1], run[(j - 1) + 1]);
      var i :| Enabled(cores, run[j - 1], i) && run[j] == Step(kernel, cores, run[j - 1], i);
      StepKeepsInv(kernel, cores, cells, run[j - 1], i);
    }
  }

  /** Any finished run, of any number of instances, leaves what the sequential loop over the
      batch leaves. */
  lemma AnyScheduleIsSequential<R, C>(kernel: Kernel<R, C>, cores: nat, cells: seq<C>, run: seq<State<R, C>>, b: nat)
    requires Run(kernel, cores, cells, run) && kernel.steps > 0 && b < |cells|
    requires Shape(cores, run[|run| - 1]) && Finished(cores, run[|run| - 1])
    ensures |run[|run| - 1].cells| == |cells| && run[|run| - 1].cells[b] == Iterate(kernel, b, cells[b])
  {
    RunKeepsInv(kernel, cores, cells, run, |run| - 1);
    StridesPartition(cores, b, b % cores, b / cores);
    assert CellOk(kernel, cores, cells, run[|run| - 1], b);
  }

  /** An access to the rows of a request is never made by two instances: each step touches
      only the rows of a request that its instance owns. */
  lemma WritesAreDisjoint<R, C>(kernel: Kernel<R, C>, cores: nat, cells: seq<C>, run: seq<State<R, C>>, j: nat, i: nat,
      i': nat)
    requires Run(kernel, cores, cells, run) && kernel.steps > 0 && j < |run|
    requires Shape(cores, run[j]) && Enabled(cores, run[j], i) && Enabled(cores, run[j], i') && i != i'
    ensures run[j].at[i] != run[j].at[i']
    ensures forall b :: 0 <= b < |run[j].cells| && b != run[j].at[i] ==>
      Step(kernel, cores, run[j], i).cells[b] == run[j].cells[b]
  {
    RunKeepsInv(kernel, cores, cells, run, j);
    assert InstanceOk(kernel, cores, run[j], i) && InstanceOk(kernel, cores, run[j], i');
  }

  // ---------------------------------------------------------------- termination

  /** Steps still to be made. */
  function Left<R, C>(kernel: Kernel<R, C>, cores: nat, s: State<R, C>, i: nat): (n: int)
    requires Shape(cores, s) && i <= cores
  {
    if i == 0 then 0 else Left(kernel, cores, s, i - 1) + InstanceLeft(kernel.steps, |s.cells|, s.at[i - 1], s.k[i - 1])
  }

  function InstanceLeft(steps: nat, n: nat, at: nat, k: nat): int {
    if at >= n then 0 else (n - at) * steps - k
  }

  lemma InstanceShrinks(steps: nat, n: nat, at: nat, k: nat, cores: nat)
    requires at < n && k < steps && cores > 0
    ensures 0 <= InstanceLeft(steps, n, at, k + 1) < InstanceLeft(steps, n, at, k)
    ensures 0 <= InstanceLeft(steps, n, at + cores, 0)
    ensures k + 1 == steps ==> InstanceLeft(steps, n, at + cores, 0) < InstanceLeft(steps, n, at, k)
  {
    Grows(n - at, steps);
    if at + cores < n {
      Grows(n - at - cores, steps);
      Grows(cores, steps);
      assert (n - at) * steps == (n - at - cores) * steps + cores * steps;
    }
  }

  lemma {:induction false} StepSpends<R, C>(kernel: Kernel<R, C>, cores: nat, cells: seq<C>, s: State<R, C>, i: nat,
      m: nat)
    requires Inv(kernel, cores, cells, s) && Enabled(cores, s, i) && m <= cores
    ensures 0 <= Left(kernel, cores, Step(kernel, cores, s, i), m) <= Left(kernel, cores, s, m)
    ensures i < m ==> Left(kernel, cores, Step(kernel, cores, s, i), m) < Left(kernel, cores, s, m)
    decreases m
  {
    if m > 0 {
      StepSpends(kernel, cores, cells, s, i, m - 1);
      assert InstanceOk(kernel, cores, s, m - 1);
      if s.at[m - 1] < |s.cells| {
        InstanceShrinks(kernel.steps, |s.cells|, s.at[m - 1], s.k[m - 1], cores);
      }
    }
  }

  /** Every run ends: it is no longer than the steps there were to make. */
  lemma {:induction false} RunsEnd<R, C>(kernel: Kernel<R, C>, cores: nat, cells: seq<C>, run: seq<State<R, C>>, j: nat)
    requires Run(kernel, cores, cells, run) && kernel.steps > 0 && j < |run|
    ensures Shape(cores, run[0]) && Shape(cores, run[j])
    ensures Left(kernel, cores, run[j], cores) + j <= Left(kernel, cores, run[0], cores)
  {
    if j > 0 {
      RunsEnd(kernel, cores, cells, run, j - 1);
      RunKeepsInv(kernel, cores, cells, run, j - 1);
      assert Moves(kernel, cores, run[j - 1], run[(j - 1) + 1]);
      var i :| Enabled(cores, run[j - 1], i) && run[j] == Step(kernel, cores, run[j - 1], i);
      StepSpends(kernel, cores, cells, run[j - 1], i, cores);
    }
  }
}
