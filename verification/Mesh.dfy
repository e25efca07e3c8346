/** The mesh all-reduce of examples/distributed/08_allreduce_mesh.py: one barrier, then
    every rank folds every slice itself. The simple form the other two are held against. */
module Mesh {
  import opened ChunkSums

  /** `slices[r]` is the whole input row of rank `r`. */
  datatype MeshConfig<!V> = MeshConfig(P: nat, slices: seq<V>, add: (V, V) -> V)
  {
    ghost predicate Ok() { P >= 2 && |slices| == P }
  }

  datatype Pc = Stage | Notify(p: nat) | Wait(p: nat) | LoadOwn | Accum(p: nat) | StageOut | Done

  predicate PcOk(P: nat, pc: Pc) {
    match pc
    case Notify(p) => p < P
    case Wait(p) => p < P
    case Accum(p) => p < P
    case _ => true
  }

  /** Actions performed so far. */
  function Position(P: nat, pc: Pc): (n: nat)
    requires P >= 2
    ensures PcOk(P, pc) ==> n <= 3 + 3 * P
  {
    match pc
    case Stage => 0
    case Notify(p) => 1 + p
    case Wait(p) => 1 + P + p
    case LoadOwn => 1 + 2 * P
    case Accum(p) => 2 + 2 * P + p
    case StageOut => 2 + 3 * P
    case Done => 3 + 3 * P
  }

  function Advance(P: nat, pc: Pc): (next: Pc)
    requires P >= 2 && PcOk(P, pc) && !pc.Done?
    ensures PcOk(P, next) && Position(P, next) == Position(P, pc) + 1
  {
    match pc
    case Stage => Notify(0)
    case Notify(p) => if p + 1 < P then Notify(p + 1) else Wait(0)
    case Wait(p) => if p + 1 < P then Wait(p + 1) else LoadOwn
    case LoadOwn => Accum(0)
    case Accum(p) => if p + 1 < P then Accum(p + 1) else StageOut
    case StageOut => Done
  }

  datatype State<V> = State(pc: seq<Pc>, data: seq<V>, acc: seq<V>, sig: seq<seq<nat>>, out: seq<V>)

  ghost predicate Shape<V>(P: nat, s: State<V>) {
    && |s.pc| == |s.data| == |s.acc| == |s.sig| == |s.out| == P
    && (forall r :: 0 <= r < P ==> PcOk(P, s.pc[r]) && |s.sig[r]| == P)
  }

  ghost predicate Init<V>(cfg: MeshConfig<V>, s: State<V>)
    requires cfg.Ok()
  {
    && Shape(cfg.P, s)
    && (forall r :: 0 <= r < cfg.P ==> s.pc[r] == Stage)
    && (forall r, src :: 0 <= r < cfg.P && 0 <= src < cfg.P ==> s.sig[r][src] == 0)
  }

  ghost predicate Enabled<V>(cfg: MeshConfig<V>, s: State<V>, r: nat)
    requires cfg.Ok() && Shape(cfg.P, s) && r < cfg.P
  {
    match s.pc[r]
    case Wait(src) => src != r ==> s.sig[r][src] >= 1
    case Done => false
    case _ => true
  }

  ghost function Step<V>(cfg: MeshConfig<V>, s: State<V>, r: nat): (t: State<V>)
    requires cfg.Ok() && Shape(cfg.P, s) && r < cfg.P && Enabled(cfg, s, r)
    ensures Shape(cfg.P, t)
  {
    var next := s.(pc := s.pc[r := Advance(cfg.P, s.pc[r])]);
    match s.pc[r]
    case Stage => next.(data := s.data[r := cfg.slices[r]])
    case Notify(p) => if p == r then next else next.(sig := s.sig[p := s.sig[p][r := s.sig[p][r] + 1]])
    case LoadOwn => next.(acc := s.acc[r := s.data[r]])
    case Accum(p) => if p == r then next else next.(acc := s.acc[r := cfg.add(s.acc[r], s.data[p])])
    case StageOut => next.(out := s.out[r := s.acc[r]])
    case _ => next
  }

  ghost predicate Moves<V>(cfg: MeshConfig<V>, s: State<V>, t: State<V>)
    requires cfg.Ok()
  {
    Shape(cfg.P, s) && exists r: nat :: r < cfg.P && Enabled(cfg, s, r) && t == Step(cfg, s, r)
  }

  ghost predicate Run<V>(cfg: MeshConfig<V>, run: seq<State<V>>)
    requires cfg.Ok()
  {
    run != [] && Init(cfg, run[0]) && forall i :: 0 <= i < |run| - 1 ==> Moves(cfg, run[i], run[i + 1])
  }

  ghost predicate Finished<V>(cfg: MeshConfig<V>, s: State<V>)
    requires cfg.Ok() && Shape(cfg.P, s)
  {
    forall r :: 0 <= r < cfg.P ==> s.pc[r].Done?
  }

  // ---------------------------------------------------------------- invariant

  ghost predicate RankOk<V>(cfg: MeshConfig<V>, s: State<V>, r: nat)
    requires cfg.Ok() && Shape(cfg.P, s) && r < cfg.P
  {
    && (!s.pc[r].Stage? ==> s.data[r] == cfg.slices[r])
    && (match s.pc[r]
        case Accum(p) => s.acc[r] == FoldPeers(cfg.slices, cfg.add, r, p)
        case StageOut => s.acc[r] == FoldPeers(cfg.slices, cfg.add, r, cfg.P)
        case Done => s.out[r] == FoldPeers(cfg.slices, cfg.add, r, cfg.P)
        case _ => true)
  }

  ghost predicate PairOk(P: nat, r: nat, src: nat, pc: Pc, pcSrc: Pc, cell: nat)
    requires P >= 2
  {
    && cell == (if src != r && Position(P, pcSrc) > 1 + r then 1 else 0)
    && (Position(P, pc) > 1 + P + src ==> !pcSrc.Stage?)
  }

  ghost predicate Inv<V>(cfg: MeshConfig<V>, s: State<V>)
    requires cfg.Ok()
  {
    && Shape(cfg.P, s)
    && (forall r :: 0 <= r < cfg.P ==> RankOk(cfg, s, r))
    && (forall r, src :: 0 <= r < cfg.P && 0 <= src < cfg.P ==>
          PairOk(cfg.P, r, src, s.pc[r], s.pc[src], s.sig[r][src]))
  }

  lemma StepKeepsPair<V>(cfg: MeshConfig<V>, s: State<V>, r: nat, q: nat, src: nat)
    requires cfg.Ok() && Shape(cfg.P, s) && r < cfg.P && Enabled(cfg, s, r) && q < cfg.P && src < cfg.P
    requires PairOk(cfg.P, q, src, s.pc[q], s.pc[src], s.sig[q][src])
    ensures var t := Step(cfg, s, r); PairOk(cfg.P, q, src, t.pc[q], t.pc[src], t.sig[q][src])
  {
  }

  lemma StepKeepsRank<V>(cfg: MeshConfig<V>, s: State<V>, r: nat)
    requires cfg.Ok() && Inv(cfg, s) && r < cfg.P && Enabled(cfg, s, r)
    ensures RankOk(cfg, Step(cfg, s, r), r)
  {
    assert RankOk(cfg, s, r);
    match s.pc[r]
    case Accum(p) =>
      assert PairOk(cfg.P, r, p, s.pc[r], s.pc[p], s.sig[r][p]);
      assert RankOk(cfg, s, p);
    case _ =>
  }

  lemma StepKeepsInv<V>(cfg: MeshConfig<V>, s: State<V>, r: nat)
    requires cfg.Ok() && Inv(cfg, s) && r < cfg.P && Enabled(cfg, s, r)
    ensures Inv(cfg, Step(cfg, s, r))
  {
    var t := Step(cfg, s, r);
    StepKeepsRank(cfg, s, r);
    forall q | 0 <= q < cfg.P
      ensures RankOk(cfg, t, q)
    {
      assert RankOk(cfg, s, q);
    }
    forall q, src | 0 <= q < cfg.P && 0 <= src < cfg.P
      ensures PairOk(cfg.P, q, src, t.pc[q], t.pc[src], t.sig[q][src])
    {
      StepKeepsPair(cfg, s, r, q, src);
    }
  }

  lemma MoveKeepsInv<V>(cfg: MeshConfig<V>, s: State<V>, t: State<V>)
    requires cfg.Ok() && Inv(cfg, s) && Moves(cfg, s, t)
    ensures Inv(cfg, t)
  {
    var r: nat :| r < cfg.P && Enabled(cfg, s, r) && t == Step(cfg, s, r);
    StepKeepsInv(cfg, s, r);
  }

  lemma {:induction false} RunKeepsInv<V>(cfg: MeshConfig<V>, run: seq<State<V>>, i: nat)
    requires cfg.Ok() && Run(cfg, run) && i < |run|
    ensures Inv(cfg, run[i])
    decreases i
  {
    if i > 0 {
      RunKeepsInv(cfg, run, i - 1);
      assert Moves(cfg, run[i - 1], run[i - 1 + 1]);
      MoveKeepsInv(cfg, run[i - 1], run[i]);
    }
  }

  // ---------------------------------------------------------------- results

  /** Every finished run: rank `r` holds its own fold, its slice first, then its peers'. */
  lemma MeshResult<V>(cfg: MeshConfig<V>, run: seq<State<V>>, r: nat)
    requires cfg.Ok() && Run(cfg, run) && r < cfg.P
    requires Shape(cfg.P, run[|run| - 1]) && Finished(cfg, run[|run| - 1])
    ensures run[|run| - 1].out[r] == FoldPeers(cfg.slices, cfg.add, r, cfg.P)
  {
    RunKeepsInv(cfg, run, |run| - 1);
    assert RankOk(cfg, run[|run| - 1], r);
  }

  /** With an associative, commutative `add` all ranks agree on the sum in rank order. */
  lemma MeshAgreement<V(!new)>(cfg: MeshConfig<V>, run: seq<State<V>>, r: nat)
    requires cfg.Ok() && AssocComm(cfg.add) && Run(cfg, run) && r < cfg.P
    requires Shape(cfg.P, run[|run| - 1]) && Finished(cfg, run[|run| - 1])
    ensures run[|run| - 1].out[r] == RankSum(cfg.slices, cfg.add, 0, cfg.P - 1)
  {
    MeshResult(cfg, run, r);
    FoldAll(cfg.slices, cfg.add, r);
  }

  // ---------------------------------------------------------------- progress

  ghost function Slowest(P: nat, pcs: seq<Pc>, n: nat): (r: nat)
    requires P >= 2 && 0 < n <= |pcs|
    ensures r < n && forall q :: 0 <= q < n ==> Position(P, pcs[r]) <= Position(P, pcs[q])
  {
    if n == 1 then 0
    else
      var r := Slowest(P, pcs, n - 1);
      if Position(P, pcs[n - 1]) < Position(P, pcs[r]) then n - 1 else r
  }

  /** No deadlock: the least advanced rank of an unfinished state can always move. */
  lemma Progress<V>(cfg: MeshConfig<V>, s: State<V>) returns (r: nat)
    requires cfg.Ok() && Inv(cfg, s) && !Finished(cfg, s)
    ensures r < cfg.P && Enabled(cfg, s, r)
  {
    r := Slowest(cfg.P, s.pc, cfg.P);
    var unfinished: nat :| unfinished < cfg.P && !s.pc[unfinished].Done?;
    assert Position(cfg.P, s.pc[r]) <= Position(cfg.P, s.pc[unfinished]);
    assert PcOk(cfg.P, s.pc[unfinished]);
    if s.pc[r].Wait? {
      assert PairOk(cfg.P, r, s.pc[r].p, s.pc[r], s.pc[s.pc[r].p], s.sig[r][s.pc[r].p]);
    }
  }

  /** Actions left, over the first `n` ranks. */
  ghost function Remaining(P: nat, pcs: seq<Pc>, n: nat): nat
    requires P >= 2 && n <= |pcs| && forall r :: 0 <= r < n ==> PcOk(P, pcs[r])
  {
    if n == 0 then 0 else Remaining(P, pcs, n - 1) + Position(P, Done) - Position(P, pcs[n - 1])
  }

  lemma {:induction false} RemainingDrops(P: nat, pcs: seq<Pc>, r: nat, n: nat)
    requires P >= 2 && n <= |pcs| && r < |pcs| && !pcs[r].Done?
    requires forall q :: 0 <= q < |pcs| ==> PcOk(P, pcs[q])
    ensures Remaining(P, pcs[r := Advance(P, pcs[r])], n) == Remaining(P, pcs, n) - if r < n then 1 else 0
  {
    if n > 0 {
      RemainingDrops(P, pcs, r, n - 1);
    }
  }

  /** Every run from a start to an end, whatever the interleaving, spends the same budget of
      actions, one a step. */
  lemma {:induction false} RunSpends<V>(cfg: MeshConfig<V>, run: seq<State<V>>, i: nat)
    requires cfg.Ok() && Run(cfg, run) && i < |run|
    ensures Shape(cfg.P, run[0]) && Shape(cfg.P, run[i])
    ensures Remaining(cfg.P, run[i].pc, cfg.P) + i == Remaining(cfg.P, run[0].pc, cfg.P)
    decreases i
  {
    if i > 0 {
      RunSpends(cfg, run, i - 1);
      assert Moves(cfg, run[i - 1], run[i - 1 + 1]);
      var r: nat :| r < cfg.P && Enabled(cfg, run[i - 1], r) && run[i] == Step(cfg, run[i - 1], r);
      RemainingDrops(cfg.P, run[i - 1].pc, r, cfg.P);
      assert run[i].pc == run[i - 1].pc[r := Advance(cfg.P, run[i - 1].pc[r])];
    }
  }

  ghost predicate CompleteRun<V>(cfg: MeshConfig<V>, run: seq<State<V>>)
    requires cfg.Ok()
  {
    Run(cfg, run) && Shape(cfg.P, run[|run| - 1]) && Finished(cfg, run[|run| - 1])
  }

  /** Every run, however far it has come, can be continued to the end. */
  lemma {:induction false} RunToEnd<V>(cfg: MeshConfig<V>, run: seq<State<V>>) returns (full: seq<State<V>>)
    requires cfg.Ok() && Run(cfg, run)
    ensures CompleteRun(cfg, full) && run <= full
    decreases Remaining(cfg.P, run[0].pc, cfg.P) - |run|
  {
    var s := run[|run| - 1];
    RunKeepsInv(cfg, run, |run| - 1);
    RunSpends(cfg, run, |run| - 1);
    if Finished(cfg, s) {
      full := run;
    } else {
      var r := Progress(cfg, s);
      var more := run + [Step(cfg, s, r)];
      forall i | 0 <= i < |more| - 1
        ensures Moves(cfg, more[i], more[i + 1])
      {
        if i < |run| - 1 {
          assert Moves(cfg, run[i], run[i + 1]);
        } else {
          assert more[i] == s && more[i + 1] == Step(cfg, s, r);
        }
      }
      RunSpends(cfg, more, |more| - 1);
      full := RunToEnd(cfg, more);
    }
  }

  /** So a finished run exists for every configuration. */
  lemma FinishedRunExists<V>(cfg: MeshConfig<V>) returns (full: seq<State<V>>)
    requires cfg.Ok()
    ensures CompleteRun(cfg, full)
  {
    var row := seq(cfg.P, _ => 0);
    var s := State(seq(cfg.P, _ => Stage), cfg.slices, cfg.slices, seq(cfg.P, _ => row), cfg.slices);
    full := RunToEnd(cfg, [s]);
  }

  /** Every rank's slice is its row of chunks, laid out flat. */
  ghost predicate FlatRows(slices: seq<seq<real>>, x: seq<seq<seq<real>>>) {
    |slices| == |x| && forall r :: 0 <= r < |x| ==> slices[r] == Flat(x[r])
  }

  /** Flat rows folded whole give the same row as chunks folded one by one. */
  lemma {:induction false} SliceSumIsRowSum(x: seq<seq<seq<real>>>, slices: seq<seq<real>>, hi: nat)
    requires hi < |x| == |slices| && FlatRows(slices, x)
    ensures RankSum(slices, AddTiles, 0, hi) == RowSum(x, hi)
    decreases hi
  {
    if hi > 0 {
      SliceSumIsRowSum(x, slices, hi - 1);
    }
  }

  lemma FoldIsRowSum(x: seq<seq<seq<real>>>, cfg: MeshConfig<seq<real>>, own: nat, fold: seq<real>)
    requires cfg.Ok() && cfg.add == AddTiles && |x| == cfg.P && own < cfg.P && FlatRows(cfg.slices, x)
    requires fold == FoldPeers(cfg.slices, cfg.add, own, cfg.P)
    ensures fold == RowSum(x, cfg.P - 1)
  {
    assert AssocComm(AddTiles) by { AddTilesAssocComm(); }
    FoldAll(cfg.slices, AddTiles, own);
    SliceSumIsRowSum(x, cfg.slices, |x| - 1);
  }

  /** The mesh computes the row that the chunked protocols compute. */
  lemma MeshComputesAllReduce(x: seq<seq<seq<real>>>, cfg: MeshConfig<seq<real>>, run: seq<State<seq<real>>>, r: nat)
    requires cfg.Ok() && cfg.add == AddTiles && |x| == cfg.P
    requires FlatRows(cfg.slices, x)
    requires Run(cfg, run) && r < cfg.P
    requires Shape(cfg.P, run[|run| - 1]) && Finished(cfg, run[|run| - 1])
    ensures run[|run| - 1].out[r] == RowSum(x, cfg.P - 1)
  {
    MeshResult(cfg, run, r);
    FoldIsRowSum(x, cfg, r, run[|run| - 1].out[r]);
  }

  /** Phase 3 of `reduce_step`, the accumulation loop itself, over windows that the
      barrier has made final. */
  method Accumulate<V>(data: seq<V>, myRank: nat, add: (V, V) -> V) returns (acc: V)
    requires myRank < |data|
    ensures acc == FoldPeers(data, add, myRank, |data|)
  {
    acc := data[myRank];
    for peer := 0 to |data|
      invariant acc == FoldPeers(data, add, myRank, peer)
    {
      if peer != myRank {
        acc := add(acc, data[peer]);
      }
    }
  }
}
