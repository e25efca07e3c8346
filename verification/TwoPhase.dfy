/** The two-phase all-reduce of examples/distributed/09_allreduce_two_phase.py: stage,
    full barrier, reduce-scatter, full barrier, all-gather, as an asynchronous system. */
module TwoPhase {
  import opened ChunkSums

  /** Each constructor is one loop iteration of `reduce_step`, or one straight-line action. */
  datatype Pc =
    | Stage              // store the input into the data window
    | NotifyA(p: nat)    // barrier A: raise my cell on peer p
    | WaitA(p: nat)      // barrier A: wait for p's cell
    | LoadOwn            // acc := own data chunk
    | Accum(p: nat)      // acc := acc + remote chunk of peer p
    | StoreResult        // store acc into the result window
    | NotifyB(p: nat)
    | WaitB(p: nat)
    | Gather(c: nat)     // copy peer c's reduced chunk to the output
    | Done

  predicate PcOk(P: nat, pc: Pc) {
    match pc
    case NotifyA(p) => p < P
    case WaitA(p) => p < P
    case Accum(p) => p < P
    case NotifyB(p) => p < P
    case WaitB(p) => p < P
    case Gather(c) => c < P
    case _ => true
  }

  function Advance(P: nat, pc: Pc): (next: Pc)
    requires P >= 2 && PcOk(P, pc) && !pc.Done?
    ensures PcOk(P, next) && Position(P, next) == Position(P, pc) + 1
  {
    match pc
    case Stage => NotifyA(0)
    case NotifyA(p) => if p + 1 < P then NotifyA(p + 1) else WaitA(0)
    case WaitA(p) => if p + 1 < P then WaitA(p + 1) else LoadOwn
    case LoadOwn => Accum(0)
    case Accum(p) => if p + 1 < P then Accum(p + 1) else StoreResult
    case StoreResult => NotifyB(0)
    case NotifyB(p) => if p + 1 < P then NotifyB(p + 1) else WaitB(0)
    case WaitB(p) => if p + 1 < P then WaitB(p + 1) else Gather(0)
    case Gather(c) => if c + 1 < P then Gather(c + 1) else Done
  }

  /** Actions performed so far. */
  function Position(P: nat, pc: Pc): (n: nat)
    requires P >= 2
    ensures PcOk(P, pc) ==> n <= 3 + 6 * P
  {
    match pc
    case Stage => 0
    case NotifyA(p) => 1 + p
    case WaitA(p) => 1 + P + p
    case LoadOwn => 1 + 2 * P
    case Accum(p) => 2 + 2 * P + p
    case StoreResult => 2 + 3 * P
    case NotifyB(p) => 3 + 3 * P + p
    case WaitB(p) => 3 + 4 * P + p
    case Gather(c) => 3 + 5 * P + c
    case Done => 3 + 6 * P
  }

  datatype State<V> = State(
    pc: seq<Pc>,
    data: seq<seq<V>>,           // data[r][c]: chunk c of rank r's staged input
    result: seq<seq<V>>,         // result[r][c]: rank r's result window
    acc: seq<V>,
    sig: seq<seq<seq<nat>>>,     // sig[r][row][src]: rank r's signal cells, rows 0 (A) and 1 (B)
    out: seq<seq<V>>)

  ghost predicate Shape<V>(P: nat, s: State<V>) {
    && |s.pc| == |s.data| == |s.result| == |s.acc| == |s.sig| == |s.out| == P
    && (forall r :: 0 <= r < P ==> PcOk(P, s.pc[r]) && |s.data[r]| == P && |s.result[r]| == P && |s.out[r]| == P)
    && (forall r :: 0 <= r < P ==> |s.sig[r]| == 2)
    && (forall r, row :: 0 <= r < P && 0 <= row < 2 ==> |s.sig[r][row]| == P)
  }

  ghost predicate Init<V>(cfg: Config<V>, s: State<V>)
    requires cfg.Ok()
  {
    && Shape(cfg.P, s)
    && (forall r :: 0 <= r < cfg.P ==> s.pc[r] == Stage)
    && (forall r, row, src :: 0 <= r < cfg.P && 0 <= row < 2 && 0 <= src < cfg.P ==> s.sig[r][row][src] == 0)
  }

  /** A wait needs its cell at 1 or more; a rank does not wait for itself. */
  ghost predicate Enabled<V>(cfg: Config<V>, s: State<V>, r: nat)
    requires cfg.Ok() && Shape(cfg.P, s) && r < cfg.P
  {
    match s.pc[r]
    case WaitA(src) => src != r ==> s.sig[r][0][src] >= 1
    case WaitB(src) => src != r ==> s.sig[r][1][src] >= 1
    case Done => false
    case _ => true
  }

  ghost function Effect<V>(cfg: Config<V>, s: State<V>, r: nat): (t: State<V>)
    requires cfg.Ok() && Shape(cfg.P, s) && r < cfg.P
    ensures Shape(cfg.P, t) && t.pc == s.pc
  {
    match s.pc[r]
    case Stage => s.(data := s.data[r := cfg.x[r]])
    case NotifyA(p) => if p == r then s else s.(sig := AddSignal(s.sig, p, 0, r))
    case LoadOwn => s.(acc := s.acc[r := s.data[r][r]])
    case Accum(p) => if p == r then s else s.(acc := s.acc[r := cfg.add(s.acc[r], s.data[p][r])])
    case StoreResult => s.(result := s.result[r := s.result[r][r := s.acc[r]]])
    case NotifyB(p) => if p == r then s else s.(sig := AddSignal(s.sig, p, 1, r))
    case Gather(c) => s.(out := s.out[r := s.out[r][c := s.result[c][c]]])
    case _ => s
  }

  ghost function Step<V>(cfg: Config<V>, s: State<V>, r: nat): (t: State<V>)
    requires cfg.Ok() && Shape(cfg.P, s) && r < cfg.P && Enabled(cfg, s, r)
    ensures Shape(cfg.P, t)
  {
    Effect(cfg, s, r).(pc := s.pc[r := Advance(cfg.P, s.pc[r])])
  }

  ghost predicate Moves<V>(cfg: Config<V>, s: State<V>, t: State<V>)
    requires cfg.Ok()
  {
    Shape(cfg.P, s) && exists r: nat :: r < cfg.P && Enabled(cfg, s, r) && t == Step(cfg, s, r)
  }

  ghost predicate Run<V>(cfg: Config<V>, run: seq<State<V>>)
    requires cfg.Ok()
  {
    run != [] && Init(cfg, run[0]) && forall i :: 0 <= i < |run| - 1 ==> Moves(cfg, run[i], run[i + 1])
  }

  ghost predicate Finished<V>(cfg: Config<V>, s: State<V>)
    requires cfg.Ok() && Shape(cfg.P, s)
  {
    forall r :: 0 <= r < cfg.P ==> s.pc[r].Done?
  }

  // ---------------------------------------------------------------- invariant

  /** The finished chunk `c`: rank `c`'s own contribution, then the other ranks in order. */
  ghost function Reduced<V>(cfg: Config<V>, c: nat): V
    requires cfg.Ok() && c < cfg.P
  {
    FoldPeers(Column(cfg.x, c), cfg.add, c, cfg.P)
  }

  /** Rank `src` has raised its cell on rank `r` in the given row. */
  ghost predicate HasNotified(P: nat, pcSrc: Pc, row: nat, r: nat)
    requires P >= 2
  {
    Position(P, pcSrc) > (if row == 0 then 1 else 3 + 3 * P) + r
  }

  /** Rank `r` has seen the cell of `src` in the given row. */
  ghost predicate HasSeen(P: nat, pc: Pc, row: nat, src: nat)
    requires P >= 2
  {
    Position(P, pc) > (if row == 0 then 1 + P else 3 + 4 * P) + src
  }

  /** `src` has stored what barrier A (row 0) or B (row 1) protects. */
  ghost predicate HasStored(P: nat, pc: Pc, row: nat)
    requires P >= 2
  {
    Position(P, pc) > if row == 0 then 0 else 2 + 3 * P
  }

  /** The cell of `src` on rank `r` says whether `src` has notified, and a wait that has
      passed it means that `src` has stored. */
  ghost predicate RowOk(P: nat, r: nat, src: nat, row: nat, pc: Pc, pcSrc: Pc, cell: nat)
    requires P >= 2
  {
    && cell == (if src != r && HasNotified(P, pcSrc, row, r) then 1 else 0)
    && (HasSeen(P, pc, row, src) ==> HasStored(P, pcSrc, row))
  }

  ghost predicate PairOk<V>(cfg: Config<V>, s: State<V>, r: nat, src: nat)
    requires cfg.Ok() && Shape(cfg.P, s) && r < cfg.P && src < cfg.P
  {
    && RowOk(cfg.P, r, src, 0, s.pc[r], s.pc[src], s.sig[r][0][src])
    && RowOk(cfg.P, r, src, 1, s.pc[r], s.pc[src], s.sig[r][1][src])
  }

  ghost predicate RankOk<V>(cfg: Config<V>, s: State<V>, r: nat)
    requires cfg.Ok() && Shape(cfg.P, s) && r < cfg.P
  {
    && (HasStored(cfg.P, s.pc[r], 0) ==> s.data[r] == cfg.x[r])
    && (HasStored(cfg.P, s.pc[r], 1) ==> s.result[r][r] == Reduced(cfg, r) && s.acc[r] == Reduced(cfg, r))
    && (match s.pc[r]
        case Accum(p) => s.acc[r] == FoldPeers(Column(cfg.x, r), cfg.add, r, p)
        case StoreResult => s.acc[r] == Reduced(cfg, r)
        case Gather(c) => forall j :: 0 <= j < c ==> s.out[r][j] == Reduced(cfg, j)
        case Done => forall j :: 0 <= j < cfg.P ==> s.out[r][j] == Reduced(cfg, j)
        case _ => true)
  }

  ghost predicate Inv<V>(cfg: Config<V>, s: State<V>)
    requires cfg.Ok()
  {
    && Shape(cfg.P, s)
    && (forall r :: 0 <= r < cfg.P ==> RankOk(cfg, s, r))
    && (forall r, src :: 0 <= r < cfg.P && 0 <= src < cfg.P ==> PairOk(cfg, s, r, src))
  }

  /** Past barrier A every rank's input is staged; past barrier B every reduced chunk is. */
  lemma BarriersHold<V>(cfg: Config<V>, s: State<V>, r: nat, q: nat)
    requires cfg.Ok() && Inv(cfg, s) && r < cfg.P && q < cfg.P
    ensures Position(cfg.P, s.pc[r]) >= Position(cfg.P, LoadOwn) ==> s.data[q] == cfg.x[q]
    ensures Position(cfg.P, s.pc[r]) >= Position(cfg.P, Gather(0)) ==> s.result[q][q] == Reduced(cfg, q)
  {
    assert PairOk(cfg, s, r, q) && RankOk(cfg, s, q);
    assert HasSeen(cfg.P, s.pc[r], 0, q) ==> HasStored(cfg.P, s.pc[q], 0);
    assert HasSeen(cfg.P, s.pc[r], 1, q) ==> HasStored(cfg.P, s.pc[q], 1);
  }

  lemma StepKeepsRank<V>(cfg: Config<V>, s: State<V>, r: nat)
    requires cfg.Ok() && Shape(cfg.P, s) && r < cfg.P && Enabled(cfg, s, r) && RankOk(cfg, s, r)
    requires s.pc[r].Accum? ==> s.data[s.pc[r].p] == cfg.x[s.pc[r].p]
    requires s.pc[r].Gather? ==> s.result[s.pc[r].c][s.pc[r].c] == Reduced(cfg, s.pc[r].c)
    ensures RankOk(cfg, Step(cfg, s, r), r)
  {
  }

  /** A step raises the one cell it notifies. */
  lemma CellAfter<V>(cfg: Config<V>, s: State<V>, r: nat, q: nat, src: nat, row: nat)
    requires cfg.Ok() && Shape(cfg.P, s) && r < cfg.P && Enabled(cfg, s, r) && q < cfg.P && src < cfg.P && row < 2
    ensures Step(cfg, s, r).sig[q][row][src]
         == s.sig[q][row][src]
            + if src == r && q != r && s.pc[r] == (if row == 0 then NotifyA(q) else NotifyB(q)) then 1 else 0
  {
  }

  /** What a step of rank `r` does to one pair of ranks, told from their program counters. */
  lemma RowAfter(P: nat, q: nat, src: nat, row: nat, r: nat, pc: Pc, pcSrc: Pc, cell: nat)
    requires P >= 2 && q < P && src < P && row < 2 && PcOk(P, pc) && PcOk(P, pcSrc) && (q == src ==> pc == pcSrc)
    requires RowOk(P, q, src, row, pc, pcSrc, cell)
    requires r == q ==> !pc.Done? && (pc == (if row == 0 then WaitA(src) else WaitB(src)) && src != q ==> cell >= 1)
    requires r == src ==> !pcSrc.Done?
    ensures RowOk(P, q, src, row, if r == q then Advance(P, pc) else pc, if r == src then Advance(P, pcSrc) else pcSrc,
                  cell + if src == r && q != r && pcSrc == (if row == 0 then NotifyA(q) else NotifyB(q)) then 1 else 0)
  {
  }

  lemma StepKeepsRow<V>(cfg: Config<V>, s: State<V>, r: nat, q: nat, src: nat, row: nat)
    requires cfg.Ok() && Shape(cfg.P, s) && r < cfg.P && Enabled(cfg, s, r) && q < cfg.P && src < cfg.P && row < 2
    requires RowOk(cfg.P, q, src, row, s.pc[q], s.pc[src], s.sig[q][row][src])
    ensures var t := Step(cfg, s, r); RowOk(cfg.P, q, src, row, t.pc[q], t.pc[src], t.sig[q][row][src])
  {
    CellAfter(cfg, s, r, q, src, row);
    RowAfter(cfg.P, q, src, row, r, s.pc[q], s.pc[src], s.sig[q][row][src]);
  }

  lemma StepKeepsPair<V>(cfg: Config<V>, s: State<V>, r: nat, q: nat, src: nat)
    requires cfg.Ok() && Shape(cfg.P, s) && r < cfg.P && Enabled(cfg, s, r) && q < cfg.P && src < cfg.P
    requires PairOk(cfg, s, q, src)
    ensures PairOk(cfg, Step(cfg, s, r), q, src)
  {
    StepKeepsRow(cfg, s, r, q, src, 0);
    StepKeepsRow(cfg, s, r, q, src, 1);
  }

  lemma StepKeepsInv<V>(cfg: Config<V>, s: State<V>, r: nat)
    requires cfg.Ok() && Inv(cfg, s) && r < cfg.P && Enabled(cfg, s, r)
    ensures Inv(cfg, Step(cfg, s, r))
  {
    var t := Step(cfg, s, r);
    assert RankOk(cfg, s, r);
    if s.pc[r].Accum? {
      BarriersHold(cfg, s, r, s.pc[r].p);
    } else if s.pc[r].Gather? {
      BarriersHold(cfg, s, r, s.pc[r].c);
    }
    StepKeepsRank(cfg, s, r);
    forall q | 0 <= q < cfg.P
      ensures RankOk(cfg, t, q)
    {
      assert RankOk(cfg, s, q);
    }
    forall q, src | 0 <= q < cfg.P && 0 <= src < cfg.P
      ensures PairOk(cfg, t, q, src)
    {
      assert PairOk(cfg, s, q, src);
      StepKeepsPair(cfg, s, r, q, src);
    }
  }

  lemma MoveKeepsInv<V>(cfg: Config<V>, s: State<V>, t: State<V>)
    requires cfg.Ok() && Inv(cfg, s) && Moves(cfg, s, t)
    ensures Inv(cfg, t)
  {
    var r: nat :| r < cfg.P && Enabled(cfg, s, r) && t == Step(cfg, s, r);
    StepKeepsInv(cfg, s, r);
  }

  lemma {:induction false} RunKeepsInv<V>(cfg: Config<V>, run: seq<State<V>>, i: nat)
    requires cfg.Ok() && Run(cfg, run) && i < |run|
    ensures Inv(cfg, run[i])
    decreases i
  {
    if i > 0 {
      RunKeepsInv(cfg, run, i - 1);
      assert Moves(cfg, run[i - 1], run[i - 1 + 1]);
      MoveKeepsInv(cfg, run[i - 1], run[i]);
    }
  }

  // ---------------------------------------------------------------- theorems

  /** In every run: past barrier A all inputs are staged, past barrier B all reduced
      chunks are, so no remote read can see a window before or between its stores. */
  lemma BarriersProtect<V>(cfg: Config<V>, run: seq<State<V>>, i: nat, r: nat, q: nat)
    requires cfg.Ok() && Run(cfg, run) && i < |run| && r < cfg.P && q < cfg.P
    ensures Shape(cfg.P, run[i])
    ensures Position(cfg.P, run[i].pc[r]) >= Position(cfg.P, LoadOwn) ==> run[i].data[q] == cfg.x[q]
    ensures Position(cfg.P, run[i].pc[r]) >= Position(cfg.P, Gather(0)) ==> run[i].result[q][q] == Reduced(cfg, q)
  {
    RunKeepsInv(cfg, run, i);
    BarriersHold(cfg, run[i], r, q);
  }

  /** Once a rank can read behind a barrier, no rank is about to store what it protects. */
  lemma NoLateStore<V>(cfg: Config<V>, run: seq<State<V>>, i: nat, r: nat, q: nat)
    requires cfg.Ok() && Run(cfg, run) && i < |run| && r < cfg.P && q < cfg.P
    ensures Shape(cfg.P, run[i])
    ensures Position(cfg.P, run[i].pc[r]) >= Position(cfg.P, LoadOwn) ==> !run[i].pc[q].Stage?
    ensures Position(cfg.P, run[i].pc[r]) >= Position(cfg.P, Gather(0)) ==>
              Position(cfg.P, run[i].pc[q]) > Position(cfg.P, StoreResult)
  {
    RunKeepsInv(cfg, run, i);
    assert PairOk(cfg, run[i], r, q);
    assert HasSeen(cfg.P, run[i].pc[r], 0, q) ==> HasStored(cfg.P, run[i].pc[q], 0);
    assert HasSeen(cfg.P, run[i].pc[r], 1, q) ==> HasStored(cfg.P, run[i].pc[q], 1);
  }

  /** Every finished run gives every rank the same chunks, however `add` associates. */
  lemma Agreement<V>(cfg: Config<V>, run: seq<State<V>>, r: nat, c: nat)
    requires cfg.Ok() && Run(cfg, run) && r < cfg.P && c < cfg.P
    requires Shape(cfg.P, run[|run| - 1]) && Finished(cfg, run[|run| - 1])
    ensures run[|run| - 1].out[r][c] == Reduced(cfg, c)
  {
    RunKeepsInv(cfg, run, |run| - 1);
    assert RankOk(cfg, run[|run| - 1], r);
  }

  /** No rank ever stores a chunk of its result window other than its own. */
  lemma {:induction false} OtherResultsKept<V>(cfg: Config<V>, run: seq<State<V>>, i: nat, r: nat, c: nat)
    requires cfg.Ok() && Run(cfg, run) && i < |run| && r < cfg.P && c < cfg.P && c != r
    ensures Shape(cfg.P, run[0]) && Shape(cfg.P, run[i])
    ensures run[i].result[r][c] == run[0].result[r][c]
    decreases i
  {
    if i > 0 {
      OtherResultsKept(cfg, run, i - 1, r, c);
      assert Moves(cfg, run[i - 1], run[i - 1 + 1]);
    }
  }

  /** What a finished run leaves of one rank. */
  lemma FinishedRank<V>(cfg: Config<V>, run: seq<State<V>>, r: nat, last: State<V>)
    requires cfg.Ok() && Run(cfg, run) && r < cfg.P && last == run[|run| - 1]
    requires Shape(cfg.P, last) && Finished(cfg, last)
    ensures last.pc[r] == Done && last.data[r] == cfg.x[r] && last.acc[r] == last.result[r][r] == Reduced(cfg, r)
    ensures forall c :: 0 <= c < cfg.P ==> last.out[r][c] == Reduced(cfg, c)
    ensures forall src :: 0 <= src < cfg.P ==> last.sig[r][0][src] == last.sig[r][1][src] == if src == r then 0 else 1
  {
    RunKeepsInv(cfg, run, |run| - 1);
    assert RankOk(cfg, last, r);
    forall src | 0 <= src < cfg.P
      ensures last.sig[r][0][src] == last.sig[r][1][src] == if src == r then 0 else 1
    {
      assert PairOk(cfg, last, r, src);
    }
  }

  lemma SameRank<V>(cfg: Config<V>, run: seq<State<V>>, run': seq<State<V>>, r: nat, s: State<V>, t: State<V>)
    requires cfg.Ok() && Run(cfg, run) && Run(cfg, run') && run[0].result == run'[0].result && r < cfg.P
    requires s == run[|run| - 1] && t == run'[|run'| - 1]
    requires Shape(cfg.P, s) && Finished(cfg, s) && Shape(cfg.P, t) && Finished(cfg, t)
    ensures s.pc[r] == t.pc[r] && s.data[r] == t.data[r] && s.result[r] == t.result[r] && s.acc[r] == t.acc[r]
    ensures s.sig[r] == t.sig[r] && s.out[r] == t.out[r]
  {
    FinishedRank(cfg, run, r, s);
    FinishedRank(cfg, run', r, t);
    forall c | 0 <= c < cfg.P
      ensures s.result[r][c] == t.result[r][c]
    {
      if c != r {
        OtherResultsKept(cfg, run, |run| - 1, r, c);
        OtherResultsKept(cfg, run', |run'| - 1, r, c);
      }
    }
    assert s.sig[r][0] == t.sig[r][0] && s.sig[r][1] == t.sig[r][1];
  }

  /** Any two finished runs end in the same state, whatever the interleaving and however
      `add` associates: same windows, signals, registers and outputs. The chunks of a
      result window that its rank does not own keep what they held at the start. */
  lemma Confluence<V>(cfg: Config<V>, run: seq<State<V>>, run': seq<State<V>>)
    requires cfg.Ok() && Run(cfg, run) && Run(cfg, run') && run[0].result == run'[0].result
    requires Shape(cfg.P, run[|run| - 1]) && Finished(cfg, run[|run| - 1])
    requires Shape(cfg.P, run'[|run'| - 1]) && Finished(cfg, run'[|run'| - 1])
    ensures run[|run| - 1] == run'[|run'| - 1]
    ensures forall r, c :: 0 <= r < cfg.P && 0 <= c < cfg.P && c != r ==> ResultAt(run, r, c) == run[0].result[r][c]
  {
    var s, t := run[|run| - 1], run'[|run'| - 1];
    forall r | 0 <= r < cfg.P
      ensures s.pc[r] == t.pc[r] && s.data[r] == t.data[r] && s.result[r] == t.result[r] && s.acc[r] == t.acc[r]
      ensures s.sig[r] == t.sig[r] && s.out[r] == t.out[r]
    {
      SameRank(cfg, run, run', r, s, t);
    }
    assert s.pc == t.pc && s.data == t.data && s.result == t.result && s.acc == t.acc && s.sig == t.sig
        && s.out == t.out;
    forall r, c | 0 <= r < cfg.P && 0 <= c < cfg.P && c != r
      ensures ResultAt(run, r, c) == run[0].result[r][c]
    {
      OtherResultsKept(cfg, run, |run| - 1, r, c);
    }
  }

  ghost function ResultAt<V>(run: seq<State<V>>, r: nat, c: nat): V
    requires run != [] && r < |run[|run| - 1].result| && c < |run[|run| - 1].result[r]|
  {
    run[|run| - 1].result[r][c]
  }

  /** Over reals the outputs are the element-wise sum of the flat inputs. */
  lemma TwoPhaseComputesAllReduce(cfg: Config<seq<real>>, chunk: nat, run: seq<State<seq<real>>>, r: nat)
    requires cfg.Ok() && cfg.add == AddTiles && Run(cfg, run) && r < cfg.P
    requires forall q, c :: 0 <= q < cfg.P && 0 <= c < cfg.P ==> |cfg.x[q][c]| == chunk
    requires Shape(cfg.P, run[|run| - 1]) && Finished(cfg, run[|run| - 1])
    ensures Even(cfg.x, chunk) && HoldsSums(run[|run| - 1].out[r], cfg.x, chunk)
    ensures Flat(run[|run| - 1].out[r]) == RowSum(cfg.x, cfg.P - 1)
  {
    AddTilesAssocComm();
    var out := run[|run| - 1].out[r];
    forall c | 0 <= c < cfg.P
      ensures out[c] == RankSum(Column(cfg.x, c), AddTiles, 0, cfg.P - 1)
    {
      Agreement(cfg, run, r, c);
      FoldAll(Column(cfg.x, c), AddTiles, c);
    }
    FlatOfSums(cfg.x, chunk, out, cfg.P - 1);
    SumsHeld(out, cfg.x, chunk);
  }

  // ---------------------------------------------------------------- progress

  ghost function Slowest(P: nat, pcs: seq<Pc>, n: nat): (r: nat)
    requires P >= 2 && 0 < n <= |pcs|
    ensures r < n && forall q :: 0 <= q < n ==> Position(P, pcs[r]) <= Position(P, pcs[q])
  {
    if n == 1 then 0
    else
      var r := Slowest(P, pcs, n - 1);
      if Position(P, pcs[n - 1]) < Position(P, pcs[r]) then n - 1 else r
  }

  /** No deadlock: the least advanced rank of an unfinished state can always move. */
  lemma Progress<V>(cfg: Config<V>, s: State<V>) returns (r: nat)
    requires cfg.Ok() && Inv(cfg, s) && !Finished(cfg, s)
    ensures r < cfg.P && Enabled(cfg, s, r)
  {
    r := Slowest(cfg.P, s.pc, cfg.P);
    var unfinished: nat :| unfinished < cfg.P && !s.pc[unfinished].Done?;
    assert Position(cfg.P, s.pc[r]) <= Position(cfg.P, s.pc[unfinished]);
    assert PcOk(cfg.P, s.pc[unfinished]);
    match s.pc[r]
    case WaitA(src) => assert PairOk(cfg, s, r, src);
      assert src != r ==> HasNotified(cfg.P, s.pc[src], 0, r);
    case WaitB(src) => assert PairOk(cfg, s, r, src);
      assert src != r ==> HasNotified(cfg.P, s.pc[src], 1, r);
    case _ =>
  }

  /** Actions left, over the first `n` ranks. */
  ghost function Remaining(P: nat, pcs: seq<Pc>, n: nat): nat
    requires P >= 2 && n <= |pcs| && forall r :: 0 <= r < n ==> PcOk(P, pcs[r])
  {
    if n == 0 then 0 else Remaining(P, pcs, n - 1) + Position(P, Done) - Position(P, pcs[n - 1])
  }

  lemma {:induction false} RemainingDrops(P: nat, pcs: seq<Pc>, r: nat, n: nat)
    requires P >= 2 && n <= |pcs| && r < |pcs| && !pcs[r].Done?
    requires forall q :: 0 <= q < |pcs| ==> PcOk(P, pcs[q])
    ensures Remaining(P, pcs[r := Advance(P, pcs[r])], n) == Remaining(P, pcs, n) - if r < n then 1 else 0
  {
    if n > 0 {
      RemainingDrops(P, pcs, r, n - 1);
    }
  }

  /** Every step uses up exactly one action of a fixed budget, so every run ends, and all
      complete runs have the same length. */
  lemma StepSpends<V>(cfg: Config<V>, s: State<V>, r: nat)
    requires cfg.Ok() && Shape(cfg.P, s) && r < cfg.P && Enabled(cfg, s, r)
    ensures Remaining(cfg.P, Step(cfg, s, r).pc, cfg.P) == Remaining(cfg.P, s.pc, cfg.P) - 1
  {
    RemainingDrops(cfg.P, s.pc, r, cfg.P);
  }

  lemma OutputsReady<V>(cfg: Config<V>, s: State<V>)
    requires cfg.Ok() && Inv(cfg, s) && Finished(cfg, s)
    ensures forall r, c :: 0 <= r < cfg.P && 0 <= c < cfg.P ==> s.out[r][c] == Reduced(cfg, c)
  {
    forall r, c | 0 <= r < cfg.P && 0 <= c < cfg.P
      ensures s.out[r][c] == Reduced(cfg, c)
    {
      assert RankOk(cfg, s, r);
    }
  }

  /** The windows, signals and accumulators of all ranks, updated in place. */
  class TwoPhaseMachine<V(0)> {
    const P: nat
    const x: seq<seq<V>>
    const add: (V, V) -> V
    var pc: array<Pc>
    var data: array2<V>
    var result: array2<V>
    var acc: array<V>
    var sig: array3<nat>
    var out: array2<V>
    ghost var abs: State<V>      // the state these arrays represent

    ghost function Cfg(): Config<V> { Config(P, x, add) }

    ghost predicate Valid()
      reads this, pc, data, result, acc, sig, out
    {
      && Cfg().Ok() && Shape(P, abs)
      && data != result && data != out && result != out && (pc as object) != acc
      && pc.Length == acc.Length == P
      && data.Length0 == data.Length1 == result.Length0 == result.Length1 == out.Length0 == out.Length1 == P
      && sig.Length0 == P && sig.Length1 == 2 && sig.Length2 == P
      && (forall r :: 0 <= r < P ==> pc[r] == abs.pc[r] && acc[r] == abs.acc[r])
      && (forall r, c :: 0 <= r < P && 0 <= c < P ==>
            data[r, c] == abs.data[r][c] && result[r, c] == abs.result[r][c] && out[r, c] == abs.out[r][c])
      && (forall r, row, src :: 0 <= r < P && 0 <= row < 2 && 0 <= src < P ==> sig[r, row, src] == abs.sig[r][row][src])
    }

    /** Fresh windows hold anything; signal cells are zero-initialised. */
    constructor (P: nat, x: seq<seq<V>>, add: (V, V) -> V)
      requires P >= 2 && Square(P, x)
      ensures Valid() && this.P == P && this.x == x && this.add == add
      ensures fresh(pc) && fresh(data) && fresh(result) && fresh(acc) && fresh(sig) && fresh(out)
      ensures Init(Cfg(), abs)
    {
      this.P, this.x, this.add := P, x, add;
      pc := new Pc[P](_ => Stage);
      data := new V[P, P];
      result := new V[P, P];
      acc := new V[P];
      sig := new nat[P, 2, P]((_, _, _) => 0);
      out := new V[P, P];
      new;
      abs := State(pc[..], WindowRows(data), WindowRows(result), acc[..], NoSignals(P, 2), WindowRows(out));
    }

    predicate CanMove(r: nat)
      requires Valid() && r < P
      reads this, pc, data, result, acc, sig, out
      ensures CanMove(r) == Enabled(Cfg(), abs, r)
    {
      match pc[r]
      case WaitA(src) => src != r ==> sig[r, 0, src] >= 1
      case WaitB(src) => src != r ==> sig[r, 1, src] >= 1
      case Done => false
      case _ => true
    }

    /** Phase 1: store the whole input row into the data window. */
    method StageInput(r: nat)
      requires Valid() && r < P
      modifies `abs, data
      ensures Valid() && abs == old(abs).(data := old(abs).data[r := x[r]])
    {
      forall c | 0 <= c < P {
        data[r, c] := x[r][c];
      }
      abs := abs.(data := abs.data[r := x[r]]);
    }

    /** `pld.system.notify` with `AtomicAdd` of 1. */
    method Notify(peer: nat, row: nat, src: nat)
      requires Valid() && peer < P && row < 2 && src < P
      modifies `abs, sig
      ensures Valid() && abs == old(abs).(sig := AddSignal(old(abs).sig, peer, row, src))
    {
      sig[peer, row, src] := sig[peer, row, src] + 1;
      abs := abs.(sig := AddSignal(abs.sig, peer, row, src));
    }

    method SetAcc(r: nat, v: V)
      requires Valid() && r < P
      modifies `abs, acc
      ensures Valid() && abs == old(abs).(acc := old(abs).acc[r := v])
    {
      acc[r] := v;
      abs := abs.(acc := abs.acc[r := v]);
    }

    method StoreReduced(r: nat)
      requires Valid() && r < P
      modifies `abs, result
      ensures Valid() && abs == old(abs).(result := old(abs).result[r := old(abs).result[r][r := old(abs).acc[r]]])
    {
      result[r, r] := acc[r];
      abs := abs.(result := abs.result[r := abs.result[r][r := abs.acc[r]]]);
    }

    method GatherChunk(r: nat, c: nat)
      requires Valid() && r < P && c < P
      modifies `abs, out
      ensures Valid() && abs == old(abs).(out := old(abs).out[r := old(abs).out[r][c := old(abs).result[c][c]]])
    {
      out[r, c] := result[c, c];
      abs := abs.(out := abs.out[r := abs.out[r][c := abs.result[c][c]]]);
    }

    method SetPc(r: nat, next: Pc)
      requires Valid() && r < P && PcOk(P, next)
      modifies `abs, pc
      ensures Valid() && abs == old(abs).(pc := old(abs).pc[r := next])
    {
      pc[r] := next;
      abs := abs.(pc := abs.pc[r := next]);
    }

    method Perform(r: nat)
      requires Valid() && r < P
      modifies `abs, data, result, acc, sig, out
      ensures Valid() && abs == Effect(Cfg(), old(abs), r)
    {
      match pc[r] {
        case Stage => StageInput(r);
        case NotifyA(p) => if p != r { Notify(p, 0, r); }
        case WaitA(_) =>
        case LoadOwn => SetAcc(r, data[r, r]);
        case Accum(p) => if p != r { SetAcc(r, add(acc[r], data[p, r])); }
        case StoreResult => StoreReduced(r);
        case NotifyB(p) => if p != r { Notify(p, 1, r); }
        case WaitB(_) =>
        case Gather(c) => GatherChunk(r, c);
        case Done =>
      }
    }

    /** Rank `r` performs its next action on the shared arrays. */
    method Act(r: nat)
      requires Valid() && r < P && CanMove(r)
      modifies `abs, pc, data, result, acc, sig, out
      ensures Valid() && abs == Step(Cfg(), old(abs), r)
    {
      var at := pc[r];
      Perform(r);
      SetPc(r, Advance(P, at));
    }

    method Schedule() returns (r: nat)
      requires Valid() && Inv(Cfg(), abs)
      ensures r <= P && (r == P <==> Finished(Cfg(), abs))
      ensures r < P ==> CanMove(r)
    {
      if r': nat :| r' < P && CanMove(r') {
        r := r';
      } else {
        r := P;
        if !Finished(Cfg(), abs) {
          ghost var q := Progress(Cfg(), abs);
          assert CanMove(q);
        }
      }
    }

    /** One turn of the scheduler: the invariant stays and the run gets shorter. */
    method Turn(r: nat)
      requires Valid() && Inv(Cfg(), abs) && r < P && CanMove(r)
      modifies `abs, pc, data, result, acc, sig, out
      ensures Valid() && Inv(Cfg(), abs)
      ensures Remaining(P, abs.pc, P) < old(Remaining(P, abs.pc, P))
    {
      StepKeepsInv(Cfg(), abs, r);
      StepSpends(Cfg(), abs, r);
      Act(r);
    }

    /** Any schedule runs to the end. */
    method RunToEnd()
      requires Valid() && Inv(Cfg(), abs)
      modifies `abs, pc, data, result, acc, sig, out
      ensures Valid() && Inv(Cfg(), abs) && Finished(Cfg(), abs)
    {
      var r: nat := Schedule();
      while r < P
        invariant Valid() && Inv(Cfg(), abs) && r <= P
        invariant r == P <==> Finished(Cfg(), abs)
        invariant r < P ==> CanMove(r)
        decreases Remaining(P, abs.pc, P)
      {
        Turn(r);
        r := Schedule();
      }
    }

    /** Whatever the schedule, every rank ends with the reduced chunks. */
    method AllReduce()
      requires Valid() && Init(Cfg(), abs)
      modifies `abs, pc, data, result, acc, sig, out
      ensures Valid() && Finished(Cfg(), abs)
      ensures forall r, c :: 0 <= r < P && 0 <= c < P ==> out[r, c] == Reduced(Cfg(), c)
    {
      RunToEnd();
      OutputsReady(Cfg(), abs);
    }
  }
}
