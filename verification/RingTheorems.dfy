/** What the ring guarantees over every run: no race, one result, progress. */
module RingTheorems {
  import opened Arithmetic
  import opened ChunkSums
  import opened Ring
  import opened RingInvariant

  // ---------------------------------------------------------------- races

  /** A store rank `q` is about to make never destroys a value its right neighbour
      still has to load: any load of that chunk still to come belongs to a later
      round, so it wants this store's value or a newer one. */
  ghost predicate StoreIsSafe<V>(cfg: Config<V>, s: State<V>, q: nat)
    requires cfg.Ok() && Shape(cfg.P, s) && q < cfg.P
  {
    var reader := Right(cfg.P, q);
    match s.pc[q]
    case Round(j, AtStore) =>
      forall k :: Loads(cfg.P, s.pc[reader]) <= k < cfg.Rounds() ==>
        (SendIdx(cfg.P, reader, k) == RecvIdx(cfg.P, q, j) ==> j < k)
    case StageIn(_) => !(s.pc[reader].Round? && !s.pc[reader].at.AtWait?)
    case _ => true
  }

  lemma RaceFreedom<V>(cfg: Config<V>, run: seq<State<V>>, i: nat, q: nat)
    requires cfg.Ok() && Run(cfg, run) && i < |run| && q < cfg.P
    ensures Shape(cfg.P, run[i]) && StoreIsSafe(cfg, run[i], q)
  {
    RunKeepsInv(cfg, run, i);
    SafeStore(cfg, run[i], q);
  }

  lemma SafeStore<V>(cfg: Config<V>, s: State<V>, q: nat)
    requires cfg.Ok() && Inv(cfg, s) && q < cfg.P
    ensures StoreIsSafe(cfg, s, q)
  {
    var reader := Right(cfg.P, q);
    assert RankOk(cfg, s, reader) && Left(cfg.P, reader) == q;
    if s.pc[q].Round? && s.pc[q].at.AtStore? {
      ReaderCloseBehind(cfg, s, q);
    }
  }

  /** When rank `q` is about to store, its right neighbour has loaded enough. */
  lemma ReaderCloseBehind<V>(cfg: Config<V>, s: State<V>, q: nat)
    requires cfg.Ok() && Inv(cfg, s) && q < cfg.P && s.pc[q].Round? && s.pc[q].at.AtStore?
    ensures s.pc[q].k + 2 <= Loads(cfg.P, s.pc[Right(cfg.P, q)]) + cfg.P
    ensures Left(cfg.P, Right(cfg.P, q)) == q != Right(cfg.P, q)
  {
    StepKeepsInv(cfg, s, q);
    LeftLead(cfg, Step(cfg, s, q), Right(cfg.P, q));
  }

  /** Every load, in every run, returns the value the schedule calls for, however far
      the ranks have drifted apart. */
  lemma LoadsAreFresh<V>(cfg: Config<V>, run: seq<State<V>>, i: nat, r: nat)
    requires cfg.Ok() && Run(cfg, run) && i < |run| && r < cfg.P
    requires Shape(cfg.P, run[i]) && run[i].pc[r].Round? && run[i].pc[r].at.AtLoad?
    ensures run[i].scratch[Left(cfg.P, r)][SendIdx(cfg.P, r, run[i].pc[r].k)] == Incoming(cfg, r, run[i].pc[r].k)
  {
    RunKeepsInv(cfg, run, i);
    LoadFindsIncoming(cfg, run[i], r);
  }

  /** After reduce-scatter round `k` (counted from 0) rank `r` holds, in the chunk it
      just stored, exactly the contributions of ranks `r, r-1, .., r-k-1`. */
  lemma ReduceScatterHolds<V>(cfg: Config<V>, run: seq<State<V>>, i: nat, r: nat, k: nat)
    requires cfg.Ok() && Run(cfg, run) && i < |run| && r < cfg.P && k < cfg.P - 1
    requires Shape(cfg.P, run[i]) && Stores(cfg.P, run[i].pc[r]) == k + 1
    ensures run[i].scratch[r][RecvIdx(cfg.P, r, k)] == Part(cfg, r, RecvIdx(cfg.P, r, k), k + 1)
  {
    RunKeepsInv(cfg, run, i);
    assert RankOk(cfg, run[i], r);
    ContentAfter(cfg, r, k, k + 1);
  }

  // ---------------------------------------------------------------- signals

  /** Every cell is 0 or 1, only the left neighbour's column is ever raised, and a
      raised row is one that neighbour has notified. */
  lemma SignalDiscipline<V>(cfg: Config<V>, run: seq<State<V>>, i: nat, r: nat, row: nat, col: nat)
    requires cfg.Ok() && Run(cfg, run) && i < |run| && r < cfg.P && row < cfg.Rounds() && col < cfg.P
    ensures Shape(cfg.P, run[i])
    ensures run[i].sig[r][row][col] <= 1
    ensures run[i].sig[r][row][col] == 1 <==> col == Left(cfg.P, r) && row < Notified(cfg.P, run[i].pc[col])
  {
    RunKeepsInv(cfg, run, i);
    assert RankOk(cfg, run[i], r);
  }

  // ---------------------------------------------------------------- results

  /** One result for everybody, however `add` associates: every finished run leaves the
      same nested sum of chunk `c` in every rank's window and output. */
  lemma Agreement<V>(cfg: Config<V>, run: seq<State<V>>, r: nat, c: nat)
    requires cfg.Ok() && Run(cfg, run) && r < cfg.P && c < cfg.P
    requires Shape(cfg.P, run[|run| - 1]) && Finished(cfg, run[|run| - 1])
    ensures run[|run| - 1].out[r][c] == Total(cfg, c)
    ensures run[|run| - 1].scratch[r][c] == Total(cfg, c)
  {
    RunKeepsInv(cfg, run, |run| - 1);
    assert RankOk(cfg, run[|run| - 1], r);
    ContentFinal(cfg, r, c);
  }

  /** Any two finished runs, whatever the interleaving and whatever the windows held
      at the start, end with the same windows, signals and outputs. */
  lemma Confluence<V>(cfg: Config<V>, run1: seq<State<V>>, run2: seq<State<V>>)
    requires cfg.Ok() && Run(cfg, run1) && Run(cfg, run2)
    requires Shape(cfg.P, run1[|run1| - 1]) && Finished(cfg, run1[|run1| - 1])
    requires Shape(cfg.P, run2[|run2| - 1]) && Finished(cfg, run2[|run2| - 1])
    ensures run1[|run1| - 1].scratch == run2[|run2| - 1].scratch
    ensures run1[|run1| - 1].sig == run2[|run2| - 1].sig
    ensures run1[|run1| - 1].out == run2[|run2| - 1].out
  {
    var s, t := run1[|run1| - 1], run2[|run2| - 1];
    forall r | 0 <= r < cfg.P
      ensures s.scratch[r] == t.scratch[r] && s.out[r] == t.out[r] && s.sig[r] == t.sig[r]
    {
      forall c | 0 <= c < cfg.P
        ensures s.scratch[r][c] == t.scratch[r][c] && s.out[r][c] == t.out[r][c]
      {
        Agreement(cfg, run1, r, c);
        Agreement(cfg, run2, r, c);
      }
      RunKeepsInv(cfg, run1, |run1| - 1);
      RunKeepsInv(cfg, run2, |run2| - 1);
      assert RankOk(cfg, s, r) && RankOk(cfg, t, r);
      forall row | 0 <= row < cfg.Rounds()
        ensures s.sig[r][row] == t.sig[r][row]
      {
      }
    }
  }

  /** The nested sum runs left from `q`; past rank 0 it goes on from rank `P - 1`. */
  lemma {:induction false} PartIsRankSum<V(!new)>(cfg: Config<V>, q: nat, c: nat, n: nat)
    requires cfg.Ok() && AssocComm(cfg.add) && q < cfg.P && c < cfg.P && n <= q
    ensures Part(cfg, q, c, n) == RankSum(Column(cfg.x, c), cfg.add, q - n, q)
    decreases n
  {
    if n > 0 {
      PartIsRankSum(cfg, q - 1, c, n - 1);
      var a, b := cfg.x[q][c], RankSum(Column(cfg.x, c), cfg.add, q - n, q - 1);
      assert CommAt(cfg.add, a, b);
    }
  }

  lemma {:induction false} PartWraps<V(!new)>(cfg: Config<V>, q: nat, c: nat, n: nat)
    requires cfg.Ok() && AssocComm(cfg.add) && c < cfg.P && q < n < cfg.P
    ensures Part(cfg, q, c, n)
         == cfg.add(RankSum(Column(cfg.x, c), cfg.add, 0, q), Part(cfg, cfg.P - 1, c, n - q - 1))
    decreases n
  {
    if q > 0 {
      PartWraps(cfg, q - 1, c, n - 1);
      var a, b := cfg.x[q][c], RankSum(Column(cfg.x, c), cfg.add, 0, q - 1);
      var rest := Part(cfg, cfg.P - 1, c, n - q - 1);
      assert AssocAt(cfg.add, a, b, rest) && CommAt(cfg.add, a, b);
    }
  }

  /** For an associative, commutative `add` the ring's nesting is the sum in rank order. */
  lemma TotalIsRankSum<V(!new)>(cfg: Config<V>, c: nat)
    requires cfg.Ok() && AssocComm(cfg.add) && c < cfg.P
    ensures Total(cfg, c) == RankSum(Column(cfg.x, c), cfg.add, 0, cfg.P - 1)
  {
    var P := cfg.P;
    if c == P - 1 {
      PartIsRankSum(cfg, c, c, P - 1);
    } else {
      PartWraps(cfg, c, c, P - 1);
      PartIsRankSum(cfg, P - 1, c, P - 2 - c);
      RankSumJoin(Column(cfg.x, c), cfg.add, 0, c, P - 1);
    }
  }

  /** `expected_allreduce`: over reals, with chunks of any one size, every finished run
      leaves on every rank the element-wise sum of all the flat inputs. */
  lemma RingComputesAllReduce(cfg: Config<seq<real>>, chunk: nat, run: seq<State<seq<real>>>, r: nat)
    requires cfg.Ok() && cfg.add == AddTiles && Run(cfg, run) && r < cfg.P
    requires forall q, c :: 0 <= q < cfg.P && 0 <= c < cfg.P ==> |cfg.x[q][c]| == chunk
    requires Shape(cfg.P, run[|run| - 1]) && Finished(cfg, run[|run| - 1])
    ensures Even(cfg.x, chunk) && HoldsSums(run[|run| - 1].out[r], cfg.x, chunk)
    ensures Flat(run[|run| - 1].out[r]) == RowSum(cfg.x, cfg.P - 1)
  {
    AddTilesAssocComm();
    var out := run[|run| - 1].out[r];
    forall c | 0 <= c < cfg.P
      ensures out[c] == RankSum(Column(cfg.x, c), AddTiles, 0, cfg.P - 1)
    {
      Agreement(cfg, run, r, c);
      TotalIsRankSum(cfg, c);
    }
    FlatOfSums(cfg.x, chunk, out, cfg.P - 1);
    SumsHeld(out, cfg.x, chunk);
  }

  // ---------------------------------------------------------------- progress

  /** The rank that has notified the fewest rows. */
  ghost function Slowest(P: nat, pcs: seq<Pc>, n: nat): (r: nat)
    requires P >= 2 && 0 < n <= |pcs|
    ensures r < n && forall q :: 0 <= q < n ==> Notified(P, pcs[r]) <= Notified(P, pcs[q])
  {
    if n == 1 then 0
    else
      var r := Slowest(P, pcs, n - 1);
      if Notified(P, pcs[n - 1]) < Notified(P, pcs[r]) then n - 1 else r
  }

  /** No deadlock: in every unfinished state of every run some rank can move. */
  lemma Progress<V>(cfg: Config<V>, s: State<V>) returns (r: nat)
    requires cfg.Ok() && Inv(cfg, s) && !Finished(cfg, s)
    ensures r < cfg.P && Enabled(cfg, s, r)
  {
    r := Slowest(cfg.P, s.pc, cfg.P);
    if s.pc[r].Done? {
      // the slowest has notified every row, so nobody can be waiting
      r :| 0 <= r < cfg.P && !s.pc[r].Done?;
    }
    assert RankOk(cfg, s, r);
  }

  /** How far a rank's program has got. */
  function Position(P: nat, pc: Pc): (n: nat)
    requires P >= 2 && PcOk(P, pc)
    ensures n <= 12 * P
  {
    match pc
    case StageIn(c) => c
    case Ready => P
    case Round(k, at) =>
      P + 1 + 5 * k + (match at case AtWait => 0 case AtLoad => 1 case AtAcc => 2 case AtStore => 3 case AtNotify => 4)
    case StageOut(c) => P + 1 + 10 * (P - 1) + c
    case Done => P + 1 + 10 * (P - 1) + P
  }

  /** Actions left, over the first `n` ranks. */
  ghost function Remaining(P: nat, pcs: seq<Pc>, n: nat): nat
    requires P >= 2 && n <= |pcs| && forall r :: 0 <= r < n ==> PcOk(P, pcs[r])
  {
    if n == 0 then 0 else Remaining(P, pcs, n - 1) + 12 * P - Position(P, pcs[n - 1])
  }

  lemma {:induction false} RemainingDrops(P: nat, pcs: seq<Pc>, r: nat, pc: Pc, n: nat)
    requires P >= 2 && n <= |pcs| && r < |pcs| && PcOk(P, pc)
    requires forall q :: 0 <= q < |pcs| ==> PcOk(P, pcs[q])
    requires Position(P, pcs[r]) < Position(P, pc)
    ensures Remaining(P, pcs[r := pc], n) <= Remaining(P, pcs, n)
    ensures r < n ==> Remaining(P, pcs[r := pc], n) < Remaining(P, pcs, n)
  {
    if n > 0 {
      RemainingDrops(P, pcs, r, pc, n - 1);
    }
  }

  /** Every step of any rank uses up part of a finite budget. */
  lemma StepShrinks<V>(cfg: Config<V>, s: State<V>, r: nat)
    requires cfg.Ok() && Shape(cfg.P, s) && r < cfg.P && Enabled(cfg, s, r)
    ensures Remaining(cfg.P, Step(cfg, s, r).pc, cfg.P) < Remaining(cfg.P, s.pc, cfg.P)
  {
    var next := Advance(cfg.P, s.pc[r]);
    assert Position(cfg.P, s.pc[r]) < Position(cfg.P, next);
    assert Step(cfg, s, r).pc == s.pc[r := next];
    RemainingDrops(cfg.P, s.pc, r, next, cfg.P);
  }

  lemma MoveShrinks<V>(cfg: Config<V>, s: State<V>, t: State<V>)
    requires cfg.Ok() && Moves(cfg, s, t)
    ensures Shape(cfg.P, t) && Remaining(cfg.P, t.pc, cfg.P) < Remaining(cfg.P, s.pc, cfg.P)
  {
    var r: nat :| r < cfg.P && Enabled(cfg, s, r) && t == Step(cfg, s, r);
    StepShrinks(cfg, s, r);
  }

  lemma {:induction false} RunSpendsBudget<V>(cfg: Config<V>, run: seq<State<V>>, n: nat)
    requires cfg.Ok() && Run(cfg, run) && n < |run|
    ensures Shape(cfg.P, run[0]) && Shape(cfg.P, run[n])
    ensures n + Remaining(cfg.P, run[n].pc, cfg.P) <= Remaining(cfg.P, run[0].pc, cfg.P)
    decreases n
  {
    RunKeepsInv(cfg, run, n);
    if n > 0 {
      RunSpendsBudget(cfg, run, n - 1);
      assert Moves(cfg, run[n - 1], run[n - 1 + 1]);
      MoveShrinks(cfg, run[n - 1], run[n]);
    }
  }

  /** Every run is finite: at most `12 * P` steps for each of the `P` ranks. */
  lemma RunsTerminate<V>(cfg: Config<V>, run: seq<State<V>>)
    requires cfg.Ok() && Run(cfg, run)
    ensures |run| - 1 <= 12 * cfg.P * cfg.P
  {
    RunSpendsBudget(cfg, run, |run| - 1);
    RemainingBound(cfg.P, run[0].pc, cfg.P);
  }

  lemma {:induction false} RemainingBound(P: nat, pcs: seq<Pc>, n: nat)
    requires P >= 2 && n <= |pcs| && forall q :: 0 <= q < n ==> PcOk(P, pcs[q])
    ensures Remaining(P, pcs, n) <= n * (12 * P)
  {
    if n > 0 {
      RemainingBound(P, pcs, n - 1);
      MulStep(n - 1, 12 * P);
    }
  }
}
