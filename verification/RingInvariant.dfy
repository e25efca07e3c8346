/** The invariant of the ring, rank by rank, and its preservation by every step. */
module RingInvariant {
  import opened ChunkSums
  import opened Ring

  /** A rank's signal cells: one writer, the left neighbour, which raises each row once. */
  ghost predicate SigOk<V>(cfg: Config<V>, r: nat, sig: seq<seq<nat>>, pcLeft: Pc)
    requires cfg.Ok() && r < cfg.P && |sig| == cfg.Rounds()
    requires forall row :: 0 <= row < cfg.Rounds() ==> |sig[row]| == cfg.P
  {
    forall row, col :: 0 <= row < cfg.Rounds() && 0 <= col < cfg.P ==>
      sig[row][col] == if col == Left(cfg.P, r) && row < Notified(cfg.P, pcLeft) then 1 else 0
  }

  /** A rank's window, as its own progress determines it. */
  ghost predicate ScratchOk<V>(cfg: Config<V>, r: nat, pc: Pc, window: seq<V>)
    requires cfg.Ok() && r < cfg.P && PcOk(cfg.P, pc) && |window| == cfg.P
  {
    match pc
    case StageIn(c) => forall j :: 0 <= j < c ==> window[j] == cfg.x[r][j]
    case _ => forall j :: 0 <= j < cfg.P ==> window[j] == Content(cfg, r, j, Stores(cfg.P, pc))
  }

  /** A rank's registers and output, as its own progress determines them. */
  ghost predicate LocalsOk<V>(cfg: Config<V>, r: nat, pc: Pc, recv: V, acc: V, out: seq<V>)
    requires cfg.Ok() && r < cfg.P && PcOk(cfg.P, pc) && |out| == cfg.P
  {
    match pc
    case Round(k, at) =>
      && (at.AtAcc? || at.AtStore? ==> recv == Incoming(cfg, r, k))
      && (at.AtStore? && k < cfg.P - 1 ==> acc == cfg.x[r][RecvIdx(cfg.P, r, k)])
    case StageOut(c) => forall j :: 0 <= j < c ==> out[j] == Total(cfg, j)
    case Done => forall j :: 0 <= j < cfg.P ==> out[j] == Total(cfg, j)
    case _ => true
  }

  /** What a rank knows of its left neighbour: a wait passed means the row was raised,
      and no rank is more than one round store ahead of its left neighbour. */
  ghost predicate PaceOk(P: nat, pc: Pc, pcLeft: Pc)
    requires P >= 2
  {
    && (pc.Round? && !pc.at.AtWait? ==> Notified(P, pcLeft) > pc.k)
    && Stores(P, pc) <= Stores(P, pcLeft) + 1
  }

  ghost predicate RankOk<V>(cfg: Config<V>, s: State<V>, r: nat)
    requires cfg.Ok() && Shape(cfg.P, s) && r < cfg.P
  {
    var pcLeft := s.pc[Left(cfg.P, r)];
    && SigOk(cfg, r, s.sig[r], pcLeft)
    && ScratchOk(cfg, r, s.pc[r], s.scratch[r])
    && LocalsOk(cfg, r, s.pc[r], s.recv[r], s.acc[r], s.out[r])
    && PaceOk(cfg.P, s.pc[r], pcLeft)
  }

  ghost predicate Inv<V>(cfg: Config<V>, s: State<V>)
    requires cfg.Ok()
  {
    Shape(cfg.P, s) && forall r :: 0 <= r < cfg.P ==> RankOk(cfg, s, r)
  }

  lemma InitEstablishesInv<V>(cfg: Config<V>, s: State<V>)
    requires cfg.Ok() && Init(cfg, s)
    ensures Inv(cfg, s)
  {
  }

  // ---------------------------------------------------------------- the wait chain

  /** The chain of waits: `j` hops to the left, a rank is at most `j` stores behind. */
  lemma {:induction false} Chain<V>(cfg: Config<V>, s: State<V>, r: nat, j: nat)
    requires cfg.Ok() && Inv(cfg, s) && r < cfg.P && j <= cfg.P
    ensures Stores(cfg.P, s.pc[r]) <= Stores(cfg.P, s.pc[Back(cfg.P, r, j)]) + j
    decreases j
  {
    if j > 0 {
      Chain(cfg, s, r, j - 1);
      var q := Back(cfg.P, r, j - 1);
      assert Left(cfg.P, q) == Back(cfg.P, r, j);
      assert RankOk(cfg, s, q);
    }
  }

  /** All the way round: the left neighbour of `r` is at most `P - 1` stores ahead of `r`. */
  lemma LeftLead<V>(cfg: Config<V>, s: State<V>, r: nat)
    requires cfg.Ok() && Inv(cfg, s) && r < cfg.P
    ensures Stores(cfg.P, s.pc[Left(cfg.P, r)]) <= Stores(cfg.P, s.pc[r]) + cfg.P - 1
  {
    Chain(cfg, s, Left(cfg.P, r), cfg.P - 1);
    assert Back(cfg.P, Left(cfg.P, r), cfg.P - 1) == r;
  }

  /** A load that has passed its wait finds exactly what the schedule wants. */
  lemma LoadFindsIncoming<V>(cfg: Config<V>, s: State<V>, r: nat)
    requires cfg.Ok() && Inv(cfg, s) && r < cfg.P
    requires s.pc[r].Round? && s.pc[r].at.AtLoad?
    ensures s.scratch[Left(cfg.P, r)][SendIdx(cfg.P, r, s.pc[r].k)] == Incoming(cfg, r, s.pc[r].k)
  {
    var left := Left(cfg.P, r);
    LeftLead(cfg, s, r);
    assert RankOk(cfg, s, r) && RankOk(cfg, s, left);
    ContentKept(cfg, r, s.pc[r].k, Stores(cfg.P, s.pc[left]));
  }

  // ---------------------------------------------------------------- preservation

  /** A step moves one program counter and touches at most one signal cell. */
  lemma StepPc<V>(cfg: Config<V>, s: State<V>, r: nat)
    requires cfg.Ok() && Shape(cfg.P, s) && r < cfg.P && Enabled(cfg, s, r)
    ensures Step(cfg, s, r).pc == s.pc[r := Advance(cfg.P, s.pc[r])]
    ensures var row := Notified(cfg.P, s.pc[r]);
            Step(cfg, s, r).sig ==
              if s.pc[r].Ready? || (s.pc[r].Round? && s.pc[r].at.AtNotify?)
              then AddSignal(s.sig, Right(cfg.P, r), row, r) else s.sig
  {
  }

  /** A step leaves every other rank's window, tiles and output alone, and all signals
      but those of the right neighbour. */
  lemma StepFrame<V>(cfg: Config<V>, s: State<V>, r: nat, q: nat)
    requires cfg.Ok() && Shape(cfg.P, s) && r < cfg.P && Enabled(cfg, s, r) && q < cfg.P
    ensures var t := Step(cfg, s, r);
            && (q != r ==>
                  && t.scratch[q] == s.scratch[q] && t.recv[q] == s.recv[q]
                  && t.acc[q] == s.acc[q] && t.out[q] == s.out[q])
            && (q != Right(cfg.P, r) ==> t.sig[q] == s.sig[q])
  {
  }

  lemma StoreKeepsScratch<V>(cfg: Config<V>, r: nat, k: nat, window: seq<V>)
    requires cfg.Ok() && r < cfg.P && PcOk(cfg.P, Round(k, AtStore)) && |window| == cfg.P
    requires ScratchOk(cfg, r, Round(k, AtStore), window)
    ensures ScratchOk(cfg, r, Advance(cfg.P, Round(k, AtStore)), window[RecvIdx(cfg.P, r, k) := Stored(cfg, r, k)])
  {
  }

  /** The rank that moves keeps its own window right. */
  lemma StepScratch<V>(cfg: Config<V>, s: State<V>, r: nat)
    requires cfg.Ok() && Shape(cfg.P, s) && r < cfg.P && Enabled(cfg, s, r) && RankOk(cfg, s, r)
    ensures var t := Step(cfg, s, r); ScratchOk(cfg, r, t.pc[r], t.scratch[r])
  {
    match s.pc[r]
    case Round(k, AtStore) =>
      StoredFromIncoming(cfg, r, k);
      StoreKeepsScratch(cfg, r, k, s.scratch[r]);
      assert Step(cfg, s, r).scratch[r] == s.scratch[r][RecvIdx(cfg.P, r, k) := Stored(cfg, r, k)];
    case StageIn(c) => assert Step(cfg, s, r).scratch[r] == s.scratch[r][c := cfg.x[r][c]];
    case _ =>
  }

  /** The rank that moves keeps its registers and its output right. */
  lemma StepLocals<V>(cfg: Config<V>, s: State<V>, r: nat)
    requires cfg.Ok() && Inv(cfg, s) && r < cfg.P && Enabled(cfg, s, r)
    ensures var t := Step(cfg, s, r); LocalsOk(cfg, r, t.pc[r], t.recv[r], t.acc[r], t.out[r])
  {
    assert RankOk(cfg, s, r);
    match s.pc[r]
    case Round(k, AtLoad) => LoadFindsIncoming(cfg, s, r);
    case Round(k, AtAcc) => ContentOwn(cfg, r, k);
    case StageOut(c) => ContentFinal(cfg, r, c);
    case _ =>
  }

  /** The rank that moves stays in pace: a wait is passed only on a raised row. */
  lemma StepPace<V>(cfg: Config<V>, s: State<V>, r: nat)
    requires cfg.Ok() && Inv(cfg, s) && r < cfg.P && Enabled(cfg, s, r)
    ensures var t := Step(cfg, s, r); PaceOk(cfg.P, t.pc[r], t.pc[Left(cfg.P, r)])
  {
    StepPc(cfg, s, r);
    assert RankOk(cfg, s, r);
    assert Left(cfg.P, r) != r;
  }

  /** Nothing the moving rank does can put its right neighbour out of pace. */
  lemma StepPaceRight<V>(cfg: Config<V>, s: State<V>, r: nat)
    requires cfg.Ok() && Inv(cfg, s) && r < cfg.P && Enabled(cfg, s, r)
    ensures var t := Step(cfg, s, r); var q := Right(cfg.P, r); PaceOk(cfg.P, t.pc[q], t.pc[r])
  {
    var q := Right(cfg.P, r);
    StepPc(cfg, s, r);
    assert RankOk(cfg, s, q) && Left(cfg.P, q) == r && q != r;
  }

  /** Raising one fresh cell of the left neighbour's column keeps the signals right. */
  lemma RaiseKeepsSig<V>(cfg: Config<V>, sig: seq<seq<seq<nat>>>, r: nat, q: nat, pc: Pc)
    requires cfg.Ok() && r < cfg.P && PcOk(cfg.P, pc) && q == Right(cfg.P, r)
    requires |sig| == cfg.P && |sig[q]| == cfg.Rounds()
    requires forall row :: 0 <= row < cfg.Rounds() ==> |sig[q][row]| == cfg.P
    requires SigOk(cfg, q, sig[q], pc)
    requires pc.Ready? || (pc.Round? && pc.at.AtNotify?)
    ensures SigOk(cfg, q, AddSignal(sig, q, Notified(cfg.P, pc), r)[q], Advance(cfg.P, pc))
  {
  }

  /** The moving rank raises one fresh cell of its right neighbour, or none. */
  lemma StepSigRight<V>(cfg: Config<V>, s: State<V>, r: nat)
    requires cfg.Ok() && Shape(cfg.P, s) && r < cfg.P && Enabled(cfg, s, r)
    requires RankOk(cfg, s, Right(cfg.P, r))
    ensures var t := Step(cfg, s, r); var q := Right(cfg.P, r); SigOk(cfg, q, t.sig[q], t.pc[r])
  {
    StepPc(cfg, s, r);
    assert Left(cfg.P, Right(cfg.P, r)) == r;
    if s.pc[r].Ready? || (s.pc[r].Round? && s.pc[r].at.AtNotify?) {
      RaiseKeepsSig(cfg, s.sig, r, Right(cfg.P, r), s.pc[r]);
    }
  }

  lemma StepKeepsRank<V>(cfg: Config<V>, s: State<V>, r: nat, q: nat)
    requires cfg.Ok() && Inv(cfg, s) && r < cfg.P && Enabled(cfg, s, r) && q < cfg.P
    ensures RankOk(cfg, Step(cfg, s, r), q)
  {
    assert RankOk(cfg, s, q);
    StepPc(cfg, s, r);
    StepFrame(cfg, s, r, q);
    if q == r {
      StepScratch(cfg, s, r);
      StepLocals(cfg, s, r);
      StepPace(cfg, s, r);
      assert Left(cfg.P, r) != r && Right(cfg.P, r) != r;
    } else if q == Right(cfg.P, r) {
      StepPaceRight(cfg, s, r);
      StepSigRight(cfg, s, r);
    } else {
      assert Left(cfg.P, q) != r;
    }
  }

  lemma StepKeepsInv<V>(cfg: Config<V>, s: State<V>, r: nat)
    requires cfg.Ok() && Inv(cfg, s) && r < cfg.P && Enabled(cfg, s, r)
    ensures Inv(cfg, Step(cfg, s, r))
  {
    forall q | 0 <= q < cfg.P
      ensures RankOk(cfg, Step(cfg, s, r), q)
    {
      StepKeepsRank(cfg, s, r, q);
    }
  }

  lemma MoveKeepsInv<V>(cfg: Config<V>, s: State<V>, t: State<V>)
    requires cfg.Ok() && Inv(cfg, s) && Moves(cfg, s, t)
    ensures Inv(cfg, t)
  {
    var r: nat :| r < cfg.P && Enabled(cfg, s, r) && t == Step(cfg, s, r);
    StepKeepsInv(cfg, s, r);
  }

  lemma {:induction false} RunKeepsInv<V>(cfg: Config<V>, run: seq<State<V>>, i: nat)
    requires cfg.Ok() && Run(cfg, run) && i < |run|
    ensures Inv(cfg, run[i])
    decreases i
  {
    if i == 0 {
      InitEstablishesInv(cfg, run[0]);
    } else {
      RunKeepsInv(cfg, run, i - 1);
      assert Moves(cfg, run[i - 1], run[i - 1 + 1]);
      MoveKeepsInv(cfg, run[i - 1], run[i]);
    }
  }
}
