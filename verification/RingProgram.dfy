/** `ring_step` with its own loops, and the machine that runs `P` of them together. */
module RingProgram {
  import opened ChunkSums
  import opened Ring
  import opened RingInvariant
  import opened RingTheorems

  /** The actions the state machine still performs from `pc` on. */
  ghost function ActionsFrom(P: nat, r: nat, pc: Pc): seq<Action>
    requires P >= 2 && r < P && PcOk(P, pc)
    decreases 12 * P - Position(P, pc)
  {
    if pc.Done? then [] else [ActionAt(P, r, pc)] + ActionsFrom(P, r, Advance(P, pc))
  }

  /** One reduce-scatter round, unrolled, with the indices as the loop computes them. */
  lemma ReduceRound(P: nat, r: nat, left: nat, right: nat, s: nat)
    requires P >= 2 && r < P && s < P - 1 && left == Left(P, r) && right == Right(P, r)
    ensures left - (s + 1) + P >= 0 && r - (s + 1) - 1 + P >= 0
    ensures var leftSend, recvAdd := (left - (s + 1) + P) % P, (r - (s + 1) - 1 + P) % P;
            ActionsFrom(P, r, Round(s, AtWait)) ==
            [Wait(s, left), RemoteLoad(left, leftSend), LoadOwn(recvAdd), StoreSum(recvAdd), Notify(right, s + 1)]
            + ActionsFrom(P, r, Round(s + 1, AtWait))
  {
    assert ActionsFrom(P, r, Round(s, AtStore)) ==
      [StoreSum(RecvIdx(P, r, s)), Notify(right, s + 1)] + ActionsFrom(P, r, Round(s + 1, AtWait));
    assert ActionsFrom(P, r, Round(s, AtLoad)) ==
      [RemoteLoad(left, SendIdx(P, r, s)), LoadOwn(RecvIdx(P, r, s))] + ActionsFrom(P, r, Round(s, AtStore));
  }

  /** One all-gather round, unrolled; the last one notifies nobody. */
  lemma GatherRound(P: nat, r: nat, left: nat, right: nat, s: nat)
    requires P >= 2 && r < P && s < P - 1 && left == Left(P, r) && right == Right(P, r)
    ensures left - (s + 1) + 1 + P >= 0 && r - (s + 1) + P >= 0
    ensures var k, leftSend, recv := (P - 1) + s, (left - (s + 1) + 1 + P) % P, (r - (s + 1) + P) % P;
            ActionsFrom(P, r, Round(k, AtWait)) ==
            [Wait(k, left), RemoteLoad(left, leftSend), StoreRecv(recv)]
            + if s < P - 2 then [Notify(right, k + 1)] + ActionsFrom(P, r, GatherPc(P, s + 1))
              else ActionsFrom(P, r, GatherPc(P, s + 1))
  {
    var k := P - 1 + s;
    assert ActionsFrom(P, r, Round(k, AtWait)) ==
      [Wait(k, left), RemoteLoad(left, SendIdx(P, r, k))] + ActionsFrom(P, r, Round(k, AtStore));
  }

  /** Where a rank stands before all-gather round `s`. */
  ghost function GatherPc(P: nat, s: nat): (pc: Pc)
    requires P >= 2 && s <= P - 1
    ensures PcOk(P, pc)
  {
    if s < P - 1 then Round(P - 1 + s, AtWait) else StageOut(0)
  }

  lemma Joined<T>(a: seq<T>, b: seq<T>, c: seq<T>, ab: seq<T>, all: seq<T>)
    requires b + c == ab && a + ab == all
    ensures (a + b) + c == all
  {
  }

  /** Phase 2 of `ring_step`: the reduce-scatter loop, as the memory actions it performs. */
  method ReduceScatter(nranks: nat, myRank: nat, left: nat, right: nat) returns (ops: seq<Action>)
    requires nranks >= 2 && myRank < nranks && left == Left(nranks, myRank) && right == Right(nranks, myRank)
    ensures ops + ActionsFrom(nranks, myRank, Round(nranks - 1, AtWait))
      == ActionsFrom(nranks, myRank, Round(0, AtWait))
  {
    ops := [];
    for s := 0 to nranks - 1
      invariant ops + ActionsFrom(nranks, myRank, Round(s, AtWait)) == ActionsFrom(nranks, myRank, Round(0, AtWait))
    {
      ReduceRound(nranks, myRank, left, right, s);
      var step := s + 1;
      var recvAddIdx := (myRank - step - 1 + nranks) % nranks;
      var leftSendIdx := (left - step + nranks) % nranks;
      var rsRound := s;
      var round := [Wait(rsRound, left), RemoteLoad(left, leftSendIdx), LoadOwn(recvAddIdx),
                    StoreSum(recvAddIdx), Notify(right, rsRound + 1)];
      Joined(ops, round, ActionsFrom(nranks, myRank, Round(s + 1, AtWait)),
          ActionsFrom(nranks, myRank, Round(s, AtWait)), ActionsFrom(nranks, myRank, Round(0, AtWait)));
      ops := ops + round;
    }
  }

  /** Phase 3 of `ring_step`: the all-gather loop, as the memory actions it performs. */
  method AllGather(nranks: nat, myRank: nat, left: nat, right: nat) returns (ops: seq<Action>)
    requires nranks >= 2 && myRank < nranks && left == Left(nranks, myRank) && right == Right(nranks, myRank)
    ensures ops + ActionsFrom(nranks, myRank, StageOut(0)) == ActionsFrom(nranks, myRank, Round(nranks - 1, AtWait))
  {
    ops := [];
    for s := 0 to nranks - 1
      invariant ops + ActionsFrom(nranks, myRank, GatherPc(nranks, s))
        == ActionsFrom(nranks, myRank, Round(nranks - 1, AtWait))
    {
      GatherRound(nranks, myRank, left, right, s);
      var step := s + 1;
      var recvIdx := (myRank - step + nranks) % nranks;
      var leftSendIdx := (left - step + 1 + nranks) % nranks;
      var agRound := (nranks - 1) + s;
      var round := [Wait(agRound, left), RemoteLoad(left, leftSendIdx), StoreRecv(recvIdx)];
      if s < nranks - 2 {
        round := round + [Notify(right, agRound + 1)];
      }
      Joined(ops, round, ActionsFrom(nranks, myRank, GatherPc(nranks, s + 1)),
          ActionsFrom(nranks, myRank, GatherPc(nranks, s)), ActionsFrom(nranks, myRank, Round(nranks - 1, AtWait)));
      ops := ops + round;
    }
  }

  /** Phase 1: copy every input chunk into the window, then raise row 0. */
  method Stage(nranks: nat, myRank: nat, right: nat) returns (ops: seq<Action>)
    requires nranks >= 2 && myRank < nranks && right == Right(nranks, myRank)
    ensures ops + ActionsFrom(nranks, myRank, Round(0, AtWait)) == ActionsFrom(nranks, myRank, StageIn(0))
  {
    ops := [];
    for c := 0 to nranks
      invariant ops + ActionsFrom(nranks, myRank, if c < nranks then StageIn(c) else Ready)
             == ActionsFrom(nranks, myRank, StageIn(0))
    {
      ops := ops + [LoadInput(c)];
    }
    ops := ops + [Notify(right, 0)];
  }

  /** Phase 4: copy every window chunk to the output. */
  method CopyOut(nranks: nat, myRank: nat) returns (ops: seq<Action>)
    requires nranks >= 2 && myRank < nranks
    ensures ops == ActionsFrom(nranks, myRank, StageOut(0))
  {
    ops := [];
    for c := 0 to nranks
      invariant ops + ActionsFrom(nranks, myRank, if c < nranks then StageOut(c) else Done)
             == ActionsFrom(nranks, myRank, StageOut(0))
    {
      ops := ops + [WriteOutput(c)];
    }
  }

  /** `ring_step` on rank `my_rank`, listing the memory actions its loops perform. The
      list is exactly what the state machine steps through, so the machine's program
      counter is a faithful unrolling of the four phases. */
  method RingStep(nranks: nat, myRank: nat) returns (ops: seq<Action>)
    requires nranks >= 2 && myRank < nranks
    ensures ops == ActionsFrom(nranks, myRank, StageIn(0))
  {
    var left := (myRank - 1 + nranks) % nranks;
    var right := (myRank + 1) % nranks;
    assert left == Left(nranks, myRank) && right == Right(nranks, myRank);
    ghost var all := ActionsFrom(nranks, myRank, StageIn(0));
    var stage := Stage(nranks, myRank, right);
    var reduce := ReduceScatter(nranks, myRank, left, right);
    Joined(stage, reduce, ActionsFrom(nranks, myRank, Round(nranks - 1, AtWait)),
        ActionsFrom(nranks, myRank, Round(0, AtWait)), all);
    var gather := AllGather(nranks, myRank, left, right);
    Joined(stage + reduce, gather, ActionsFrom(nranks, myRank, StageOut(0)),
        ActionsFrom(nranks, myRank, Round(nranks - 1, AtWait)), all);
    var copy := CopyOut(nranks, myRank);
    ops := stage + reduce + gather + copy;
  }

  lemma OutputsReady<V>(cfg: Config<V>, s: State<V>)
    requires cfg.Ok() && Inv(cfg, s) && Finished(cfg, s)
    ensures forall r, c :: 0 <= r < cfg.P && 0 <= c < cfg.P ==> s.out[r][c] == Total(cfg, c)
  {
    forall r, c | 0 <= r < cfg.P && 0 <= c < cfg.P
      ensures s.out[r][c] == Total(cfg, c)
    {
      assert RankOk(cfg, s, r);
    }
  }

  /** The windows, signals and tiles of all ranks, updated in place. */
  class RingMachine<V(0)> {
    const P: nat
    const x: seq<seq<V>>
    const add: (V, V) -> V
    var pc: array<Pc>
    var scratch: array2<V>
    var recv: array<V>
    var acc: array<V>
    var sig: array3<nat>
    var out: array2<V>
    ghost var abs: State<V>      // the state these arrays represent

    ghost function Cfg(): Config<V> { Config(P, x, add) }

    ghost predicate Valid()
      reads this, pc, scratch, recv, acc, sig, out
    {
      && Cfg().Ok() && Shape(P, abs)
      && recv != acc && scratch != out && (pc as object) != recv && (pc as object) != acc
      && pc.Length == recv.Length == acc.Length == P
      && scratch.Length0 == scratch.Length1 == out.Length0 == out.Length1 == P
      && sig.Length0 == P && sig.Length1 == 2 * (P - 1) && sig.Length2 == P
      && (forall r :: 0 <= r < P ==> pc[r] == abs.pc[r] && recv[r] == abs.recv[r] && acc[r] == abs.acc[r])
      && (forall r, c :: 0 <= r < P && 0 <= c < P ==>
            scratch[r, c] == abs.scratch[r][c] && out[r, c] == abs.out[r][c])
      && (forall r, row, col :: 0 <= r < P && 0 <= row < 2 * (P - 1) && 0 <= col < P ==>
            sig[r, row, col] == abs.sig[r][row][col])
    }

    /** Fresh windows hold anything; signal cells are zero-initialised. */
    constructor (P: nat, x: seq<seq<V>>, add: (V, V) -> V)
      requires P >= 2 && Square(P, x)
      ensures Valid() && this.P == P && this.x == x && this.add == add
      ensures fresh(pc) && fresh(scratch) && fresh(recv) && fresh(acc) && fresh(sig) && fresh(out)
      ensures Init(Cfg(), abs)
    {
      this.P, this.x, this.add := P, x, add;
      pc := new Pc[P](_ => StageIn(0));
      scratch := new V[P, P];
      recv := new V[P];
      acc := new V[P];
      sig := new nat[P, 2 * (P - 1), P]((_, _, _) => 0);
      out := new V[P, P];
      new;
      abs := State(pc[..], WindowRows(scratch), recv[..], acc[..], NoSignals(P, 2 * (P - 1)), WindowRows(out));
    }

    /** Whether rank `r` can move: anything but a wait on a cell still at zero. */
    predicate CanMove(r: nat)
      requires Valid() && r < P
      reads this, pc, scratch, recv, acc, sig, out
      ensures CanMove(r) == Enabled(Cfg(), abs, r)
    {
      !pc[r].Done? &&
      match ActionAt(P, r, pc[r])
      case Wait(row, src) => sig[r, row, src] >= 1
      case _ => true
    }

    /** `pl.store` of a tile into the own window. */
    method Store(r: nat, chunk: nat, v: V)
      requires Valid() && r < P && chunk < P
      modifies `abs, scratch
      ensures Valid() && abs == old(abs).(scratch := old(abs).scratch[r := old(abs).scratch[r][chunk := v]])
    {
      scratch[r, chunk] := v;
      abs := abs.(scratch := abs.scratch[r := abs.scratch[r][chunk := v]]);
    }

    /** `pld.system.notify` with `AtomicAdd` of 1. */
    method AtomicAdd(peer: nat, row: nat, col: nat)
      requires Valid() && peer < P && row < 2 * (P - 1) && col < P
      modifies `abs, sig
      ensures Valid() && abs == old(abs).(sig := AddSignal(old(abs).sig, peer, row, col))
    {
      sig[peer, row, col] := sig[peer, row, col] + 1;
      abs := abs.(sig := AddSignal(abs.sig, peer, row, col));
    }

    /** `pld.tile.remote_load` into the receive tile. */
    method RemoteLoadTile(r: nat, peer: nat, chunk: nat)
      requires Valid() && r < P && peer < P && chunk < P
      modifies `abs, recv
      ensures Valid() && abs == old(abs).(recv := old(abs).recv[r := old(abs).scratch[peer][chunk]])
    {
      recv[r] := scratch[peer, chunk];
      abs := abs.(recv := abs.recv[r := abs.scratch[peer][chunk]]);
    }

    /** `pl.load` of the own window into the accumulator tile. */
    method LoadTile(r: nat, chunk: nat)
      requires Valid() && r < P && chunk < P
      modifies `abs, acc
      ensures Valid() && abs == old(abs).(acc := old(abs).acc[r := old(abs).scratch[r][chunk]])
    {
      acc[r] := scratch[r, chunk];
      abs := abs.(acc := abs.acc[r := abs.scratch[r][chunk]]);
    }

    /** Stage-out of one chunk. */
    method Write(r: nat, c: nat)
      requires Valid() && r < P && c < P
      modifies `abs, out
      ensures Valid() && abs == old(abs).(out := old(abs).out[r := old(abs).out[r][c := old(abs).scratch[r][c]]])
    {
      out[r, c] := scratch[r, c];
      abs := abs.(out := abs.out[r := abs.out[r][c := abs.scratch[r][c]]]);
    }

    method SetPc(r: nat, next: Pc)
      requires Valid() && r < P && PcOk(P, next)
      modifies `abs, pc
      ensures Valid() && abs == old(abs).(pc := old(abs).pc[r := next])
    {
      pc[r] := next;
      abs := abs.(pc := abs.pc[r := next]);
    }

    method Perform(r: nat, action: Action)
      requires Valid() && r < P && ActionOk(P, action)
      modifies `abs, scratch, recv, acc, sig, out
      ensures Valid() && abs == Effect(Cfg(), old(abs), r, action)
    {
      match action {
        case Wait(_, _) =>
        case LoadInput(c) => Store(r, c, x[r][c]);
        case StoreSum(chunk) => Store(r, chunk, add(acc[r], recv[r]));
        case StoreRecv(chunk) => Store(r, chunk, recv[r]);
        case Notify(peer, row) => AtomicAdd(peer, row, r);
        case RemoteLoad(peer, chunk) => RemoteLoadTile(r, peer, chunk);
        case LoadOwn(chunk) => LoadTile(r, chunk);
        case WriteOutput(c) => Write(r, c);
      }
    }

    /** Rank `r` performs its next action on the shared arrays. */
    method Act(r: nat)
      requires Valid() && r < P && CanMove(r)
      modifies `abs, pc, scratch, recv, acc, sig, out
      ensures Valid() && abs == Step(Cfg(), old(abs), r)
    {
      var at := pc[r];
      Perform(r, ActionAt(P, r, at));
      SetPc(r, Advance(P, at));
    }

    /** Some rank that can move, or `P` when every rank has finished. */
    method Schedule() returns (r: nat)
      requires Valid() && Inv(Cfg(), abs)
      ensures r <= P && (r == P <==> Finished(Cfg(), abs))
      ensures r < P ==> CanMove(r)
    {
      if r': nat :| r' < P && CanMove(r') {
        r := r';
      } else {
        r := P;
        if !Finished(Cfg(), abs) {
          ghost var q := Progress(Cfg(), abs);
          assert CanMove(q);
        }
      }
    }

    /** Any schedule runs to the end, and leaves the finished chunks on every rank. */
    method AllReduce()
      requires Valid() && Init(Cfg(), abs)
      modifies `abs, pc, scratch, recv, acc, sig, out
      ensures Valid() && Finished(Cfg(), abs)
      ensures forall r, c :: 0 <= r < P && 0 <= c < P ==> out[r, c] == Total(Cfg(), c)
    {
      InitEstablishesInv(Cfg(), abs);
      var r: nat := Schedule();
      while r < P
        invariant Valid() && Inv(Cfg(), abs) && r <= P
        invariant r == P <==> Finished(Cfg(), abs)
        invariant r < P ==> CanMove(r)
        decreases Remaining(P, abs.pc, P)
      {
        StepKeepsInv(Cfg(), abs, r);
        StepShrinks(Cfg(), abs, r);
        Act(r);
        r := Schedule();
      }
      OutputsReady(Cfg(), abs);
    }
  }
}
