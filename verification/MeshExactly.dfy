/** When the ranks of the mesh agree: every rank adds in an order of its own, so agreement
    is a property of `add`, not of the protocol. */
module MeshExactly {
  import opened ChunkSums
  import opened Mesh

  ghost predicate Commutes<V(!new)>(add: (V, V) -> V) {
    forall a, b :: CommAt(add, a, b)
  }

  ghost predicate Associates<V(!new)>(add: (V, V) -> V) {
    forall a, b, c :: AssocAt(add, a, b, c)
  }

  ghost predicate UnitAt<V>(add: (V, V) -> V, e: V, a: V) {
    add(a, e) == a && add(e, a) == a
  }

  ghost predicate HasUnit<V(!new)>(add: (V, V) -> V) {
    exists e :: IsUnit(add, e)
  }

  ghost predicate IsUnit<V(!new)>(add: (V, V) -> V, e: V) {
    forall a :: UnitAt(add, e, a)
  }

  ghost function Outputs<V>(run: seq<State<V>>): seq<V>
    requires run != []
  {
    run[|run| - 1].out
  }

  /** All ranks end with the same output. */
  ghost predicate Agrees<V>(cfg: MeshConfig<V>, run: seq<State<V>>)
    requires cfg.Ok() && CompleteRun(cfg, run)
  {
    forall r, q :: 0 <= r < cfg.P && 0 <= q < cfg.P ==> Outputs(run)[r] == Outputs(run)[q]
  }

  /** `P` ranks agree in every finished run on every input. */
  ghost predicate AlwaysAgrees<V(!new)>(P: nat, add: (V, V) -> V) {
    forall slices: seq<V>, run: seq<State<V>> :: AgreesOn(MeshConfig(P, slices, add), run)
  }

  ghost predicate AgreesOn<V>(cfg: MeshConfig<V>, run: seq<State<V>>) {
    cfg.Ok() && CompleteRun(cfg, run) ==> Agrees(cfg, run)
  }

  /** The sums of two ranks next to each other coincide. */
  ghost predicate NeighboursAgree<V>(P: nat, slices: seq<V>, add: (V, V) -> V, own: nat) {
    |slices| == P && own + 1 < P ==> FoldPeers(slices, add, own, P) == FoldPeers(slices, add, own + 1, P)
  }

  // ---------------------------------------------------------------- from runs to sums

  lemma SumsOfRun<V>(cfg: MeshConfig<V>, run: seq<State<V>>, r: nat, q: nat)
    requires cfg.Ok() && CompleteRun(cfg, run) && r < cfg.P && q < cfg.P
    ensures Outputs(run)[r] == FoldPeers(cfg.slices, cfg.add, r, cfg.P)
    ensures Outputs(run)[q] == FoldPeers(cfg.slices, cfg.add, q, cfg.P)
  {
    MeshResult(cfg, run, r);
    MeshResult(cfg, run, q);
  }

  lemma AgreeingSums<V(!new)>(P: nat, add: (V, V) -> V, slices: seq<V>, r: nat, q: nat)
    requires AlwaysAgrees(P, add) && P >= 2 && |slices| == P && r < P && q < P
    ensures FoldPeers(slices, add, r, P) == FoldPeers(slices, add, q, P)
  {
    var cfg := MeshConfig(P, slices, add);
    var run := FinishedRunExists(cfg);
    assert AgreesOn(cfg, run);
    SumsOfRun(cfg, run, r, q);
  }

  lemma {:induction false} ChainOfNeighbours<V>(P: nat, slices: seq<V>, add: (V, V) -> V, r: nat)
    requires |slices| == P && r < P && forall own: nat :: NeighboursAgree(P, slices, add, own)
    ensures FoldPeers(slices, add, r, P) == FoldPeers(slices, add, 0, P)
  {
    if r > 0 {
      ChainOfNeighbours(P, slices, add, r - 1);
      assert NeighboursAgree(P, slices, add, r - 1);
    }
  }

  /** For any number of ranks and any `add`: agreement is that of neighbours. */
  lemma AgreesIffNeighboursDo<V(!new)>(P: nat, add: (V, V) -> V)
    requires P >= 2
    ensures AlwaysAgrees(P, add) <==> forall slices: seq<V>, own: nat :: NeighboursAgree(P, slices, add, own)
  {
    if AlwaysAgrees(P, add) {
      forall slices: seq<V>, own: nat
        ensures NeighboursAgree(P, slices, add, own)
      {
        if |slices| == P && own + 1 < P {
          AgreeingSums(P, add, slices, own, own + 1);
        }
      }
    }
    if forall slices: seq<V>, own: nat :: NeighboursAgree(P, slices, add, own) {
      forall slices: seq<V>, run: seq<State<V>>
        ensures AgreesOn(MeshConfig(P, slices, add), run)
      {
        NeighboursToAgreement(MeshConfig(P, slices, add), run);
      }
    }
  }

  lemma NeighboursToAgreement<V>(cfg: MeshConfig<V>, run: seq<State<V>>)
    requires forall own: nat :: NeighboursAgree(cfg.P, cfg.slices, cfg.add, own)
    ensures AgreesOn(cfg, run)
  {
    if cfg.Ok() && CompleteRun(cfg, run) {
      forall r, q | 0 <= r < cfg.P && 0 <= q < cfg.P
        ensures Outputs(run)[r] == Outputs(run)[q]
      {
        SumsOfRun(cfg, run, r, q);
        ChainOfNeighbours(cfg.P, cfg.slices, cfg.add, r);
        ChainOfNeighbours(cfg.P, cfg.slices, cfg.add, q);
      }
    }
  }

  // ---------------------------------------------------------------- two and three ranks

  lemma TwoSums<V>(s: seq<V>, add: (V, V) -> V)
    requires |s| == 2
    ensures FoldPeers(s, add, 0, 2) == add(s[0], s[1]) && FoldPeers(s, add, 1, 2) == add(s[1], s[0])
  {
    assert FoldPeers(s, add, 0, 1) == s[0];
    assert FoldPeers(s, add, 1, 1) == add(s[1], s[0]);
  }

  lemma ThreeSums<V>(s: seq<V>, add: (V, V) -> V)
    requires |s| >= 3
    ensures FoldPeers(s, add, 0, 3) == add(add(s[0], s[1]), s[2])
    ensures FoldPeers(s, add, 1, 3) == add(add(s[1], s[0]), s[2])
    ensures FoldPeers(s, add, 2, 3) == add(add(s[2], s[0]), s[1])
  {
    assert FoldPeers(s, add, 0, 1) == FoldPeers(s, add, 0, 0) == s[0];
    assert FoldPeers(s, add, 0, 2) == add(s[0], s[1]);
    assert FoldPeers(s, add, 1, 0) == s[1];
    assert FoldPeers(s, add, 1, 2) == FoldPeers(s, add, 1, 1) == add(s[1], s[0]);
    assert FoldPeers(s, add, 2, 1) == add(s[2], s[0]);
    assert FoldPeers(s, add, 2, 3) == FoldPeers(s, add, 2, 2);
  }

  /** Two ranks agree exactly when `add` commutes on their slices. */
  lemma TwoRanksAgreeIffCommute<V>(cfg: MeshConfig<V>, run: seq<State<V>>)
    requires cfg.Ok() && cfg.P == 2 && CompleteRun(cfg, run)
    ensures Agrees(cfg, run) <==> CommAt(cfg.add, cfg.slices[0], cfg.slices[1])
  {
    SumsOfRun(cfg, run, 0, 1);
    TwoSums(cfg.slices, cfg.add);
  }

  /** With three ranks and an `add` that commutes, ranks 0 and 1 always agree, and rank 2
      agrees with them exactly when two nestings of the three slices do. */
  lemma ThreeRanksAgreeIffNested<V(!new)>(cfg: MeshConfig<V>, run: seq<State<V>>)
    requires cfg.Ok() && cfg.P == 3 && CompleteRun(cfg, run) && Commutes(cfg.add)
    ensures Outputs(run)[0] == Outputs(run)[1]
    ensures var s, add := cfg.slices, cfg.add;
            Outputs(run)[0] == Outputs(run)[2] <==> add(add(s[0], s[1]), s[2]) == add(add(s[2], s[0]), s[1])
    ensures Agrees(cfg, run) <==> AssocAt(cfg.add, cfg.slices[1], cfg.slices[0], cfg.slices[2])
  {
    var s, out := cfg.slices, Outputs(run);
    SumsOfRun(cfg, run, 0, 1);
    SumsOfRun(cfg, run, 0, 2);
    ThreeSums(s, cfg.add);
    assert CommAt(cfg.add, s[0], s[1]) && CommAt(cfg.add, s[2], s[0]) && CommAt(cfg.add, cfg.add(s[2], s[0]), s[1]);
    assert out[0] == out[1] && (out[0] == out[2] <==> AssocAt(cfg.add, s[1], s[0], s[2]));
    if out[0] == out[2] {
      assert forall r :: 0 <= r < 3 ==> out[r] == out[0];
    }
  }

  /** Three nestings of three values that coincide make them associate. */
  lemma NestingsAssociate<V(!new)>(add: (V, V) -> V, a: V, b: V, c: V)
    requires Commutes(add) && add(add(b, a), c) == add(add(c, b), a)
    ensures AssocAt(add, a, b, c)
  {
    assert CommAt(add, b, a) && CommAt(add, c, b) && CommAt(add, add(c, b), a);
  }

  lemma AssociativeAgrees<V(!new)>(P: nat, add: (V, V) -> V)
    requires Commutes(add) && Associates(add) && P >= 2
    ensures AlwaysAgrees(P, add)
  {
    forall slices: seq<V>, run: seq<State<V>>
      ensures AgreesOn(MeshConfig(P, slices, add), run)
    {
      var cfg := MeshConfig(P, slices, add);
      if cfg.Ok() && CompleteRun(cfg, run) {
        forall r, q | 0 <= r < P && 0 <= q < P
          ensures Outputs(run)[r] == Outputs(run)[q]
        {
          MeshAgreement(cfg, run, r);
          MeshAgreement(cfg, run, q);
        }
      }
    }
  }

  /** Three ranks agree on all inputs exactly when a commutative `add` is associative. */
  lemma ThreeRanksAgreeIffAssociative<V(!new)>(add: (V, V) -> V)
    requires Commutes(add)
    ensures AlwaysAgrees(3, add) <==> Associates(add)
  {
    if AlwaysAgrees(3, add) {
      forall a, b, c
        ensures AssocAt(add, a, b, c)
      {
        var s := [b, a, c];
        AgreeingSums(3, add, s, 0, 2);
        ThreeSums(s, add);
        NestingsAssociate(add, a, b, c);
      }
    }
    if Associates(add) {
      AssociativeAgrees(3, add);
    }
  }

  // ---------------------------------------------------------------- any number of ranks

  /** Ranks that contribute the unit do not matter. */
  lemma {:induction false} UnitsDropOut<V(!new)>(s: seq<V>, add: (V, V) -> V, e: V, own: nat, n: nat)
    requires IsUnit(add, e) && own < 3 <= n <= |s| && forall j :: 3 <= j < |s| ==> s[j] == e
    ensures FoldPeers(s, add, own, n) == FoldPeers(s, add, own, 3)
  {
    if n > 3 {
      UnitsDropOut(s, add, e, own, n - 1);
      assert UnitAt(add, e, FoldPeers(s, add, own, n - 1));
    }
  }

  /** With `a`, `b`, `c` on the first three ranks and the unit on the others, ranks 0, 1 and
      2 add the three in three orders. */
  lemma AgreeOnThree<V(!new)>(P: nat, add: (V, V) -> V, e: V, a: V, b: V, c: V)
    requires AlwaysAgrees(P, add) && P >= 3 && IsUnit(add, e)
    ensures add(add(a, b), c) == add(add(b, a), c) == add(add(c, a), b)
  {
    var s := [a, b, c] + seq(P - 3, _ => e);
    AgreeingSums(P, add, s, 0, 1);
    AgreeingSums(P, add, s, 0, 2);
    UnitsDropOut(s, add, e, 0, P);
    UnitsDropOut(s, add, e, 1, P);
    UnitsDropOut(s, add, e, 2, P);
    ThreeSums(s, add);
  }

  /** For three ranks or more, and an `add` with a unit, as addition has: the ranks agree on
      all inputs exactly when `add` is associative and commutative. */
  lemma AgreesIffAssocComm<V(!new)>(P: nat, add: (V, V) -> V)
    requires P >= 3 && HasUnit(add)
    ensures AlwaysAgrees(P, add) <==> AssocComm(add)
  {
    if AlwaysAgrees(P, add) {
      var e :| IsUnit(add, e);
      forall a, b
        ensures CommAt(add, a, b)
      {
        AgreeOnThree(P, add, e, a, b, e);
        assert UnitAt(add, e, add(a, b)) && UnitAt(add, e, add(b, a));
      }
      forall a, b, c
        ensures AssocAt(add, a, b, c)
      {
        AgreeOnThree(P, add, e, b, a, c);
        NestingsAssociate(add, a, b, c);
      }
    }
    if AssocComm(add) {
      AssociativeAgrees(P, add);
    }
  }

  /** Without a unit four ranks or more can agree although `add` does not associate: here
      every sum of four is 0, and some sums of three depend on their nesting. */
  function Vanishing(a: nat, b: nat): nat {
    if a == 1 && b == 1 then 3 else if (a == 3 && b == 2) || (a == 2 && b == 3) then 4 else 0
  }

  lemma {:induction false} FourVanish(s: seq<nat>, own: nat, n: nat)
    requires own < |s| && n <= |s|
    ensures var f, terms := FoldPeers(s, Vanishing, own, n), if own < n then n else n + 1;
            && (terms >= 2 ==> f in {0, 3, 4}) && (terms >= 3 ==> f in {0, 4}) && (terms >= 4 ==> f == 0)
    decreases n
  {
    if n > 0 {
      FourVanish(s, own, n - 1);
    }
  }

  lemma UnitIsNeeded(P: nat)
    requires P >= 4
    ensures Commutes(Vanishing) && !Associates(Vanishing) && AlwaysAgrees(P, Vanishing)
  {
    assert !AssocAt(Vanishing, 1, 1, 2);
    forall slices: seq<nat>, own: nat
      ensures NeighboursAgree(P, slices, Vanishing, own)
    {
      if |slices| == P && own + 1 < P {
        FourVanish(slices, own, P);
        FourVanish(slices, own + 1, P);
      }
    }
    AgreesIffNeighboursDo(P, Vanishing);
  }

  /** Addition that stops at 10. */
  function Capped(a: int, b: int): int {
    if a + b > 10 then 10 else a + b
  }

  /** A run in which the outputs differ: it commutes, but (8 + 5) + -5 is 5 on ranks 0 and
      1, and (-5 + 8) + 5 is 8 on rank 2. */
  lemma CappedDisagrees() returns (run: seq<State<int>>)
    ensures var cfg := MeshConfig(3, [8, 5, -5], Capped);
            Commutes(Capped) && CompleteRun(cfg, run) && Outputs(run) == [5, 5, 8]
  {
    var cfg := MeshConfig(3, [8, 5, -5], Capped);
    run := FinishedRunExists(cfg);
    SumsOfRun(cfg, run, 0, 1);
    SumsOfRun(cfg, run, 0, 2);
    ThreeSums(cfg.slices, Capped);
  }
}
