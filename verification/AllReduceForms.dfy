/** The three all-reduce forms compute the same rows. */
module AllReduceForms {
  import opened ChunkSums
  import Ring
  import RingTheorems
  import TwoPhase
  import Mesh

  /** The mesh's addition of whole rows is `add` chunk by chunk. */
  ghost predicate ChunkWise<V(!new)>(rowAdd: (seq<V>, seq<V>) -> seq<V>, add: (V, V) -> V, P: nat) {
    forall a, b :: |a| == |b| == P ==> ChunkWiseAt(rowAdd, add, a, b)
  }

  ghost predicate ChunkWiseAt<V>(rowAdd: (seq<V>, seq<V>) -> seq<V>, add: (V, V) -> V, a: seq<V>, b: seq<V>) {
    |a| == |b| == |rowAdd(a, b)| && forall c :: 0 <= c < |a| ==> rowAdd(a, b)[c] == add(a[c], b[c])
  }

  /** Folding rows folds every chunk. */
  lemma {:induction false} FoldRows<V(!new)>(x: seq<seq<V>>, rowAdd: (seq<V>, seq<V>) -> seq<V>, add: (V, V) -> V,
      own: nat, n: nat)
    requires Square(|x|, x) && ChunkWise(rowAdd, add, |x|) && own < |x| && n <= |x|
    ensures |FoldPeers(x, rowAdd, own, n)| == |x|
    ensures forall c :: 0 <= c < |x| ==> FoldPeers(x, rowAdd, own, n)[c] == FoldPeers(Column(x, c), add, own, n)
  {
    if n > 0 {
      FoldRows(x, rowAdd, add, own, n - 1);
      if n - 1 != own {
        assert ChunkWiseAt(rowAdd, add, FoldPeers(x, rowAdd, own, n - 1), x[n - 1]);
      }
    }
  }

  /** Everyone's contributions to every chunk, in rank order. */
  ghost function Totals<V>(cfg: Config<V>): (row: seq<V>)
    requires cfg.Ok()
    ensures |row| == cfg.P && forall c :: 0 <= c < cfg.P ==> row[c] == RankSum(Column(cfg.x, c), cfg.add, 0, cfg.P - 1)
  {
    seq(cfg.P, c requires 0 <= c < cfg.P && cfg.Ok() => RankSum(Column(cfg.x, c), cfg.add, 0, cfg.P - 1))
  }

  lemma RingRow<V(!new)>(cfg: Config<V>, run: seq<Ring.State<V>>, r: nat, out: seq<V>)
    requires cfg.Ok() && AssocComm(cfg.add) && r < cfg.P
    requires Ring.Run(cfg, run) && Ring.Shape(cfg.P, run[|run| - 1]) && Ring.Finished(cfg, run[|run| - 1])
    requires out == run[|run| - 1].out[r]
    ensures out == Totals(cfg)
  {
    assert |out| == cfg.P;
    forall c | 0 <= c < cfg.P
      ensures out[c] == Totals(cfg)[c]
    {
      RingTheorems.Agreement(cfg, run, r, c);
      RingTheorems.TotalIsRankSum(cfg, c);
    }
  }

  lemma TwoPhaseRow<V(!new)>(cfg: Config<V>, run: seq<TwoPhase.State<V>>, r: nat, out: seq<V>)
    requires cfg.Ok() && AssocComm(cfg.add) && r < cfg.P
    requires TwoPhase.Run(cfg, run) && TwoPhase.Shape(cfg.P, run[|run| - 1]) && TwoPhase.Finished(cfg, run[|run| - 1])
    requires out == run[|run| - 1].out[r]
    ensures out == Totals(cfg)
  {
    assert |out| == cfg.P;
    forall c | 0 <= c < cfg.P
      ensures out[c] == Totals(cfg)[c]
    {
      TwoPhase.Agreement(cfg, run, r, c);
      FoldAll(Column(cfg.x, c), cfg.add, c);
    }
  }

  lemma FoldedRow<V(!new)>(cfg: Config<V>, rowAdd: (seq<V>, seq<V>) -> seq<V>, r: nat, out: seq<V>)
    requires cfg.Ok() && AssocComm(cfg.add) && r < cfg.P && ChunkWise(rowAdd, cfg.add, cfg.P)
    requires out == FoldPeers(cfg.x, rowAdd, r, cfg.P)
    ensures out == Totals(cfg)
  {
    FoldRows(cfg.x, rowAdd, cfg.add, r, cfg.P);
    forall c | 0 <= c < cfg.P
      ensures out[c] == Totals(cfg)[c]
    {
      FoldAll(Column(cfg.x, c), cfg.add, r);
    }
  }

  lemma MeshRow<V(!new)>(cfg: Config<V>, mesh: Mesh.MeshConfig<seq<V>>, run: seq<Mesh.State<seq<V>>>, r: nat,
      out: seq<V>)
    requires cfg.Ok() && AssocComm(cfg.add) && r < cfg.P
    requires mesh.P == cfg.P && mesh.slices == cfg.x && ChunkWise(mesh.add, cfg.add, cfg.P)
    requires Mesh.CompleteRun(mesh, run) && out == run[|run| - 1].out[r]
    ensures out == Totals(cfg)
  {
    Mesh.MeshResult(mesh, run, r);
    FoldedRow(cfg, mesh.add, r, out);
  }

  /** For any associative, commutative `add`: any finished run of any form, in any
      interleaving, leaves the same row of chunks on every rank. */
  lemma FormsAgree<V(!new)>(cfg: Config<V>, mesh: Mesh.MeshConfig<seq<V>>,
      ring: seq<Ring.State<V>>, two: seq<TwoPhase.State<V>>, full: seq<Mesh.State<seq<V>>>, r: nat, q: nat, p: nat)
    requires cfg.Ok() && AssocComm(cfg.add)
    requires mesh.P == cfg.P && mesh.slices == cfg.x && ChunkWise(mesh.add, cfg.add, cfg.P)
    requires Ring.Run(cfg, ring) && Ring.Shape(cfg.P, ring[|ring| - 1]) && Ring.Finished(cfg, ring[|ring| - 1])
    requires TwoPhase.Run(cfg, two) && TwoPhase.Shape(cfg.P, two[|two| - 1]) && TwoPhase.Finished(cfg, two[|two| - 1])
    requires Mesh.CompleteRun(mesh, full)
    requires r < cfg.P && q < cfg.P && p < cfg.P
    ensures ring[|ring| - 1].out[r] == two[|two| - 1].out[q] == full[|full| - 1].out[p]
  {
    RingRow(cfg, ring, r, ring[|ring| - 1].out[r]);
    TwoPhaseRow(cfg, two, q, two[|two| - 1].out[q]);
    MeshRow(cfg, mesh, full, p, full[|full| - 1].out[p]);
  }

  /** Over reals and flat rows they leave the element-wise sum. */
  lemma FormsAgreeFlat(cfg: Config<seq<real>>, mesh: Mesh.MeshConfig<seq<real>>, chunk: nat,
      ring: seq<Ring.State<seq<real>>>, two: seq<TwoPhase.State<seq<real>>>, full: seq<Mesh.State<seq<real>>>,
      r: nat, q: nat, p: nat)
    requires cfg.Ok() && cfg.add == AddTiles && mesh.Ok() && mesh.add == AddTiles && mesh.P == cfg.P
    requires forall i, c :: 0 <= i < cfg.P && 0 <= c < cfg.P ==> |cfg.x[i][c]| == chunk
    requires Mesh.FlatRows(mesh.slices, cfg.x)
    requires Ring.Run(cfg, ring) && Ring.Shape(cfg.P, ring[|ring| - 1]) && Ring.Finished(cfg, ring[|ring| - 1])
    requires TwoPhase.Run(cfg, two) && TwoPhase.Shape(cfg.P, two[|two| - 1]) && TwoPhase.Finished(cfg, two[|two| - 1])
    requires Mesh.Run(mesh, full) && Mesh.Shape(cfg.P, full[|full| - 1]) && Mesh.Finished(mesh, full[|full| - 1])
    requires r < cfg.P && q < cfg.P && p < cfg.P
    ensures Flat(ring[|ring| - 1].out[r]) == Flat(two[|two| - 1].out[q]) == full[|full| - 1].out[p]
  {
    RingTheorems.RingComputesAllReduce(cfg, chunk, ring, r);
    TwoPhase.TwoPhaseComputesAllReduce(cfg, chunk, two, q);
    Mesh.MeshComputesAllReduce(cfg.x, mesh, full, p);
  }
}
