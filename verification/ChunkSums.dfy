/** What an all-reduce adds up: chunk `c` of every rank's input, combined with an
    operation `add` that is left uninterpreted until a result needs more. Also the signal
    cells that the forms synchronise by. */
module ChunkSums {
  import opened Arithmetic

  ghost predicate CommAt<V>(add: (V, V) -> V, a: V, b: V) {
    add(a, b) == add(b, a)
  }

  ghost predicate AssocAt<V>(add: (V, V) -> V, a: V, b: V, c: V) {
    add(add(a, b), c) == add(a, add(b, c))
  }

  ghost predicate AssocComm<V(!new)>(add: (V, V) -> V) {
    (forall a, b :: CommAt(add, a, b)) && (forall a, b, c :: AssocAt(add, a, b, c))
  }

  /** `add` is uninterpreted; `x[r]` is rank `r`'s input, cut into `P` chunks. */
  datatype Config<!V> = Config(P: nat, x: seq<seq<V>>, add: (V, V) -> V)
  {
    ghost predicate Ok() { P >= 2 && Square(P, x) }
    /** `total_rounds` of the ring: the rows of its signal matrix. */
    function Rounds(): nat requires P >= 2 { 2 * (P - 1) }
  }

  /** `P` ranks, each with `P` chunks. */
  ghost predicate Square<V>(P: nat, x: seq<seq<V>>) {
    |x| == P && forall r :: 0 <= r < P ==> |x[r]| == P
  }

  /** The contents of a window, rank by rank. */
  ghost function WindowRows<T>(a: array2<T>): (rows: seq<seq<T>>)
    reads a
    ensures |rows| == a.Length0
    ensures forall i :: 0 <= i < a.Length0 ==> |rows[i]| == a.Length1
    ensures forall i, j :: 0 <= i < a.Length0 && 0 <= j < a.Length1 ==> rows[i][j] == a[i, j]
  {
    seq(a.Length0, i requires 0 <= i < a.Length0 reads a =>
      seq(a.Length1, j requires 0 <= j < a.Length1 reads a => a[i, j]))
  }

  /** Zero-initialised signal cells. */
  ghost function NoSignals(P: nat, rows: nat): (sig: seq<seq<seq<nat>>>)
    ensures |sig| == P && forall r :: 0 <= r < P ==> |sig[r]| == rows
    ensures forall r, row :: 0 <= r < P && 0 <= row < rows ==> |sig[r][row]| == P
    ensures forall r, row, col :: 0 <= r < P && 0 <= row < rows && 0 <= col < P ==> sig[r][row][col] == 0
  {
    seq(P, _ => seq(rows, _ => seq(P, _ => 0)))
  }

  /** `AtomicAdd` of 1 to a cell of rank `peer`'s signals, by rank `src`. */
  function AddSignal(sig: seq<seq<seq<nat>>>, peer: nat, row: nat, src: nat): seq<seq<seq<nat>>>
    requires peer < |sig| && row < |sig[peer]| && src < |sig[peer][row]|
  {
    sig[peer := sig[peer][row := sig[peer][row][src := sig[peer][row][src] + 1]]]
  }

  /** What the ranks contribute to chunk `c`. */
  ghost function Column<V>(x: seq<seq<V>>, c: nat): (col: seq<V>)
    requires Square(|x|, x) && c < |x|
    ensures |col| == |x| && forall r :: 0 <= r < |x| ==> col[r] == x[r][c]
  {
    seq(|x|, r requires 0 <= r < |x| && Square(|x|, x) => x[r][c])
  }

  /** The reference: the contributions of ranks `lo..hi`, both included, in rank order. */
  ghost function RankSum<V>(col: seq<V>, add: (V, V) -> V, lo: nat, hi: nat): V
    requires lo <= hi < |col|
    decreases hi
  {
    if lo == hi then col[lo] else add(RankSum(col, add, lo, hi - 1), col[hi])
  }

  /** Two neighbouring spans of ranks add up to the joined span. */
  lemma {:induction false} RankSumJoin<V(!new)>(col: seq<V>, add: (V, V) -> V, lo: nat, mid: nat, hi: nat)
    requires AssocComm(add) && lo <= mid < hi < |col|
    ensures add(RankSum(col, add, lo, mid), RankSum(col, add, mid + 1, hi)) == RankSum(col, add, lo, hi)
    decreases hi
  {
    if mid + 1 < hi {
      RankSumJoin(col, add, lo, mid, hi - 1);
      assert AssocAt(add, RankSum(col, add, lo, mid), RankSum(col, add, mid + 1, hi - 1), col[hi]);
    }
  }

  /** `acc` after the loop has met peers `0..n-1`: start from the own value, skip oneself. */
  ghost function FoldPeers<V>(col: seq<V>, add: (V, V) -> V, own: nat, n: nat): V
    requires own < |col| && n <= |col|
    decreases n
  {
    if n == 0 then col[own]
    else if n - 1 == own then FoldPeers(col, add, own, n - 1)
    else add(FoldPeers(col, add, own, n - 1), col[n - 1])
  }

  /** Before the loop passes `own`, the own value is at the front of the lower ranks' sum;
      afterwards it has moved into place. */
  lemma {:induction false} FoldPeersIsRankSum<V(!new)>(col: seq<V>, add: (V, V) -> V, own: nat, n: nat)
    requires AssocComm(add) && own < |col| && 0 < n <= |col|
    ensures FoldPeers(col, add, own, n)
         == if n <= own then add(col[own], RankSum(col, add, 0, n - 1)) else RankSum(col, add, 0, n - 1)
    decreases n
  {
    if n > 1 {
      FoldPeersIsRankSum(col, add, own, n - 1);
      var below := RankSum(col, add, 0, n - 2);
      assert AssocAt(add, col[own], below, col[n - 1]);
      assert CommAt(add, col[own], below);
    } else if own > 0 {
      assert FoldPeers(col, add, own, 0) == col[own];
    }
  }

  /** Over an associative, commutative `add` every rank folds to the same sum. */
  lemma FoldAll<V(!new)>(col: seq<V>, add: (V, V) -> V, own: nat)
    requires AssocComm(add) && own < |col|
    ensures FoldPeers(col, add, own, |col|) == RankSum(col, add, 0, |col| - 1)
  {
    FoldPeersIsRankSum(col, add, own, |col|);
  }

  // ---------------------------------------------------------------- element-wise chunks

  /** `pl.add` on two tiles, over reals. */
  function AddTiles(a: seq<real>, b: seq<real>): (s: seq<real>)
    ensures |s| == if |a| < |b| then |a| else |b|
    ensures forall i :: 0 <= i < |s| ==> s[i] == a[i] + b[i]
  {
    seq(if |a| < |b| then |a| else |b|, i requires 0 <= i < |a| && i < |b| => a[i] + b[i])
  }

  lemma AddTilesAssocComm()
    ensures AssocComm(AddTiles)
  {
    forall a: seq<real>, b: seq<real>
      ensures CommAt(AddTiles, a, b)
    {
      assert AddTiles(a, b) == AddTiles(b, a);
    }
    forall a: seq<real>, b: seq<real>, c: seq<real>
      ensures AssocAt(AddTiles, a, b, c)
    {
      assert AddTiles(AddTiles(a, b), c) == AddTiles(a, AddTiles(b, c));
    }
  }

  /** The flat `[1, SIZE]` row whose chunks are `chunks[0], chunks[1], ..`. */
  ghost function Flat(chunks: seq<seq<real>>): seq<real> {
    if chunks == [] then [] else Flat(chunks[..|chunks| - 1]) + chunks[|chunks| - 1]
  }

  /** The reference: the element-wise sum of the flat inputs of ranks `0..hi`. */
  ghost function RowSum(x: seq<seq<seq<real>>>, hi: nat): seq<real>
    requires hi < |x|
  {
    if hi == 0 then Flat(x[0]) else AddTiles(RowSum(x, hi - 1), Flat(x[hi]))
  }

  /** Adding tile by tile is adding the flat rows. */
  lemma {:induction false} FlatAdd(a: seq<seq<real>>, b: seq<seq<real>>, s: seq<seq<real>>)
    requires |a| == |b| == |s|
    requires forall c :: 0 <= c < |a| ==> |a[c]| == |b[c]| && s[c] == AddTiles(a[c], b[c])
    ensures |Flat(a)| == |Flat(b)| && Flat(s) == AddTiles(Flat(a), Flat(b))
  {
    if a != [] {
      var n := |a| - 1;
      FlatAdd(a[..n], b[..n], s[..n]);
      AddTilesJoin(Flat(a[..n]), Flat(b[..n]), a[n], b[n]);
    }
  }

  lemma AddTilesJoin(a: seq<real>, b: seq<real>, a': seq<real>, b': seq<real>)
    requires |a| == |b| && |a'| == |b'|
    ensures AddTiles(a + a', b + b') == AddTiles(a, b) + AddTiles(a', b')
  {
  }

  /** Chunks that each hold everyone's sum lie flat as the sum of the flat inputs. */
  lemma {:induction false} FlatOfSums(x: seq<seq<seq<real>>>, chunk: nat, sums: seq<seq<real>>, hi: nat)
    requires hi < |x| == |sums| && Square(|x|, x)
    requires forall r, c :: 0 <= r < |x| && 0 <= c < |x| ==> |x[r][c]| == chunk
    requires forall c :: 0 <= c < |x| ==> sums[c] == RankSum(Column(x, c), AddTiles, 0, hi)
    ensures forall c :: 0 <= c < |x| ==> |sums[c]| == chunk
    ensures Flat(sums) == RowSum(x, hi)
    decreases hi
  {
    if hi == 0 {
      assert sums == x[0];
    } else {
      var below := seq(|x|, c requires 0 <= c < |x| && Square(|x|, x) => RankSum(Column(x, c), AddTiles, 0, hi - 1));
      FlatOfSums(x, chunk, below, hi - 1);
      FlatAdd(below, x[hi], sums);
    }
  }

  /** Chunk by chunk from the left: element `i` of chunk `c` is element `c * chunk + i`. */
  lemma {:induction false} FlatAt(chunks: seq<seq<real>>, chunk: nat, c: nat, i: nat)
    requires c < |chunks| && i < chunk && forall k :: 0 <= k < |chunks| ==> |chunks[k]| == chunk
    ensures |Flat(chunks)| == |chunks| * chunk && c * chunk + i < |Flat(chunks)|
    ensures Flat(chunks)[c * chunk + i] == chunks[c][i]
    decreases |chunks|
  {
    var n := |chunks| - 1;
    MulStep(n, chunk);
    MulLe(c, n, chunk);
    FlatLength(chunks[..n], chunk);
    if c < n {
      FlatAt(chunks[..n], chunk, c, i);
      MulStep(c, chunk);
      MulLe(c + 1, n, chunk);
    }
  }

  lemma {:induction false} FlatLength(chunks: seq<seq<real>>, chunk: nat)
    requires forall k :: 0 <= k < |chunks| ==> |chunks[k]| == chunk
    ensures |Flat(chunks)| == |chunks| * chunk
  {
    if chunks != [] {
      FlatLength(chunks[..|chunks| - 1], chunk);
      MulStep(|chunks| - 1, chunk);
    }
  }

  /** The sum of element `i` of chunk `c` over the inputs of ranks `0..hi`. */
  ghost function ElementSum(x: seq<seq<seq<real>>>, hi: nat, c: nat, i: nat): real
    requires hi < |x| && forall q :: 0 <= q <= hi ==> c < |x[q]| && i < |x[q][c]|
  {
    if hi == 0 then x[0][c][i] else ElementSum(x, hi - 1, c, i) + x[hi][c][i]
  }

  lemma {:induction false} RankSumAt(x: seq<seq<seq<real>>>, chunk: nat, hi: nat, c: nat, i: nat)
    requires hi < |x| && Square(|x|, x) && c < |x| && i < chunk
    requires forall r, k :: 0 <= r < |x| && 0 <= k < |x| ==> |x[r][k]| == chunk
    ensures var sum := RankSum(Column(x, c), AddTiles, 0, hi);
            |sum| == chunk && sum[i] == ElementSum(x, hi, c, i)
    decreases hi
  {
    if hi > 0 {
      RankSumAt(x, chunk, hi - 1, c, i);
    }
  }

  /** Inputs of one chunk size on every rank. */
  ghost predicate Even(x: seq<seq<seq<real>>>, chunk: nat) {
    Square(|x|, x) && forall r, c :: 0 <= r < |x| && 0 <= c < |x| ==> |x[r][c]| == chunk
  }

  /** `out` holds, element by element, the sums over all ranks. */
  ghost predicate HoldsSums(out: seq<seq<real>>, x: seq<seq<seq<real>>>, chunk: nat)
    requires x != [] && Even(x, chunk)
  {
    && |out| == |x| && (forall c :: 0 <= c < |x| ==> |out[c]| == chunk)
    && forall c, i :: 0 <= c < |x| && 0 <= i < chunk ==> out[c][i] == ElementSum(x, |x| - 1, c, i)
  }

  /** `out` holds the sums of the columns, as tiles. */
  ghost predicate SumsColumns(out: seq<seq<real>>, x: seq<seq<seq<real>>>)
    requires x != [] && Square(|x|, x)
  {
    |out| == |x| && forall c :: 0 <= c < |x| ==> out[c] == RankSum(Column(x, c), AddTiles, 0, |x| - 1)
  }

  lemma SumHeld(sum: seq<real>, x: seq<seq<seq<real>>>, chunk: nat, c: nat)
    requires x != [] && Even(x, chunk) && c < |x| && sum == RankSum(Column(x, c), AddTiles, 0, |x| - 1)
    ensures chunk > 0 ==> |sum| == chunk
    ensures forall i :: 0 <= i < chunk && i < |sum| ==> sum[i] == ElementSum(x, |x| - 1, c, i)
  {
    if chunk > 0 { RankSumAt(x, chunk, |x| - 1, c, 0); }
    forall i | 0 <= i < chunk
      ensures |sum| == chunk && sum[i] == ElementSum(x, |x| - 1, c, i)
    {
      RankSumAt(x, chunk, |x| - 1, c, i);
    }
  }

  lemma SumsHeld(out: seq<seq<real>>, x: seq<seq<seq<real>>>, chunk: nat)
    requires x != [] && Even(x, chunk) && SumsColumns(out, x)
    requires forall c :: 0 <= c < |x| ==> |out[c]| == chunk
    ensures HoldsSums(out, x, chunk)
  {
    forall c | 0 <= c < |x|
      ensures forall i :: 0 <= i < chunk ==> out[c][i] == ElementSum(x, |x| - 1, c, i)
    {
      SumHeld(out[c], x, chunk, c);
    }
  }
}
