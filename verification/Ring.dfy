/** The ring all-reduce of examples/distributed/10_allreduce_ring.py as an
    asynchronous system: every rank runs `ring_step`, one atomic action at a time, in
    any interleaving, over windows its neighbours read and signals they add to. */
module Ring {
  import opened ChunkSums

  // ---------------------------------------------------------------- ring arithmetic

  lemma ModFacts(a: nat, P: nat)
    requires 0 < P
    ensures a < P ==> a % P == a
    ensures P <= a < 2 * P ==> a % P == a - P
  {
  }

  function Left(P: nat, r: nat): (l: nat)
    requires r < P
    ensures l == if r == 0 then P - 1 else r - 1
  {
    ModFacts(r - 1 + P, P);
    (r - 1 + P) % P
  }

  function Right(P: nat, r: nat): (q: nat)
    requires r < P
    ensures q == if r == P - 1 then 0 else r + 1
  {
    ModFacts(r + 1, P);
    (r + 1) % P
  }

  /** `r - d` around the ring, for `d` up to twice round. */
  ghost function Back(P: nat, r: nat, d: nat): (q: nat)
    requires r < P && d <= 2 * P
    ensures q < P
  {
    if d <= r then r - d else if d <= r + P then r - d + P else r - d + 2 * P
  }

  /** The chunk rank `r` stores in round `k`: `recv_add_idx` while reducing,
      `recv_idx` while gathering. The two loops number their rounds `s` and
      `(P - 1) + s`; with that numbering one formula covers both. */
  function RecvIdx(P: nat, r: nat, k: nat): (c: nat)
    requires P >= 2 && r < P && k < 2 * (P - 1)
    ensures c == Back(P, r, k + 2)
  {
    if k < P - 1 then
      var step := k + 1;
      ModFacts(r - step - 1 + P, P);
      (r - step - 1 + P) % P
    else
      var step := k - (P - 1) + 1;
      ModFacts(r - step + P, P);
      (r - step + P) % P
  }

  /** The chunk rank `r` reads out of its left neighbour in round `k`: `left_send_idx`. */
  function SendIdx(P: nat, r: nat, k: nat): (c: nat)
    requires P >= 2 && r < P && k < 2 * (P - 1)
    ensures c == Back(P, r, k + 2)
  {
    var left := Left(P, r);
    if k < P - 1 then
      var step := k + 1;
      ModFacts(left - step + P, P);
      (left - step + P) % P
    else
      var step := k - (P - 1) + 1;
      ModFacts(left - step + 1 + P, P);
      (left - step + 1 + P) % P
  }

  // ---------------------------------------------------------------- the program of a rank

  datatype Sub = AtWait | AtLoad | AtAcc | AtStore | AtNotify
  datatype Pc =
    | StageIn(c: nat)            // about to store input chunk c into the own window
    | Ready                      // about to notify the right neighbour on row 0
    | Round(k: nat, at: Sub)     // inside round k
    | StageOut(c: nat)           // about to copy window chunk c to the output
    | Done

  predicate PcOk(P: nat, pc: Pc)
    requires P >= 2
  {
    match pc
    case StageIn(c) => c < P
    case Ready => true
    case Round(k, at) =>
      && k < 2 * (P - 1)
      && (at.AtAcc? ==> k < P - 1)
      && (at.AtNotify? ==> k < 2 * (P - 1) - 1)
    case StageOut(c) => c < P
    case Done => true
  }

  /** The program counter after one action. */
  function Advance(P: nat, pc: Pc): (next: Pc)
    requires P >= 2 && PcOk(P, pc) && !pc.Done?
    ensures PcOk(P, next)
  {
    match pc
    case StageIn(c) => if c + 1 < P then StageIn(c + 1) else Ready
    case Ready => Round(0, AtWait)
    case Round(k, AtWait) => Round(k, AtLoad)
    case Round(k, AtLoad) => if k < P - 1 then Round(k, AtAcc) else Round(k, AtStore)
    case Round(k, AtAcc) => Round(k, AtStore)
    case Round(k, AtStore) => if k < 2 * (P - 1) - 1 then Round(k, AtNotify) else StageOut(0)
    case Round(k, AtNotify) => Round(k + 1, AtWait)
    case StageOut(c) => if c + 1 < P then StageOut(c + 1) else Done
  }

  // ---------------------------------------------------------------- actions

  /** The memory actions of `ring_step`; each is atomic, and ranks interleave between them. */
  datatype Action =
    | LoadInput(c: nat)                  // store input chunk c into the own window
    | Notify(peer: nat, row: nat)        // add 1 to peer's cell [row, my_rank]
    | Wait(row: nat, src: nat)           // until the own cell [row, src] is >= 1
    | RemoteLoad(peer: nat, chunk: nat)  // peer's window chunk into the receive tile
    | LoadOwn(chunk: nat)                // own window chunk into the accumulator tile
    | StoreSum(chunk: nat)               // accumulator + received tile into the own window
    | StoreRecv(chunk: nat)              // received tile into the own window
    | WriteOutput(c: nat)                // own window chunk c into the output

  /** Every peer is a rank, every chunk index a chunk, every row one of the `2 * (P - 1)`. */
  predicate ActionOk(P: nat, action: Action)
    requires P >= 2
  {
    match action
    case LoadInput(c) => c < P
    case Notify(peer, row) => peer < P && row < 2 * (P - 1)
    case Wait(row, src) => row < 2 * (P - 1) && src < P
    case RemoteLoad(peer, chunk) => peer < P && chunk < P
    case LoadOwn(chunk) => chunk < P
    case StoreSum(chunk) => chunk < P
    case StoreRecv(chunk) => chunk < P
    case WriteOutput(c) => c < P
  }

  /** The action rank `r` performs at `pc`. */
  function ActionAt(P: nat, r: nat, pc: Pc): (action: Action)
    requires P >= 2 && r < P && PcOk(P, pc) && !pc.Done?
    ensures ActionOk(P, action)
  {
    match pc
    case StageIn(c) => LoadInput(c)
    case Ready => Notify(Right(P, r), 0)
    case Round(k, AtWait) => Wait(k, Left(P, r))
    case Round(k, AtLoad) => RemoteLoad(Left(P, r), SendIdx(P, r, k))
    case Round(k, AtAcc) => LoadOwn(RecvIdx(P, r, k))
    case Round(k, AtStore) => if k < P - 1 then StoreSum(RecvIdx(P, r, k)) else StoreRecv(RecvIdx(P, r, k))
    case Round(k, AtNotify) => Notify(Right(P, r), k + 1)
    case StageOut(c) => WriteOutput(c)
  }

  // ---------------------------------------------------------------- the system

  datatype State<V> = State(
    pc: seq<Pc>,
    scratch: seq<seq<V>>,        // scratch[r][c]: chunk c of rank r's window
    recv: seq<V>,                // the tile a rank loaded from its left neighbour
    acc: seq<V>,                 // the tile a rank loaded from its own window
    sig: seq<seq<seq<nat>>>,     // sig[r][row][col]: rank r's signal cell
    out: seq<seq<V>>)            // out[r][c]: chunk c of rank r's output

  ghost predicate Shape<V>(P: nat, s: State<V>)
    requires P >= 2
  {
    && |s.pc| == |s.scratch| == |s.recv| == |s.acc| == |s.sig| == |s.out| == P
    && (forall r :: 0 <= r < P ==> PcOk(P, s.pc[r]))
    && (forall r :: 0 <= r < P ==> |s.scratch[r]| == P && |s.out[r]| == P)
    && (forall r :: 0 <= r < P ==> |s.sig[r]| == 2 * (P - 1))
    && (forall r, row :: 0 <= r < P && 0 <= row < 2 * (P - 1) ==> |s.sig[r][row]| == P)
  }

  /** Windows, registers and outputs start with whatever they held; signals start at zero. */
  ghost predicate Init<V>(cfg: Config<V>, s: State<V>)
    requires cfg.Ok()
  {
    && Shape(cfg.P, s)
    && (forall r :: 0 <= r < cfg.P ==> s.pc[r] == StageIn(0))
    && (forall r, row, col :: 0 <= r < cfg.P && 0 <= row < cfg.Rounds() && 0 <= col < cfg.P ==>
          s.sig[r][row][col] == 0)
  }

  /** Only a wait can hold a rank up: it needs its cell for the left neighbour at 1 or more. */
  ghost predicate Enabled<V>(cfg: Config<V>, s: State<V>, r: nat)
    requires cfg.Ok() && Shape(cfg.P, s) && r < cfg.P
  {
    !s.pc[r].Done? &&
    match ActionAt(cfg.P, r, s.pc[r])
    case Wait(row, src) => s.sig[r][row][src] >= 1
    case _ => true
  }

  /** What an action of rank `r` does to the memory. */
  ghost function Effect<V>(cfg: Config<V>, s: State<V>, r: nat, action: Action): (t: State<V>)
    requires cfg.Ok() && Shape(cfg.P, s) && r < cfg.P && ActionOk(cfg.P, action)
    ensures Shape(cfg.P, t) && t.pc == s.pc
  {
    match action
    case LoadInput(c) => s.(scratch := s.scratch[r := s.scratch[r][c := cfg.x[r][c]]])
    case Notify(peer, row) => s.(sig := AddSignal(s.sig, peer, row, r))
    case Wait(_, _) => s
    case RemoteLoad(peer, chunk) => s.(recv := s.recv[r := s.scratch[peer][chunk]])
    case LoadOwn(chunk) => s.(acc := s.acc[r := s.scratch[r][chunk]])
    case StoreSum(chunk) => s.(scratch := s.scratch[r := s.scratch[r][chunk := cfg.add(s.acc[r], s.recv[r])]])
    case StoreRecv(chunk) => s.(scratch := s.scratch[r := s.scratch[r][chunk := s.recv[r]]])
    case WriteOutput(c) => s.(out := s.out[r := s.out[r][c := s.scratch[r][c]]])
  }

  /** One atomic step of rank `r`. */
  ghost function Step<V>(cfg: Config<V>, s: State<V>, r: nat): (t: State<V>)
    requires cfg.Ok() && Shape(cfg.P, s) && r < cfg.P && Enabled(cfg, s, r)
    ensures Shape(cfg.P, t)
  {
    Effect(cfg, s, r, ActionAt(cfg.P, r, s.pc[r])).(pc := s.pc[r := Advance(cfg.P, s.pc[r])])
  }

  /** A run: any start, then any interleaving of enabled ranks. */
  ghost predicate Run<V>(cfg: Config<V>, run: seq<State<V>>)
    requires cfg.Ok()
  {
    && run != []
    && Init(cfg, run[0])
    && forall i :: 0 <= i < |run| - 1 ==> Moves(cfg, run[i], run[i + 1])
  }

  ghost predicate Moves<V>(cfg: Config<V>, s: State<V>, t: State<V>)
    requires cfg.Ok()
  {
    Shape(cfg.P, s) && exists r: nat :: r < cfg.P && Enabled(cfg, s, r) && t == Step(cfg, s, r)
  }

  ghost predicate Finished<V>(cfg: Config<V>, s: State<V>)
    requires cfg.Ok() && Shape(cfg.P, s)
  {
    forall r :: 0 <= r < cfg.P ==> s.pc[r].Done?
  }

  // ---------------------------------------------------------------- counters read off a pc

  /** Round stores a rank has made. */
  function Stores(P: nat, pc: Pc): nat
    requires P >= 2
  {
    match pc
    case StageIn(_) => 0
    case Ready => 0
    case Round(k, at) => if at.AtNotify? then k + 1 else k
    case StageOut(_) => 2 * (P - 1)
    case Done => 2 * (P - 1)
  }

  /** Signal rows a rank has notified its right neighbour on. */
  function Notified(P: nat, pc: Pc): nat
    requires P >= 2
  {
    match pc
    case StageIn(_) => 0
    case Ready => 0
    case Round(k, _) => k + 1
    case StageOut(_) => 2 * (P - 1)
    case Done => 2 * (P - 1)
  }

  /** Rounds whose remote load a rank has made. */
  function Loads(P: nat, pc: Pc): nat
    requires P >= 2
  {
    match pc
    case StageIn(_) => 0
    case Ready => 0
    case Round(k, at) => if at.AtWait? || at.AtLoad? then k else k + 1
    case StageOut(_) => 2 * (P - 1)
    case Done => 2 * (P - 1)
  }

  // ---------------------------------------------------------------- what the windows hold

  /** The contributions of ranks `q, q-1, .., q-n` to chunk `c`, nested as the ring nests them. */
  ghost function Part<V>(cfg: Config<V>, q: nat, c: nat, n: nat): V
    requires cfg.Ok() && q < cfg.P && c < cfg.P && n < cfg.P
    decreases n
  {
    if n == 0 then cfg.x[q][c] else cfg.add(cfg.x[q][c], Part(cfg, Left(cfg.P, q), c, n - 1))
  }

  /** The finished chunk `c`: every rank once, from rank `c` leftwards. */
  ghost function Total<V>(cfg: Config<V>, c: nat): V
    requires cfg.Ok() && c < cfg.P
  {
    Part(cfg, c, c, cfg.P - 1)
  }

  /** What rank `r` stores in round `k`. */
  ghost function Stored<V>(cfg: Config<V>, r: nat, k: nat): V
    requires cfg.Ok() && r < cfg.P && k < cfg.Rounds()
  {
    var c := RecvIdx(cfg.P, r, k);
    if k < cfg.P - 1 then Part(cfg, r, c, k + 1) else Total(cfg, c)
  }

  /** What rank `r` must receive in round `k`. */
  ghost function Incoming<V>(cfg: Config<V>, r: nat, k: nat): V
    requires cfg.Ok() && r < cfg.P && k < cfg.Rounds()
  {
    var left := Left(cfg.P, r);
    if k == 0 then cfg.x[left][SendIdx(cfg.P, r, 0)] else Stored(cfg, left, k - 1)
  }

  /** Chunk `c` of rank `r`'s window once staged and after `d` round stores. */
  ghost function Content<V>(cfg: Config<V>, r: nat, c: nat, d: nat): V
    requires cfg.Ok() && r < cfg.P && c < cfg.P && d <= cfg.Rounds()
    decreases d
  {
    if d == 0 then cfg.x[r][c]
    else if RecvIdx(cfg.P, r, d - 1) == c then Stored(cfg, r, d - 1)
    else Content(cfg, r, c, d - 1)
  }

  /** A rank stores what it must: own contribution plus the incoming part while
      reducing, the incoming chunk as it is while gathering. */
  lemma StoredFromIncoming<V>(cfg: Config<V>, r: nat, k: nat)
    requires cfg.Ok() && r < cfg.P && k < cfg.Rounds()
    ensures k < cfg.P - 1 ==>
              Stored(cfg, r, k) == cfg.add(cfg.x[r][RecvIdx(cfg.P, r, k)], Incoming(cfg, r, k))
    ensures k >= cfg.P - 1 ==> Stored(cfg, r, k) == Incoming(cfg, r, k)
  {
    var left, c := Left(cfg.P, r), RecvIdx(cfg.P, r, k);
    assert c == SendIdx(cfg.P, r, k);
    if k > 0 {
      assert RecvIdx(cfg.P, left, k - 1) == c;
    }
    if k == 0 {
      assert Part(cfg, left, c, 0) == cfg.x[left][c];
      assert Part(cfg, r, c, 1) == cfg.add(cfg.x[r][c], Part(cfg, left, c, 0));
    } else if k == cfg.P - 1 {
      // the left neighbour finished this very chunk in the last reduce-scatter round
      assert c == left;
    }
  }

  /** A chunk keeps what round `k` stored until a whole turn later. */
  lemma {:induction false} ContentAfter<V>(cfg: Config<V>, r: nat, k: nat, d: nat)
    requires cfg.Ok() && r < cfg.P && k < cfg.Rounds()
    requires k < d <= k + cfg.P && d <= cfg.Rounds()
    ensures Content(cfg, r, RecvIdx(cfg.P, r, k), d) == Stored(cfg, r, k)
    decreases d
  {
    if k + 1 < d {
      assert RecvIdx(cfg.P, r, d - 1) != RecvIdx(cfg.P, r, k);
      ContentAfter(cfg, r, k, d - 1);
    }
  }

  /** A chunk holds the rank's own input until its first store. */
  lemma {:induction false} ContentBefore<V>(cfg: Config<V>, r: nat, c: nat, d: nat)
    requires cfg.Ok() && r < cfg.P && c < cfg.P && d <= cfg.Rounds()
    requires forall j :: 0 <= j < d ==> RecvIdx(cfg.P, r, j) != c
    ensures Content(cfg, r, c, d) == cfg.x[r][c]
    decreases d
  {
    if d > 0 {
      ContentBefore(cfg, r, c, d - 1);
    }
  }

  /** What round `k` must read is still there while the left neighbour is at most
      `P - 1` stores ahead of the reader. */
  lemma ContentKept<V>(cfg: Config<V>, r: nat, k: nat, d: nat)
    requires cfg.Ok() && r < cfg.P && k < cfg.Rounds()
    requires k <= d <= k + cfg.P - 1 && d <= cfg.Rounds()
    ensures Content(cfg, Left(cfg.P, r), SendIdx(cfg.P, r, k), d) == Incoming(cfg, r, k)
  {
  }

  /** While reducing, a rank adds into a chunk that still holds its own input. */
  lemma ContentOwn<V>(cfg: Config<V>, r: nat, k: nat)
    requires cfg.Ok() && r < cfg.P && k < cfg.P - 1
    ensures Content(cfg, r, RecvIdx(cfg.P, r, k), k) == cfg.x[r][RecvIdx(cfg.P, r, k)]
  {
    forall j: nat | j < k
      ensures RecvIdx(cfg.P, r, j) != RecvIdx(cfg.P, r, k)
    {
    }
    ContentBefore(cfg, r, RecvIdx(cfg.P, r, k), k);
  }

  /** After the last round every window holds every finished chunk. */
  lemma ContentFinal<V>(cfg: Config<V>, r: nat, c: nat)
    requires cfg.Ok() && r < cfg.P && c < cfg.P
    ensures Content(cfg, r, c, cfg.Rounds()) == Total(cfg, c)
  {
    var k := cfg.P - 2 + Back(cfg.P, r, c);   // the last round that stores chunk c
    assert RecvIdx(cfg.P, r, k) == c;
    ContentAfter(cfg, r, k, cfg.Rounds());
  }
}
