/** Pending comments of the IR builder over any sequence of calls: none is duplicated, and
    when each one goes to a statement of the context it was pushed in. */
module BuilderComments {
  import opened Options
  import opened BuilderState

  // ---------------------------------------------------------------- every list is accounted for

  /** The comment lists still on the stack. Empty lists do not count. */
  function Held(pending: seq<Pending>): multiset<Comments> {
    if pending == [] then multiset{}
    else Held(pending[..|pending| - 1]) + Bag(pending[|pending| - 1].comments)
  }

  function Bag(comments: Comments): multiset<Comments> {
    if comments == [] then multiset{} else multiset{comments}
  }

  /** The state in which a call would place a statement, and that statement. */
  function Placing(s: State, e: Event): Option<(State, Stmt)> {
    if s.contexts == [] then None
    else match e
      case Emit(stmt) => Some((s, stmt))
      case EndFor => if !Refused(s, e) && s.Under().contexts != [] then Some((s.Under(), LoopOf(s.Top()))) else None
      case EndWhile => if !Refused(s, e) && s.Under().contexts != [] then Some((s.Under(), LoopOf(s.Top()))) else None
      case EndIf => if !Refused(s, e) && s.Under().contexts != [] then Some((s.Under(), IfOf(s.Top()))) else None
      case EndScope(extra) => if !Refused(s, e) && s.Under().contexts != []
          then Some((s.Under(), ScopeOf(s.Top(), extra))) else None
      case _ => None
  }

  /** The comments a call attaches to the statement it places. */
  function Attached(s: State, e: Event): Comments {
    match Placing(s, e)
    case Some((at, stmt)) => if stmt.Seq? then [] else Waiting(at)
    case None => []
  }

  /** The comments a call hands back. */
  function Returned(s: State, e: Event): Comments {
    if e.PopComments? && s.pending != [] then s.pending[|s.pending| - 1].comments else []
  }

  /** The comments a call drops: those waiting for a bare sequence. */
  function Dropped(s: State, e: Event): Comments {
    match Placing(s, e)
    case Some((at, stmt)) => if stmt.Seq? then Waiting(at) else []
    case None => []
  }

  function Added(e: Event): Comments {
    if e.PushComments? then e.comments else []
  }

  lemma HeldSnoc(pending: seq<Pending>, p: Pending)
    ensures Held(pending + [p]) == Held(pending) + Bag(p.comments)
  {
  }

  lemma HeldLeave(s: State)
    ensures Held(Leave(s, []).pending) + Bag(Waiting(s)) == Held(s.pending)
    ensures Waiting(s) == [] ==> Held(Leave(s, []).pending) == Held(s.pending)
  {
    if s.pending != [] && s.contexts != [] && s.pending[|s.pending| - 1].target == Some(s.Top().addr) {
      var n := |s.pending| - 1;
      HeldSnoc(s.pending[..n], s.pending[n].(comments := []));
    }
  }

  lemma PlaceHeld(s: State, stmt: Stmt)
    requires s.contexts != []
    ensures Held(Place(s, stmt).pending) + Bag(Waiting(s)) == Held(s.pending)
  {
    HeldLeave(s);
  }

  /** A call that pops no entry and pushes none, and what it does to the entries. */
  lemma PendingAfter(s: State, e: Event)
    requires !e.PushComments? && !e.PopComments?
    ensures Apply(s, e).pending == match Placing(s, e) case Some((at, stmt)) => Place(at, stmt).pending
      case None => s.pending
    ensures Placing(s, e).Some? ==> Placing(s, e).value.0.pending == s.pending && Placing(s, e).value.0.contexts != []
  {
  }

  lemma PushPending(s: State, comments: Comments)
    ensures Apply(s, PushComments(comments)).pending == s.pending + [PendingFor(s, comments)]
    ensures PendingFor(s, comments).comments == comments
  {
  }

  lemma PushHeld(s: State, e: Event)
    requires e.PushComments?
    ensures Held(Apply(s, e).pending) == Held(s.pending) + Bag(Added(e))
    ensures Attached(s, e) == Returned(s, e) == Dropped(s, e) == []
  {
    PushPending(s, e.comments);
    HeldSnoc(s.pending, PendingFor(s, e.comments));
  }

  lemma PopPending(s: State)
    ensures Apply(s, PopComments).pending == if s.pending == [] then [] else s.pending[..|s.pending| - 1]
  {
  }

  lemma PopHeld(s: State, e: Event)
    requires e.PopComments?
    ensures Held(Apply(s, e).pending) + Bag(Returned(s, e)) == Held(s.pending)
    ensures Attached(s, e) == Dropped(s, e) == Added(e) == []
  {
    PopPending(s);
  }

  /** What waits where a statement is placed goes to it or is dropped, as a whole. */
  lemma AttachedOrDropped(s: State, e: Event)
    requires !e.PushComments? && !e.PopComments?
    ensures Bag(Attached(s, e)) + Bag(Dropped(s, e)) == match Placing(s, e) case Some((at, stmt)) => Bag(Waiting(at))
      case None => multiset{}
  {
  }

  lemma OtherHeld(s: State, e: Event)
    requires !e.PushComments? && !e.PopComments?
    ensures Held(Apply(s, e).pending) + Bag(Attached(s, e)) + Bag(Dropped(s, e)) == Held(s.pending)
    ensures Returned(s, e) == Added(e) == []
  {
    PendingAfter(s, e);
    AttachedOrDropped(s, e);
    match Placing(s, e)
    case Some((at, stmt)) => PlaceHeld(at, stmt);
    case None =>
  }

  /** Every comment list held, plus the one pushed, is afterwards held, attached, returned
      or dropped: exactly one of them, and nothing appears from nowhere. */
  lemma StepConserves(s: State, e: Event)
    ensures Held(Apply(s, e).pending) + Bag(Attached(s, e)) + Bag(Returned(s, e)) + Bag(Dropped(s, e))
         == Held(s.pending) + Bag(Added(e))
  {
    if e.PushComments? {
      PushHeld(s, e);
    } else if e.PopComments? {
      PopHeld(s, e);
    } else {
      OtherHeld(s, e);
    }
  }

  datatype Account = Account(attached: multiset<Comments>, returned: multiset<Comments>, dropped: multiset<Comments>,
      added: multiset<Comments>)

  /** What a whole run does with comments. */
  function Ledger(s: State, es: seq<Event>): Account
    decreases |es|
  {
    if es == [] then Account(multiset{}, multiset{}, multiset{}, multiset{})
    else
      var first, rest := Entry(s, es[0]), Ledger(Apply(s, es[0]), es[1..]);
      Account(first.attached + rest.attached, first.returned + rest.returned, first.dropped + rest.dropped,
          first.added + rest.added)
  }

  lemma Sums(h0: multiset<Comments>, h1: multiset<Comments>, h2: multiset<Comments>, first: Account, rest: Account)
    requires h1 + first.attached + first.returned + first.dropped == h0 + first.added
    requires h2 + rest.attached + rest.returned + rest.dropped == h1 + rest.added
    ensures h2 + (first.attached + rest.attached) + (first.returned + rest.returned) + (first.dropped + rest.dropped)
         == h0 + (first.added + rest.added)
  {
    var left := h2 + (first.attached + rest.attached) + (first.returned + rest.returned)
        + (first.dropped + rest.dropped);
    var right := h0 + (first.added + rest.added);
    forall x: Comments
      ensures left[x] == right[x]
    {
      assert (h1 + first.attached + first.returned + first.dropped)[x] == (h0 + first.added)[x];
      assert (h2 + rest.attached + rest.returned + rest.dropped)[x] == (h1 + rest.added)[x];
    }
  }

  /** What one call does with comments. */
  function Entry(s: State, e: Event): Account {
    Account(Bag(Attached(s, e)), Bag(Returned(s, e)), Bag(Dropped(s, e)), Bag(Added(e)))
  }

  /** Over any run, of any calls, refused ones included, each pushed list is attached at
      most once, or returned at most once, or still there. */
  lemma {:induction false} RunConserves(s: State, es: seq<Event>)
    ensures var l := Ledger(s, es);
            Held(Run(s, es).pending) + l.attached + l.returned + l.dropped == Held(s.pending) + l.added
    decreases |es|
  {
    if es != [] {
      var next := Apply(s, es[0]);
      StepConserves(s, es[0]);
      RunConserves(next, es[1..]);
      Sums(Held(s.pending), Held(next.pending), Held(Run(next, es[1..]).pending), Entry(s, es[0]),
          Ledger(next, es[1..]));
    }
  }

  /** The call emits a bare sequence where comments wait. */
  predicate MeetsBareSequence(s: State, e: Event) {
    e.Emit? && e.stmt.Seq? && s.contexts != [] && Waiting(s) != []
  }

  /** Comments are dropped exactly there, and all that wait. */
  lemma DropsExactly(s: State, e: Event)
    ensures Dropped(s, e) == if MeetsBareSequence(s, e) then Waiting(s) else []
    ensures MeetsBareSequence(s, e) ==> OutcomeOf(s, e) == Raised && Waiting(Apply(s, e)) == []
  {
  }

  predicate NeverMeetsBareSequence(s: State, es: seq<Event>)
    decreases |es|
  {
    es == [] || (!MeetsBareSequence(s, es[0]) && NeverMeetsBareSequence(Apply(s, es[0]), es[1..]))
  }

  lemma {:induction false} LosesExactly(s: State, es: seq<Event>)
    ensures Ledger(s, es).dropped == multiset{} <==> NeverMeetsBareSequence(s, es)
    decreases |es|
  {
    if es != [] {
      var first, rest := Entry(s, es[0]), Ledger(Apply(s, es[0]), es[1..]);
      DropsExactly(s, es[0]);
      LosesExactly(Apply(s, es[0]), es[1..]);
      assert |first.dropped + rest.dropped| == |first.dropped| + |rest.dropped|;
    }
  }

  /** A run loses no comments if and only if it never emits a bare sequence where some wait;
      then every list that was held or pushed is still held, attached, or returned. */
  lemma NothingLostExactly(s: State, es: seq<Event>)
    ensures var l := Ledger(s, es);
            && (l.dropped == multiset{} <==> NeverMeetsBareSequence(s, es))
            && (Held(Run(s, es).pending) + l.attached + l.returned == Held(s.pending) + l.added
                <==> NeverMeetsBareSequence(s, es))
  {
    LosesExactly(s, es);
    RunConserves(s, es);
    var l := Ledger(s, es);
    var kept := Held(Run(s, es).pending) + l.attached + l.returned;
    assert |kept + l.dropped| == |kept| + |l.dropped|;
    if l.dropped == multiset{} {
      assert kept + l.dropped == kept;
    }
  }

  // ---------------------------------------------------------------- in their own context

  /** Addresses and births name the live contexts, and an entry's context has begun. */
  ghost predicate Numbered(s: State) {
    && (forall i, j :: 0 <= i < j < |s.contexts| ==> s.contexts[i].addr != s.contexts[j].addr)
    && (forall i :: 0 <= i < |s.contexts| ==> s.contexts[i].birth < s.births)
    && (forall k :: 0 <= k < |s.pending| && s.pending[k].target.Some? ==> s.pending[k].birth < s.births)
  }

  ghost predicate IsLive(s: State, p: Pending) {
    exists i :: 0 <= i < |s.contexts| && p.target == Some(s.contexts[i].addr) && p.birth == s.contexts[i].birth
  }

  /** No comments wait for a context that is gone. */
  ghost predicate NoneStale(s: State) {
    forall k :: 0 <= k < |s.pending| && s.pending[k].comments != [] && s.pending[k].target.Some? ==>
        IsLive(s, s.pending[k])
  }

  /** The allocator gives a new context no address of a live one. */
  ghost predicate Allocatable(s: State, e: Event) {
    match e
    case BeginFunction(addr, _, _) => forall i :: 0 <= i < |s.contexts| ==> s.contexts[i].addr != addr
    case BeginFor(addr, _) => forall i :: 0 <= i < |s.contexts| ==> s.contexts[i].addr != addr
    case BeginWhile(addr, _) => forall i :: 0 <= i < |s.contexts| ==> s.contexts[i].addr != addr
    case BeginIf(addr, _) => forall i :: 0 <= i < |s.contexts| ==> s.contexts[i].addr != addr
    case BeginScope(addr, _) => forall i :: 0 <= i < |s.contexts| ==> s.contexts[i].addr != addr
    case _ => true
  }

  predicate IsEnd(e: Event) {
    e.EndFunction? || e.EndFor? || e.EndWhile? || e.EndIf? || e.EndScope?
  }

  /** The call ends the current context; a loop also ends when its arguments do not match. */
  predicate Ends(s: State, e: Event) {
    match e
    case EndFor => s.InFor() && (!Refused(s, e) || !s.Top().about.Balanced())
    case EndWhile => s.InWhile() && (!Refused(s, e) || !s.Top().about.Balanced())
    case _ => IsEnd(e) && !Refused(s, e)
  }

  /** The call ends no context that comments still wait for. */
  ghost predicate Tidy(s: State, e: Event) {
    Ends(s, e) && s.contexts != [] ==>
      forall k :: 0 <= k < |s.pending| && s.pending[k].comments != [] ==> s.pending[k].target != Some(s.Top().addr)
  }

  /** The call attaches comments to a statement of another context than theirs. */
  predicate Misattaches(s: State, e: Event) {
    Attached(s, e) != [] && Placing(s, e).Some? && s.pending != []
    && s.pending[|s.pending| - 1].birth != Placing(s, e).value.0.Top().birth
  }

  lemma PlaceNames(s: State, stmt: Stmt)
    requires s.contexts != []
    ensures Place(s, stmt).births == s.births && SameNames(Place(s, stmt).contexts, s.contexts)
  {
  }

  lemma EndNames(s: State, e: Event)
    requires IsEnd(e)
    ensures var t := Apply(s, e);
            && t.births == s.births && (Ends(s, e) ==> s.contexts != [])
            && SameNames(t.contexts, if Ends(s, e) then s.Under().contexts else s.contexts)
  {
    match Placing(s, e)
    case Some((at, stmt)) => PlaceNames(at, stmt);
    case None =>
  }

  /** The contexts and births after a call: one more context, one less, or the same ones. */
  ghost predicate ContextsFrom(s: State, e: Event, t: State) {
    || (t.births == s.births && !Ends(s, e) && SameNames(t.contexts, s.contexts))
    || (t.births == s.births && Ends(s, e) && s.contexts != [] && SameNames(t.contexts, s.Under().contexts))
    || (t.births == s.births + 1 && t.pending == s.pending && |t.contexts| == |s.contexts| + 1
        && t.contexts[..|s.contexts|] == s.contexts && t.contexts[|s.contexts|].birth == s.births
        && forall i :: 0 <= i < |s.contexts| ==> s.contexts[i].addr != t.contexts[|s.contexts|].addr)
  }

  /** The same contexts, whatever they hold. */
  ghost predicate SameNames(a: seq<Context>, b: seq<Context>) {
    |a| == |b| && forall i :: 0 <= i < |a| ==> a[i].addr == b[i].addr && a[i].birth == b[i].birth
  }

  /** Entries after a call: as before but for the comments of the top one, or one pushed
      for the current context, or the top one popped. */
  ghost predicate EntriesFrom(s: State, e: Event, t: State) {
    var p, q := s.pending, t.pending;
    || (|q| == |p| && forall k :: 0 <= k < |q| ==>
        q[k].target == p[k].target && q[k].birth == p[k].birth
        && (q[k].comments == p[k].comments || q[k].comments == []))
    || (e.PushComments? && q == p + [PendingFor(s, e.comments)])
    || (e.PopComments? && p != [] && q == p[..|p| - 1])
  }

  lemma ContextsAfter(s: State, e: Event)
    requires Numbered(s) && Allocatable(s, e)
    ensures ContextsFrom(s, e, Apply(s, e))
  {
    if IsEnd(e) {
      EndNames(s, e);
    } else if e.Emit? && s.contexts != [] {
      PlaceNames(s, e.stmt);
    }
  }

  lemma EntriesAfter(s: State, e: Event)
    ensures EntriesFrom(s, e, Apply(s, e))
  {
  }

  lemma NumberedFrom(s: State, e: Event, t: State)
    requires Numbered(s) && ContextsFrom(s, e, t) && EntriesFrom(s, e, t)
    ensures Numbered(t)
  {
  }

  lemma NumberedKept(s: State, e: Event)
    requires Numbered(s) && Allocatable(s, e)
    ensures Numbered(Apply(s, e))
  {
    ContextsAfter(s, e);
    EntriesAfter(s, e);
    NumberedFrom(s, e, Apply(s, e));
  }

  lemma NoneStaleKept(s: State, e: Event)
    requires Numbered(s) && NoneStale(s) && Allocatable(s, e) && Tidy(s, e)
    ensures NoneStale(Apply(s, e))
  {
    ContextsAfter(s, e);
    EntriesAfter(s, e);
  }

  /** A call puts comments on a statement of another context exactly when the context they
      were pushed in is gone, its address in use again. */
  lemma MisattachesExactly(s: State, e: Event)
    requires Numbered(s) && Attached(s, e) != []
    ensures Misattaches(s, e) <==> !IsLive(s, s.pending[|s.pending| - 1])
  {
  }

  // ---------------------------------------------------------------- runs

  ghost predicate Allocates(s: State, es: seq<Event>)
    decreases |es|
  {
    es == [] || (Allocatable(s, es[0]) && Allocates(Apply(s, es[0]), es[1..]))
  }

  /** The allocator keeps its guarantee, and no context ends while comments wait for it. */
  ghost predicate Disciplined(s: State, es: seq<Event>)
    decreases |es|
  {
    es == [] || (Allocatable(s, es[0]) && Tidy(s, es[0]) && Disciplined(Apply(s, es[0]), es[1..]))
  }

  ghost predicate NeverMisattaches(s: State, es: seq<Event>)
    decreases |es|
  {
    es == [] || (!Misattaches(s, es[0]) && NeverMisattaches(Apply(s, es[0]), es[1..]))
  }

  /** In a disciplined run comments only go to statements of their own context. */
  lemma {:induction false} OwnContextAlways(s: State, es: seq<Event>)
    requires Numbered(s) && NoneStale(s) && Disciplined(s, es)
    ensures NeverMisattaches(s, es)
    decreases |es|
  {
    if es != [] {
      if Attached(s, es[0]) != [] {
        MisattachesExactly(s, es[0]);
        WaitingIsHeld(s, es[0]);
      }
      NumberedKept(s, es[0]);
      NoneStaleKept(s, es[0]);
      OwnContextAlways(Apply(s, es[0]), es[1..]);
    }
  }

  lemma WaitingIsHeld(s: State, e: Event)
    requires Attached(s, e) != []
    ensures s.pending != [] && s.pending[|s.pending| - 1].comments != [] && s.pending[|s.pending| - 1].target.Some?
  {
  }

  lemma BranchOpens(s: State, addr: nat, test: Operand)
    requires s.contexts != []
    ensures Apply(s, BeginIf(addr, test))
         == State(s.contexts + [Context(addr, s.births, [], InIf(test, [], false, []))], s.pending, s.births + 1)
  {
  }

  lemma BranchCloses(s: State, t: State, c: Context)
    requires Numbered(s) && s.contexts != [] && c.about.InIf? && c.about.test.hasValue && t.contexts == s.contexts + [c]
    requires t.pending != [] && t.pending[|t.pending| - 1].target == Some(c.addr)
    requires forall i :: 0 <= i < |s.contexts| ==> s.contexts[i].addr != c.addr
    ensures Apply(t, EndIf).pending == t.pending && SameNames(Apply(t, EndIf).contexts, s.contexts)
      && Apply(t, EndIf).births == t.births
  {
    assert t.Under().contexts == s.contexts;
    PlaceNames(t.Under(), IfOf(c));
    PendingAfter(t, EndIf);
  }

  lemma StaleTopMisattaches(s: State, e: Event)
    requires e.Emit? && !e.stmt.Seq? && s.contexts != [] && s.pending != []
    requires var p := s.pending[|s.pending| - 1];
             p.comments != [] && p.target == Some(s.Top().addr) && p.birth != s.Top().birth
    ensures Misattaches(s, e)
  {
  }

  // ---------------------------------------------------------------- the discipline is exact

  /** What waits for the ended context is not touched by its end. */
  lemma EndKeepsEntry(s: State, e: Event, k: nat)
    requires Numbered(s) && Ends(s, e) && s.contexts != [] && k < |s.pending|
      && s.pending[k].target == Some(s.Top().addr)
    ensures |Apply(s, e).pending| == |s.pending| && Apply(s, e).pending[k] == s.pending[k]
  {
    PendingAfter(s, e);
    if s.Under().contexts != [] {
      var n := |s.contexts|;
      assert s.Under().Top() == s.contexts[n - 2] && s.contexts[n - 2].addr != s.contexts[n - 1].addr;
    }
  }

  /** Entry `k` waits for a context that is gone and whose address is free: a few calls that
      keep the discipline put it on a statement of a new context there. */
  lemma {:induction false} StaleEntryMisattaches(s: State, k: nat) returns (es: seq<Event>)
    requires k < |s.pending| && s.pending[k].comments != [] && s.pending[k].target.Some?
      && s.pending[k].birth < s.births
    requires forall i :: 0 <= i < |s.contexts| ==> s.contexts[i].addr != s.pending[k].target.value
    ensures Disciplined(s, es) && !NeverMisattaches(s, es)
    decreases |s.pending|
  {
    if k < |s.pending| - 1 {
      PopPending(s);
      var rest := StaleEntryMisattaches(Apply(s, PopComments), k);
      es := [PopComments] + rest;
    } else {
      var addr := s.pending[k].target.value;
      var begin := if s.contexts == [] then BeginFunction(addr, "f", true) else BeginIf(addr, Operand("c", true));
      var emit := Emit(Plain("x", []));
      StaleTopMisattaches(Apply(s, begin), emit);
      es := [begin, emit];
      assert es[1..] == [emit] && [emit][1..] == [];
    }
  }

  /** From here on, calls that keep the discipline put comments on statements of their own
      context only. */
  ghost predicate Safe(s: State) {
    forall es :: Disciplined(s, es) ==> NeverMisattaches(s, es)
  }

  /** An end with comments still waiting for the context can always be continued so that
      they go astray. */
  lemma UntidyEndIsUnsafe(s: State, e: Event)
    requires Numbered(s) && NoneStale(s) && !Tidy(s, e)
    ensures !Safe(Apply(s, e))
  {
    var k :| 0 <= k < |s.pending| && s.pending[k].comments != [] && s.pending[k].target == Some(s.Top().addr);
    EndKeepsEntry(s, e, k);
    EndNames(s, e);
    var t := Apply(s, e);
    forall i | 0 <= i < |t.contexts|
      ensures t.contexts[i].addr != s.Top().addr
    {
      assert s.contexts[i].addr != s.contexts[|s.contexts| - 1].addr;
    }
    var es := StaleEntryMisattaches(t, k);
  }

  ghost predicate SafeAllAlong(s: State, es: seq<Event>)
    decreases |es|
  {
    Safe(s) && (es == [] || SafeAllAlong(Apply(s, es[0]), es[1..]))
  }

  /** The discipline is exact: a run keeps it if and only if at no point of the run a
      continuation that keeps it can put comments on a statement of another context. */
  lemma {:induction false} DisciplineExactly(s: State, es: seq<Event>)
    requires Numbered(s) && NoneStale(s) && Allocates(s, es)
    ensures Disciplined(s, es) <==> SafeAllAlong(s, es)
    decreases |es|
  {
    forall more | Disciplined(s, more)
      ensures NeverMisattaches(s, more)
    {
      OwnContextAlways(s, more);
    }
    if es != [] {
      if Tidy(s, es[0]) {
        NumberedKept(s, es[0]);
        NoneStaleKept(s, es[0]);
        DisciplineExactly(Apply(s, es[0]), es[1..]);
      } else {
        UntidyEndIsUnsafe(s, es[0]);
      }
    }
  }

  /** The discipline is needed: end a context while comments wait for it, and a later
      context at the same address takes them. */
  lemma AddressReuse(s: State, addr: nat, comments: Comments, text: string, test: Operand)
    requires test.hasValue && Numbered(s) && s.contexts != [] && comments != []
    requires forall i :: 0 <= i < |s.contexts| ==> s.contexts[i].addr != addr
    ensures var s1 := Apply(s, BeginIf(addr, test));
            var s2 := Apply(s1, PushComments(comments));
            var s3 := Apply(s2, EndIf);
            var s4 := Apply(s3, BeginIf(addr, test));
            Allocatable(s, BeginIf(addr, test)) && Allocatable(s3, BeginIf(addr, test))
                && Misattaches(s4, Emit(Plain(text, [])))
  {
    var s1 := Apply(s, BeginIf(addr, test));
    BranchOpens(s, addr, test);
    var s2 := Apply(s1, PushComments(comments));
    PushPending(s1, comments);
    var s3 := Apply(s2, EndIf);
    BranchCloses(s, s2, s1.Top());
    BranchOpens(s3, addr, test);
    StaleTopMisattaches(Apply(s3, BeginIf(addr, test)), Emit(Plain(text, [])));
  }
}
