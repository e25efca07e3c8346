/** Replaying a statement tree through the builder: the calls a client makes for a tree
    append exactly that tree, normalised, to the current context and change nothing else. */
module BuilderReplay {
  import opened Options
  import opened BuilderState

  /** A client's program: what it wants built, the addresses its contexts happen to get,
      and the comments it pushes around the calls for some of its statements. */
  datatype Tree =
    | Leaf(stmt: Stmt)
    | LoopTree(addr: nat, loop: LoopHead, iterArgs: seq<Name>, body: seq<Tree>, returnVars: seq<Name>)
    | IfTree(addr: nat, test: Operand, thenPart: seq<Tree>, hasElse: bool, elsePart: seq<Tree>, ifVars: seq<Name>)
    | ScopeTree(addr: nat, scope: ScopeHead, body: seq<Tree>, extra: seq<Name>)
    | Commented(comments: Comments, inner: seq<Tree>)

  // ---------------------------------------------------------------- calls

  function LoopArgs(loop: LoopHead, names: seq<Name>): seq<Event> {
    if names == [] then []
    else [if loop.ForHead? then AddIterArg(names[0]) else AddWhileIterArg(names[0])] + LoopArgs(loop, names[1..])
  }

  function LoopVars(loop: LoopHead, names: seq<Name>): seq<Event> {
    if names == [] then []
    else [if loop.ForHead? then AddReturnVar(names[0]) else AddWhileReturnVar(names[0])] + LoopVars(loop, names[1..])
  }

  function IfVarEvents(names: seq<Name>): seq<Event> {
    if names == [] then [] else [AddIfReturnVar(names[0])] + IfVarEvents(names[1..])
  }

  function LoopBegin(addr: nat, loop: LoopHead): Event {
    match loop
    case ForHead(_, _, _, _, _, _) => BeginFor(addr, loop)
    case WhileHead(condition) => BeginWhile(addr, condition)
  }

  function LoopEnd(loop: LoopHead): Event {
    if loop.ForHead? then EndFor else EndWhile
  }

  function Calls(t: Tree): seq<Event>
    decreases t, 0
  {
    match t
    case Leaf(stmt) => [Emit(stmt)]
    case LoopTree(addr, loop, iterArgs, body, returnVars) =>
      [LoopBegin(addr, loop)] + (LoopArgs(loop, iterArgs)
          + (AllCalls(body) + (LoopVars(loop, returnVars) + [LoopEnd(loop)])))
    case IfTree(addr, test, thenPart, hasElse, elsePart, ifVars) =>
      [BeginIf(addr, test)] + (AllCalls(thenPart)
        + ((if hasElse then [BeginElse] + AllCalls(elsePart) else []) + (IfVarEvents(ifVars) + [EndIf])))
    case ScopeTree(addr, scope, body, extra) => [BeginScope(addr, scope)] + (AllCalls(body) + [EndScope(extra)])
    case Commented(comments, inner) => [PushComments(comments)] + (AllCalls(inner) + [PopComments])
  }

  function AllCalls(ts: seq<Tree>): seq<Event>
    decreases ts, 1
  {
    if ts == [] then [] else Calls(ts[0]) + AllCalls(ts[1..])
  }

  // ---------------------------------------------------------------- what should come out

  /** The statements built, and the comments still waiting afterwards. */
  datatype Result = Result(stmts: seq<Stmt>, left: Comments)

  /** A statement takes the comments that wait for it. */
  function Taking(stmt: Stmt, waiting: Comments): Result {
    if stmt.Seq? && waiting != [] then Result([], []) else Result([Attach(stmt, waiting)], [])
  }

  /** The meaning of a tree: a rejected loop leaves no statement and takes no comments; what
      is built inside a context sees no comments from outside. */
  function Meaning(t: Tree, waiting: Comments): Result
    decreases t, 0
  {
    match t
    case Leaf(stmt) => Taking(stmt, waiting)
    case LoopTree(_, loop, iterArgs, body, returnVars) =>
      if |iterArgs| != |returnVars| then Result([], waiting)
      else Taking(Loop(loop, iterArgs, Body(AllMeaning(body, []).stmts), returnVars, []), waiting)
    case IfTree(_, test, thenPart, hasElse, elsePart, ifVars) =>
      var elseStmts := if hasElse then AllMeaning(elsePart, []).stmts else [];
      Taking(If(test, Body(AllMeaning(thenPart, []).stmts), ElseBody(hasElse, elseStmts), ifVars, []), waiting)
    case ScopeTree(_, scope, body, extra) =>
      Taking(Scope(scope.(attrs := scope.attrs + extra), Body(AllMeaning(body, []).stmts), []), waiting)
    case Commented(comments, inner) => Result(AllMeaning(inner, comments).stmts, waiting)
  }

  function AllMeaning(ts: seq<Tree>, waiting: Comments): Result
    decreases ts, 1
  {
    if ts == [] then Result([], waiting)
    else
      var first := Meaning(ts[0], waiting);
      var rest := AllMeaning(ts[1..], first.left);
      Result(first.stmts + rest.stmts, rest.left)
  }

  /** The number of contexts a tree opens. */
  function Opens(t: Tree): nat
    decreases t, 0
  {
    match t
    case Leaf(_) => 0
    case LoopTree(_, _, _, body, _) => 1 + AllOpens(body)
    case IfTree(_, _, thenPart, hasElse, elsePart, _) => 1 + AllOpens(thenPart) + if hasElse then AllOpens(elsePart)
        else 0
    case ScopeTree(_, _, body, _) => 1 + AllOpens(body)
    case Commented(_, inner) => AllOpens(inner)
  }

  function AllOpens(ts: seq<Tree>): nat
    decreases ts, 1
  {
    if ts == [] then 0 else Opens(ts[0]) + AllOpens(ts[1..])
  }

  // ---------------------------------------------------------------- what is asked of a client

  /** Loop policies, operands and scope particulars the builder accepts. A loop that is
      rejected for its counts is rejected before its operands are looked at. */
  predicate Accepted(t: Tree)
    decreases t, 0
  {
    match t
    case Leaf(_) => true
    case LoopTree(_, loop, iterArgs, body, returnVars) =>
      && (loop.ForHead? && loop.policyRequired ==> loop.sequential) && AllAccepted(body)
      && (|iterArgs| == |returnVars| ==> loop.Valued())
    case IfTree(_, test, thenPart, hasElse, elsePart, _) =>
      test.hasValue && AllAccepted(thenPart) && (hasElse ==> AllAccepted(elsePart))
    case ScopeTree(_, scope, body, _) => scope.CanEnd() && AllAccepted(body)
    case Commented(_, inner) => AllAccepted(inner)
  }

  predicate AllAccepted(ts: seq<Tree>)
    decreases ts, 1
  {
    ts == [] || (Accepted(ts[0]) && AllAccepted(ts[1..]))
  }

  /** What the allocator guarantees: a context gets no address of a live one. Contexts that
      are not alive together may share an address. */
  predicate Placed(t: Tree, live: set<nat>)
    decreases t, 0
  {
    match t
    case Leaf(_) => true
    case LoopTree(addr, _, _, body, _) => addr !in live && AllPlaced(body, live + {addr})
    case IfTree(addr, _, thenPart, hasElse, elsePart, _) =>
      addr !in live && AllPlaced(thenPart, live + {addr}) && (hasElse ==> AllPlaced(elsePart, live + {addr}))
    case ScopeTree(addr, _, body, _) => addr !in live && AllPlaced(body, live + {addr})
    case Commented(_, inner) => AllPlaced(inner, live)
  }

  predicate AllPlaced(ts: seq<Tree>, live: set<nat>)
    decreases ts, 1
  {
    ts == [] || (Placed(ts[0], live) && AllPlaced(ts[1..], live))
  }

  function Live(s: State): set<nat> {
    set c | c in s.contexts :: c.addr
  }

  /** The top entry of the pending stack is not bound to a context that is gone. */
  predicate TopIsLive(s: State) {
    s.pending == [] || s.pending[|s.pending| - 1].target == None
    || s.pending[|s.pending| - 1].target.value in Live(s)
  }

  // ---------------------------------------------------------------- one context at a time

  /** `s` after the statements of `r` have gone to its current context. */
  function Grown(s: State, r: Result, begun: nat): State
    requires s.contexts != []
  {
    Leave(s.WithTop(AddStmts(s.Top(), r.stmts)), r.left).(births := s.births + begun)
  }

  lemma AddNothing(c: Context)
    ensures AddStmts(c, []) == c
  {
  }

  lemma AddAgain(c: Context, a: seq<Stmt>, b: seq<Stmt>)
    ensures AddStmts(AddStmts(c, a), b) == AddStmts(c, a + b)
  {
    if c.about.InIf? && c.about.inElse {
      assert c.about.elseStmts + (a + b) == c.about.elseStmts + a + b;
    } else {
      assert c.stmts + (a + b) == c.stmts + a + b;
    }
  }

  /** Leaving what waits, where it waits, changes nothing. */
  lemma LeaveWaiting(s: State)
    ensures Leave(s, Waiting(s)) == s
  {
  }

  lemma GrownByNothing(s: State)
    requires s.contexts != []
    ensures Grown(s, Result([], Waiting(s)), 0) == s
  {
    AddNothing(s.Top());
    assert s.contexts[..|s.contexts| - 1] + [s.Top()] == s.contexts;
    LeaveWaiting(s);
  }

  lemma GrownTop(s: State, r: Result, begun: nat)
    requires s.contexts != []
    ensures var g := Grown(s, r, begun);
            && g.contexts == s.contexts[..|s.contexts| - 1] + [AddStmts(s.Top(), r.stmts)]
            && g.Top() == AddStmts(s.Top(), r.stmts) && g.Top().addr == s.Top().addr && g.births == s.births + begun
  {
  }

  lemma GrownLive(s: State, r: Result, begun: nat)
    requires s.contexts != []
    ensures Live(Grown(s, r, begun)) == Live(s) && (TopIsLive(s) ==> TopIsLive(Grown(s, r, begun)))
  {
  }

  /** Whether the top entry is bound to the current context. */
  predicate Bound(s: State) {
    s.pending != [] && s.contexts != [] && s.pending[|s.pending| - 1].target == Some(s.Top().addr)
  }

  /** Growing twice is growing by both. */
  lemma GrownAgain(s: State, r: Result, begun: nat, r': Result, begun': nat)
    requires s.contexts != [] && (!Bound(s) ==> r.left == [])
    ensures Waiting(Grown(s, r, begun)) == r.left
    ensures Grown(Grown(s, r, begun), r', begun') == Grown(s, Result(r.stmts + r'.stmts, r'.left), begun + begun')
  {
    GrownTop(s, r, begun);
    AddAgain(s.Top(), r.stmts, r'.stmts);
    var g := Grown(s, r, begun);
    assert g.contexts[..|g.contexts| - 1] == s.contexts[..|s.contexts| - 1];
    if Bound(s) {
      assert g.pending[..|g.pending| - 1] == s.pending[..|s.pending| - 1];
    }
  }

  /** `ApplyPendingLeadingComments` and `AddStmt`, as growth. */
  lemma PlaceIsGrown(s: State, stmt: Stmt)
    requires s.contexts != []
    ensures Place(s, stmt) == Grown(s, Taking(stmt, Waiting(s)), 0)
  {
    if Waiting(s) == [] {
      LeaveWaiting(s.WithTop(AddStmts(s.Top(), [stmt])));
      GrownTop(s, Result([stmt], []), 0);
    } else if stmt.Seq? {
      AddNothing(s.Top());
      assert s.contexts[..|s.contexts| - 1] + [s.Top()] == s.contexts;
    }
  }

  // ---------------------------------------------------------------- inside a new context

  /** `s` with one more context. */
  function On(s: State, c: Context, births: nat): State {
    State(s.contexts + [c], s.pending, births)
  }

  lemma OnTop(s: State, c: Context, births: nat)
    ensures On(s, c, births).Top() == c && On(s, c, births).Under() == s.(births := births)
    ensures forall c' :: On(s, c, births).WithTop(c') == On(s, c', births)
  {
  }

  lemma OnLive(s: State, c: Context, births: nat)
    requires TopIsLive(s) && c.addr !in Live(s)
    ensures Live(On(s, c, births)) == Live(s) + {c.addr} && TopIsLive(On(s, c, births))
    ensures !Bound(On(s, c, births)) && Waiting(On(s, c, births)) == []
  {
  }

  /** A trace of states, each the outcome of the next call. */
  ghost predicate IsTrace(trace: seq<State>, es: seq<Event>) {
    |trace| == |es| + 1 && forall i :: 0 <= i < |es| ==> trace[i + 1] == Apply(trace[i], es[i])
  }

  /** The calls `es` lead from `s` to `t`. */
  ghost predicate Leads(s: State, es: seq<Event>, t: State) {
    exists trace :: IsTrace(trace, es) && trace[0] == s && trace[|es|] == t
  }

  lemma RunOne(s: State, e: Event, rest: seq<Event>)
    ensures Run(s, [e] + rest) == Run(Apply(s, e), rest)
    ensures Run(s, [e]) == Apply(s, e)
  {
  }

  /** Running and leading to are the same thing. */
  lemma {:induction false} LeadsIsRun(s: State, es: seq<Event>, t: State)
    ensures Leads(s, es, t) <==> Run(s, es) == t
    decreases |es|
  {
    if es == [] {
      if s == t { assert IsTrace([s], es) && [s][0] == s && [s][|es|] == t; }
    } else {
      LeadsIsRun(Apply(s, es[0]), es[1..], t);
      LeadsStep(s, es, t);
    }
  }

  lemma TraceTail(trace: seq<State>, es: seq<Event>)
    requires IsTrace(trace, es) && es != []
    ensures IsTrace(trace[1..], es[1..]) && trace[1] == Apply(trace[0], es[0])
  {
  }

  lemma TraceCons(s: State, rest: seq<State>, es: seq<Event>)
    requires es != [] && IsTrace(rest, es[1..]) && rest[0] == Apply(s, es[0])
    ensures IsTrace([s] + rest, es)
  {
  }

  lemma LeadsStep(s: State, es: seq<Event>, t: State)
    requires es != []
    ensures Leads(s, es, t) <==> Leads(Apply(s, es[0]), es[1..], t)
  {
    if Leads(s, es, t) {
      var trace :| IsTrace(trace, es) && trace[0] == s && trace[|es|] == t;
      TraceTail(trace, es);
      assert trace[1..][|es[1..]|] == t;
    }
    if Leads(Apply(s, es[0]), es[1..], t) {
      var rest :| IsTrace(rest, es[1..]) && rest[0] == Apply(s, es[0]) && rest[|es[1..]|] == t;
      TraceCons(s, rest, es);
      assert ([s] + rest)[|es|] == t;
    }
  }

  lemma LeadsNowhere(s: State)
    ensures Leads(s, [], s)
  {
    LeadsIsRun(s, [], s);
  }

  lemma LeadsOne(s: State, e: Event, t: State)
    requires Apply(s, e) == t
    ensures Leads(s, [e], t)
  {
    RunOne(s, e, []);
    LeadsIsRun(s, [e], t);
  }

  lemma LeadsThen(s: State, a: seq<Event>, t: State, b: seq<Event>, u: State)
    requires Leads(s, a, t) && Leads(t, b, u)
    ensures Leads(s, a + b, u)
  {
    LeadsIsRun(s, a, t);
    LeadsIsRun(t, b, u);
    RunAppend(s, a, b);
    LeadsIsRun(s, a + b, u);
  }

  lemma {:induction false} LoopArgsRun(s: State, c: Context, births: nat, names: seq<Name>)
    requires c.about.InLoop?
    ensures Leads(On(s, c, births), LoopArgs(c.about.loop, names),
                  On(s, c.(about := c.about.(iterArgs := c.about.iterArgs + names)), births))
    decreases |names|
  {
    if names == [] {
      assert c.about.iterArgs + names == c.about.iterArgs;
      LeadsNowhere(On(s, c, births));
    } else {
      var c' := c.(about := c.about.(iterArgs := c.about.iterArgs + [names[0]]));
      OnTop(s, c, births);
      var call := if c.about.loop.ForHead? then AddIterArg(names[0]) else AddWhileIterArg(names[0]);
      LeadsOne(On(s, c, births), call, On(s, c', births));
      LoopArgsRun(s, c', births, names[1..]);
      assert c.about.iterArgs + [names[0]] + names[1..] == c.about.iterArgs + names;
      LeadsThen(On(s, c, births), [call], On(s, c', births), LoopArgs(c.about.loop, names[1..]),
                On(s, c.(about := c.about.(iterArgs := c.about.iterArgs + names)), births));
    }
  }

  lemma {:induction false} LoopVarsRun(s: State, c: Context, births: nat, names: seq<Name>)
    requires c.about.InLoop?
    ensures Leads(On(s, c, births), LoopVars(c.about.loop, names),
                  On(s, c.(about := c.about.(returnVars := c.about.returnVars + names)), births))
    decreases |names|
  {
    if names == [] {
      assert c.about.returnVars + names == c.about.returnVars;
      LeadsNowhere(On(s, c, births));
    } else {
      var c' := c.(about := c.about.(returnVars := c.about.returnVars + [names[0]]));
      OnTop(s, c, births);
      var call := if c.about.loop.ForHead? then AddReturnVar(names[0]) else AddWhileReturnVar(names[0]);
      LeadsOne(On(s, c, births), call, On(s, c', births));
      LoopVarsRun(s, c', births, names[1..]);
      assert c.about.returnVars + [names[0]] + names[1..] == c.about.returnVars + names;
      LeadsThen(On(s, c, births), [call], On(s, c', births), LoopVars(c.about.loop, names[1..]),
                On(s, c.(about := c.about.(returnVars := c.about.returnVars + names)), births));
    }
  }

  lemma {:induction false} IfVarsRun(s: State, c: Context, births: nat, names: seq<Name>)
    requires c.about.InIf?
    ensures Leads(On(s, c, births), IfVarEvents(names),
      On(s, c.(about := c.about.(ifVars := c.about.ifVars + names)), births))
    decreases |names|
  {
    if names == [] {
      assert c.about.ifVars + names == c.about.ifVars;
      LeadsNowhere(On(s, c, births));
    } else {
      var c' := c.(about := c.about.(ifVars := c.about.ifVars + [names[0]]));
      OnTop(s, c, births);
      LeadsOne(On(s, c, births), AddIfReturnVar(names[0]), On(s, c', births));
      IfVarsRun(s, c', births, names[1..]);
      assert c.about.ifVars + [names[0]] + names[1..] == c.about.ifVars + names;
      LeadsThen(On(s, c, births), [AddIfReturnVar(names[0])], On(s, c', births), IfVarEvents(names[1..]),
                On(s, c.(about := c.about.(ifVars := c.about.ifVars + names)), births));
    }
  }

  /** Closing a context hands its statement to the parent. */
  lemma CloseOn(s: State, c: Context, births: nat, stmt: Stmt)
    requires s.contexts != [] && births >= s.births
    ensures Close(On(s, c, births), stmt) == Grown(s, Taking(stmt, Waiting(s)), births - s.births)
  {
    OnTop(s, c, births);
    PlaceIsGrown(s.(births := births), stmt);
  }

  // ---------------------------------------------------------------- replay

  lemma {:induction false} NothingWaits(t: Tree)
    ensures Meaning(t, []).left == []
  {
  }

  /** The calls for a tree append its meaning to the current context, use up or leave the
      comments that waited there, and leave every other context and entry as it was. */
  lemma {:induction false} Replay(s: State, t: Tree)
    requires s.contexts != [] && TopIsLive(s) && Accepted(t) && Placed(t, Live(s))
    ensures Leads(s, Calls(t), Grown(s, Meaning(t, Waiting(s)), Opens(t)))
    decreases t, 2
  {
    match t
    case Leaf(stmt) =>
      PlaceIsGrown(s, stmt);
      LeadsOne(s, Emit(stmt), Place(s, stmt));
    case LoopTree(_, _, _, _, _) => ReplayLoop(s, t);
    case IfTree(_, _, _, _, _, _) => ReplayIf(s, t);
    case ScopeTree(_, _, _, _) => ReplayScope(s, t);
    case Commented(_, _) => ReplayCommented(s, t);
  }

  lemma {:induction false} ReplayAll(s: State, ts: seq<Tree>)
    requires s.contexts != [] && TopIsLive(s) && AllAccepted(ts) && AllPlaced(ts, Live(s))
    ensures Leads(s, AllCalls(ts), Grown(s, AllMeaning(ts, Waiting(s)), AllOpens(ts)))
    decreases ts, 1
  {
    if ts == [] {
      GrownByNothing(s);
      LeadsNowhere(s);
    } else {
      var first := Meaning(ts[0], Waiting(s));
      var rest := AllMeaning(ts[1..], first.left);
      Replay(s, ts[0]);
      var g := Grown(s, first, Opens(ts[0]));
      GrownTop(s, first, Opens(ts[0]));
      GrownLive(s, first, Opens(ts[0]));
      NothingWaits(ts[0]);
      GrownAgain(s, first, Opens(ts[0]), rest, AllOpens(ts[1..]));
      ReplayAll(g, ts[1..]);
      LeadsThen(s, Calls(ts[0]), g, AllCalls(ts[1..]), Grown(g, rest, AllOpens(ts[1..])));
    }
  }

  /** The statements of a part of a new context: comments from outside stay outside. */
  lemma {:induction false} ReplayOn(s: State, c: Context, births: nat, ts: seq<Tree>)
    requires TopIsLive(s) && c.addr !in Live(s) && AllAccepted(ts) && AllPlaced(ts, Live(s) + {c.addr})
    ensures Leads(On(s, c, births), AllCalls(ts), On(s, AddStmts(c, AllMeaning(ts, []).stmts), births + AllOpens(ts)))
    decreases ts, 2
  {
    var o := On(s, c, births);
    OnLive(s, c, births);
    OnTop(s, c, births);
    ReplayAll(o, ts);
    GrownTop(o, AllMeaning(ts, []), AllOpens(ts));
    assert Grown(o, AllMeaning(ts, []), AllOpens(ts))
        == On(s, AddStmts(c, AllMeaning(ts, []).stmts), births + AllOpens(ts));
  }

  lemma AddToEmpty(c: Context, stmts: seq<Stmt>)
    requires c.stmts == [] && !(c.about.InIf? && c.about.inElse)
    ensures AddStmts(c, stmts) == c.(stmts := stmts)
  {
  }

  // ---------------------------------------------------------------- loops

  lemma BeginLoopStep(s: State, addr: nat, loop: LoopHead)
    requires s.contexts != [] && (loop.ForHead? && loop.policyRequired ==> loop.sequential)
    ensures Leads(s, [LoopBegin(addr, loop)], On(s, Context(addr, s.births, [], InLoop(loop, [], [])), s.births + 1))
  {
    LeadsOne(s, LoopBegin(addr, loop), On(s, Context(addr, s.births, [], InLoop(loop, [], [])), s.births + 1));
  }

  /** From `Begin` to the end of the body. */
  lemma {:induction false} LoopBodyRun(s: State, addr: nat, loop: LoopHead, iterArgs: seq<Name>, body: seq<Tree>)
    requires s.contexts != [] && TopIsLive(s) && (loop.ForHead? && loop.policyRequired ==> loop.sequential)
    requires AllAccepted(body) && addr !in Live(s) && AllPlaced(body, Live(s) + {addr})
    ensures Leads(s, [LoopBegin(addr, loop)] + (LoopArgs(loop, iterArgs) + AllCalls(body)),
                  On(s, Context(addr, s.births, AllMeaning(body, []).stmts, InLoop(loop, iterArgs, [])),
                      s.births + 1 + AllOpens(body)))
    decreases body, 3
  {
    var c, b := Context(addr, s.births, [], InLoop(loop, [], [])), s.births + 1;
    var c1 := c.(about := InLoop(loop, iterArgs, []));
    var c2 := Context(addr, s.births, AllMeaning(body, []).stmts, InLoop(loop, iterArgs, []));
    BeginLoopStep(s, addr, loop);
    assert [] + iterArgs == iterArgs;
    LoopArgsRun(s, c, b, iterArgs);
    AddToEmpty(c1, AllMeaning(body, []).stmts);
    ReplayOn(s, c1, b, body);
    LeadsThen(On(s, c, b), LoopArgs(loop, iterArgs), On(s, c1, b), AllCalls(body), On(s, c2, b + AllOpens(body)));
    LeadsThen(s, [LoopBegin(addr, loop)], On(s, c, b), LoopArgs(loop, iterArgs) + AllCalls(body),
        On(s, c2, b + AllOpens(body)));
  }

  function LoopResult(c: Context, returnVars: seq<Name>, waiting: Comments): Result
    requires c.about.InLoop?
  {
    if |c.about.iterArgs| != |returnVars| then Result([], waiting)
    else Taking(Loop(c.about.loop, c.about.iterArgs, Body(c.stmts), returnVars, []), waiting)
  }

  lemma EndLoopStep(s: State, c: Context, births: nat)
    requires s.contexts != [] && births >= s.births && c.about.InLoop? && (c.about.Balanced() ==> c.about.loop.Valued())
    ensures Apply(On(s, c, births), LoopEnd(c.about.loop))
         == if |c.about.iterArgs| == |c.about.returnVars| then Close(On(s, c, births), LoopOf(c))
             else s.(births := births)
  {
  }

  lemma EndLoopRun(s: State, c: Context, births: nat)
    requires s.contexts != [] && births >= s.births && c.about.InLoop? && (c.about.Balanced() ==> c.about.loop.Valued())
    ensures Leads(On(s, c, births), [LoopEnd(c.about.loop)],
                  Grown(s, LoopResult(c, c.about.returnVars, Waiting(s)), births - s.births))
  {
    EndLoopStep(s, c, births);
    GrownByNothing(s.(births := births));
    CloseOn(s, c, births, LoopOf(c));
    LeadsOne(On(s, c, births), LoopEnd(c.about.loop),
        Grown(s, LoopResult(c, c.about.returnVars, Waiting(s)), births - s.births));
  }

  lemma LoopTailRun(s: State, c: Context, births: nat, returnVars: seq<Name>)
    requires s.contexts != [] && births >= s.births && c.about.InLoop? && c.about.returnVars == []
    requires |c.about.iterArgs| == |returnVars| ==> c.about.loop.Valued()
    ensures Leads(On(s, c, births), LoopVars(c.about.loop, returnVars) + [LoopEnd(c.about.loop)],
                  Grown(s, LoopResult(c, returnVars, Waiting(s)), births - s.births))
  {
    var c1 := c.(about := c.about.(returnVars := returnVars));
    assert [] + returnVars == returnVars;
    LoopVarsRun(s, c, births, returnVars);
    EndLoopRun(s, c1, births);
    LeadsThen(On(s, c, births), LoopVars(c.about.loop, returnVars), On(s, c1, births), [LoopEnd(c.about.loop)],
              Grown(s, LoopResult(c, returnVars, Waiting(s)), births - s.births));
  }

  lemma RegroupCalls(a: seq<Event>, b: seq<Event>, c: seq<Event>, d: seq<Event>)
    ensures a + (b + (c + d)) == (a + (b + c)) + d
  {
  }

  lemma {:induction false} ReplayLoop(s: State, t: Tree)
    requires s.contexts != [] && TopIsLive(s) && t.LoopTree? && Accepted(t) && Placed(t, Live(s))
    ensures Leads(s, Calls(t), Grown(s, Meaning(t, Waiting(s)), Opens(t)))
    decreases t, 0
  {
    var c := Context(t.addr, s.births, AllMeaning(t.body, []).stmts, InLoop(t.loop, t.iterArgs, []));
    var b := s.births + 1 + AllOpens(t.body);
    var tail := LoopVars(t.loop, t.returnVars) + [LoopEnd(t.loop)];
    LoopBodyRun(s, t.addr, t.loop, t.iterArgs, t.body);
    LoopTailRun(s, c, b, t.returnVars);
    RegroupCalls([LoopBegin(t.addr, t.loop)], LoopArgs(t.loop, t.iterArgs), AllCalls(t.body), tail);
    LeadsThen(s, [LoopBegin(t.addr, t.loop)] + (LoopArgs(t.loop, t.iterArgs) + AllCalls(t.body)), On(s, c, b), tail,
              Grown(s, LoopResult(c, t.returnVars, Waiting(s)), b - s.births));
  }

  // ---------------------------------------------------------------- scopes

  lemma BeginScopeStep(s: State, addr: nat, scope: ScopeHead)
    requires s.contexts != [] && scope.CanBegin()
    ensures Leads(s, [BeginScope(addr, scope)], On(s, Context(addr, s.births, [], InScope(scope)), s.births + 1))
  {
    LeadsOne(s, BeginScope(addr, scope), On(s, Context(addr, s.births, [], InScope(scope)), s.births + 1));
  }

  lemma EndScopeRun(s: State, c: Context, births: nat, extra: seq<Name>)
    requires s.contexts != [] && births >= s.births && c.about.InScope? && c.about.scope.CanEnd()
    ensures Leads(On(s, c, births), [EndScope(extra)],
      Grown(s, Taking(ScopeOf(c, extra), Waiting(s)), births - s.births))
  {
    OnTop(s, c, births);
    CloseOn(s, c, births, ScopeOf(c, extra));
    LeadsOne(On(s, c, births), EndScope(extra), Grown(s, Taking(ScopeOf(c, extra), Waiting(s)), births - s.births));
  }

  lemma {:induction false} ReplayScope(s: State, t: Tree)
    requires s.contexts != [] && TopIsLive(s) && t.ScopeTree? && Accepted(t) && Placed(t, Live(s))
    ensures Leads(s, Calls(t), Grown(s, Meaning(t, Waiting(s)), Opens(t)))
    decreases t, 0
  {
    var c, b := Context(t.addr, s.births, [], InScope(t.scope)), s.births + 1;
    var c1, b1 := c.(stmts := AllMeaning(t.body, []).stmts), b + AllOpens(t.body);
    var end := Grown(s, Taking(ScopeOf(c1, t.extra), Waiting(s)), b1 - s.births);
    BeginScopeStep(s, t.addr, t.scope);
    AddToEmpty(c, AllMeaning(t.body, []).stmts);
    ReplayOn(s, c, b, t.body);
    EndScopeRun(s, c1, b1, t.extra);
    LeadsThen(On(s, c, b), AllCalls(t.body), On(s, c1, b1), [EndScope(t.extra)], end);
    LeadsThen(s, [BeginScope(t.addr, t.scope)], On(s, c, b), AllCalls(t.body) + [EndScope(t.extra)], end);
  }

  // ---------------------------------------------------------------- branches

  lemma BeginIfStep(s: State, addr: nat, test: Operand)
    requires s.contexts != []
    ensures Leads(s, [BeginIf(addr, test)], On(s, Context(addr, s.births, [], InIf(test, [], false, [])), s.births + 1))
  {
    LeadsOne(s, BeginIf(addr, test), On(s, Context(addr, s.births, [], InIf(test, [], false, [])), s.births + 1));
  }

  function ElseCalls(hasElse: bool, elsePart: seq<Tree>): seq<Event> {
    if hasElse then [BeginElse] + AllCalls(elsePart) else []
  }

  function ElseStmts(hasElse: bool, elsePart: seq<Tree>): seq<Stmt> {
    if hasElse then AllMeaning(elsePart, []).stmts else []
  }

  function ElseOpens(hasElse: bool, elsePart: seq<Tree>): nat {
    if hasElse then AllOpens(elsePart) else 0
  }

  lemma {:induction false} ReplayElse(s: State, c: Context, births: nat, hasElse: bool, ts: seq<Tree>)
    requires TopIsLive(s) && c.addr !in Live(s) && (hasElse ==> AllAccepted(ts) && AllPlaced(ts, Live(s) + {c.addr}))
    requires c.about.InIf? && !c.about.inElse && c.about.elseStmts == []
    ensures Leads(On(s, c, births), ElseCalls(hasElse, ts),
                  On(s, c.(about := c.about.(inElse := hasElse, elseStmts := ElseStmts(hasElse, ts))),
                      births + ElseOpens(hasElse, ts)))
    decreases ts, 3
  {
    if hasElse {
      var c1 := c.(about := c.about.(inElse := true, elseStmts := []));
      OnTop(s, c, births);
      LeadsOne(On(s, c, births), BeginElse, On(s, c1, births));
      ReplayOn(s, c1, births, ts);
      assert [] + AllMeaning(ts, []).stmts == AllMeaning(ts, []).stmts;
      LeadsThen(On(s, c, births), [BeginElse], On(s, c1, births), AllCalls(ts),
                On(s, c1.(about := c1.about.(elseStmts := AllMeaning(ts, []).stmts)), births + AllOpens(ts)));
    } else {
      LeadsNowhere(On(s, c, births));
    }
  }

  lemma EndIfRun(s: State, c: Context, births: nat, names: seq<Name>)
    requires s.contexts != [] && births >= s.births && c.about.InIf? && c.about.test.hasValue && c.about.ifVars == []
    ensures Leads(On(s, c, births), IfVarEvents(names) + [EndIf],
                  Grown(s, Taking(IfOf(c.(about := c.about.(ifVars := names))), Waiting(s)), births - s.births))
  {
    var c1 := c.(about := c.about.(ifVars := names));
    var end := Grown(s, Taking(IfOf(c1), Waiting(s)), births - s.births);
    assert [] + names == names;
    IfVarsRun(s, c, births, names);
    OnTop(s, c1, births);
    CloseOn(s, c1, births, IfOf(c1));
    LeadsOne(On(s, c1, births), EndIf, end);
    LeadsThen(On(s, c, births), IfVarEvents(names), On(s, c1, births), [EndIf], end);
  }

  lemma {:induction false} ReplayIf(s: State, t: Tree)
    requires s.contexts != [] && TopIsLive(s) && t.IfTree? && Accepted(t) && Placed(t, Live(s))
    ensures Leads(s, Calls(t), Grown(s, Meaning(t, Waiting(s)), Opens(t)))
    decreases t, 0
  {
    var c, b := Context(t.addr, s.births, [], InIf(t.test, [], false, [])), s.births + 1;
    var c1, b1 := c.(stmts := AllMeaning(t.thenPart, []).stmts), b + AllOpens(t.thenPart);
    var c2 := c1.(about := InIf(t.test, [], t.hasElse, ElseStmts(t.hasElse, t.elsePart)));
    var b2 := b1 + ElseOpens(t.hasElse, t.elsePart);
    var last := IfVarEvents(t.ifVars) + [EndIf];
    var end := Grown(s, Taking(IfOf(c2.(about := c2.about.(ifVars := t.ifVars))), Waiting(s)), b2 - s.births);
    BeginIfStep(s, t.addr, t.test);
    AddToEmpty(c, AllMeaning(t.thenPart, []).stmts);
    ReplayOn(s, c, b, t.thenPart);
    ReplayElse(s, c1, b1, t.hasElse, t.elsePart);
    EndIfRun(s, c2, b2, t.ifVars);
    LeadsThen(On(s, c1, b1), ElseCalls(t.hasElse, t.elsePart), On(s, c2, b2), last, end);
    LeadsThen(On(s, c, b), AllCalls(t.thenPart), On(s, c1, b1), ElseCalls(t.hasElse, t.elsePart) + last, end);
    LeadsThen(s, [BeginIf(t.addr, t.test)], On(s, c, b),
        AllCalls(t.thenPart) + (ElseCalls(t.hasElse, t.elsePart) + last), end);
  }

  // ---------------------------------------------------------------- comments

  /** `s` with comments pushed. */
  function Pushed(s: State, comments: Comments): State {
    s.(pending := s.pending + [PendingFor(s, comments)])
  }

  lemma PushedFacts(s: State, comments: Comments)
    requires s.contexts != []
    ensures Leads(s, [PushComments(comments)], Pushed(s, comments))
    ensures TopIsLive(Pushed(s, comments)) && Live(Pushed(s, comments)) == Live(s)
      && Waiting(Pushed(s, comments)) == comments
  {
    assert s.contexts[|s.contexts| - 1] in s.contexts;
    LeadsOne(s, PushComments(comments), Pushed(s, comments));
  }

  lemma GrownPushed(s: State, comments: Comments, r: Result, begun: nat)
    requires s.contexts != []
    ensures var g := Grown(Pushed(s, comments), r, begun);
            && g.contexts == s.WithTop(AddStmts(s.Top(), r.stmts)).contexts && g.births == s.births + begun
            && g.pending == s.pending + [PendingFor(s, comments).(comments := r.left)]
  {
  }

  lemma PopStep(s: State, below: seq<Pending>, p: Pending)
    requires s.pending == below + [p]
    ensures Apply(s, PopComments) == s.(pending := below) && OutcomeOf(s, PopComments) == Popped(p.comments)
  {
  }

  lemma GrownKeepsWaiting(s: State, stmts: seq<Stmt>, begun: nat)
    requires s.contexts != []
    ensures Grown(s, Result(stmts, Waiting(s)), begun)
      == s.WithTop(AddStmts(s.Top(), stmts)).(births := s.births + begun)
  {
  }

  lemma PopGrown(s: State, comments: Comments, r: Result, begun: nat)
    requires s.contexts != []
    ensures Apply(Grown(Pushed(s, comments), r, begun), PopComments) == Grown(s, Result(r.stmts, Waiting(s)), begun)
    ensures OutcomeOf(Grown(Pushed(s, comments), r, begun), PopComments) == Popped(r.left)
  {
    GrownPushed(s, comments, r, begun);
    PopStep(Grown(Pushed(s, comments), r, begun), s.pending, PendingFor(s, comments).(comments := r.left));
    GrownKeepsWaiting(s, r.stmts, begun);
  }

  lemma {:induction false} ReplayCommented(s: State, t: Tree)
    requires s.contexts != [] && TopIsLive(s) && t.Commented? && Accepted(t) && Placed(t, Live(s))
    ensures Leads(s, Calls(t), Grown(s, Meaning(t, Waiting(s)), Opens(t)))
    decreases t, 0
  {
    var p := Pushed(s, t.comments);
    var r := AllMeaning(t.inner, t.comments);
    var g, end := Grown(p, r, AllOpens(t.inner)), Grown(s, Result(r.stmts, Waiting(s)), AllOpens(t.inner));
    PushedFacts(s, t.comments);
    ReplayAll(p, t.inner);
    PopGrown(s, t.comments, r, AllOpens(t.inner));
    LeadsOne(g, PopComments, end);
    LeadsThen(p, AllCalls(t.inner), g, [PopComments], end);
    LeadsThen(s, [PushComments(t.comments)], p, AllCalls(t.inner) + [PopComments], end);
  }

  // ---------------------------------------------------------------- what follows

  lemma LeadsOnce(s: State, es: seq<Event>, t: State, t': State)
    requires Leads(s, es, t) && Leads(s, es, t')
    ensures t == t'
  {
    LeadsIsRun(s, es, t);
    LeadsIsRun(s, es, t');
  }

  /** Popping after the calls for some statements returns the comments that no statement
      took: all of them or none. */
  lemma CommentsComeBack(s: State, comments: Comments, ts: seq<Tree>, before: State)
    requires s.contexts != [] && AllAccepted(ts) && AllPlaced(ts, Live(s))
    requires Leads(s, [PushComments(comments)] + AllCalls(ts), before)
    ensures OutcomeOf(before, PopComments) == Popped(AllMeaning(ts, comments).left)
    ensures AllMeaning(ts, comments).left == comments || AllMeaning(ts, comments).left == []
  {
    var p := Pushed(s, comments);
    var g := Grown(p, AllMeaning(ts, comments), AllOpens(ts));
    PushedFacts(s, comments);
    ReplayAll(p, ts);
    LeadsThen(s, [PushComments(comments)], p, AllCalls(ts), g);
    LeadsOnce(s, [PushComments(comments)] + AllCalls(ts), before, g);
    PopGrown(s, comments, AllMeaning(ts, comments), AllOpens(ts));
    AllOrNothing(ts, comments);
  }

  lemma {:induction false} AllOrNothing(ts: seq<Tree>, waiting: Comments)
    ensures AllMeaning(ts, waiting).left == waiting || AllMeaning(ts, waiting).left == []
  {
    if ts != [] {
      AllOrNothing(ts[1..], Meaning(ts[0], waiting).left);
    }
  }

  function ReturnTypes(types: seq<Operand>): seq<Event> {
    if types == [] then [] else [AddReturnType(types[0])] + ReturnTypes(types[1..])
  }

  lemma {:induction false} ReturnTypesRun(s: State, c: Context, births: nat, types: seq<Operand>)
    requires c.about.InFunction?
    ensures Leads(On(s, c, births), ReturnTypes(types),
      On(s, c.(about := c.about.(returnTypes := c.about.returnTypes + types)), births))
    decreases |types|
  {
    if types == [] {
      assert c.about.returnTypes + types == c.about.returnTypes;
      LeadsNowhere(On(s, c, births));
    } else {
      var c' := c.(about := c.about.(returnTypes := c.about.returnTypes + [types[0]]));
      OnTop(s, c, births);
      LeadsOne(On(s, c, births), AddReturnType(types[0]), On(s, c', births));
      ReturnTypesRun(s, c', births, types[1..]);
      assert c.about.returnTypes + [types[0]] + types[1..] == c.about.returnTypes + types;
      LeadsThen(On(s, c, births), [AddReturnType(types[0])], On(s, c', births), ReturnTypes(types[1..]),
                On(s, c.(about := c.about.(returnTypes := c.about.returnTypes + types)), births));
    }
  }

  lemma FunctionRuns(s: State, addr: nat, name: Name, fits: bool, types: seq<Operand>, ts: seq<Tree>)
      returns (c: Context, births: nat, end: State)
    requires s.contexts == [] && TopIsLive(s) && AllAccepted(ts) && AllPlaced(ts, {addr})
    ensures c.stmts == AllMeaning(ts, []).stmts && c.about == InFunction(name, fits, types)
    ensures end == On(s, c, births)
    ensures Leads(s, [BeginFunction(addr, name, fits)] + (ReturnTypes(types) + AllCalls(ts)), end)
  {
    var c0 := Context(addr, s.births, [], InFunction(name, fits, []));
    var c' := c0.(about := InFunction(name, fits, types));
    c := c'.(stmts := AllMeaning(ts, []).stmts);
    births := s.births + 1 + AllOpens(ts);
    end := On(s, c, births);
    assert Live(s) == {} && Live(s) + {addr} == {addr};
    LeadsOne(s, BeginFunction(addr, name, fits), On(s, c0, s.births + 1));
    assert [] + types == types;
    ReturnTypesRun(s, c0, s.births + 1, types);
    AddToEmpty(c', AllMeaning(ts, []).stmts);
    ReplayOn(s, c', s.births + 1, ts);
    LeadsThen(On(s, c0, s.births + 1), ReturnTypes(types), On(s, c', s.births + 1), AllCalls(ts), end);
    LeadsThen(s, [BeginFunction(addr, name, fits)], On(s, c0, s.births + 1), ReturnTypes(types) + AllCalls(ts), end);
  }

  lemma EndFunctionStep(s: State, c: Context, births: nat, regsPass: bool, before: State)
    requires s.contexts == [] && c.about.InFunction? && before == On(s, c, births)
    ensures var passes := c.about.FunctionFits() && regsPass;
            && OutcomeOf(before, EndFunction(regsPass))
               == (if passes then Built(c.about.name, c.about.returnTypes, Body(c.stmts)) else Raised)
            && Apply(before, EndFunction(regsPass)) == (if passes then s.(births := before.births) else before)
  {
    OnTop(s, c, births);
  }

  /** A whole function: if it passes the checks made of a finished function, the builder ends
      as it began and hands out the normalised body; if not, the function stays open. */
  lemma FunctionReplay(s: State, addr: nat, name: Name, fits: bool, types: seq<Operand>, ts: seq<Tree>, before: State,
      regsPass: bool)
    requires s.contexts == [] && TopIsLive(s) && AllAccepted(ts) && AllPlaced(ts, {addr})
    requires Leads(s, [BeginFunction(addr, name, fits)] + (ReturnTypes(types) + AllCalls(ts)), before)
    ensures var passes := fits && regsPass && forall k :: 0 <= k < |types| ==> types[k].hasValue;
            && OutcomeOf(before, EndFunction(regsPass))
               == (if passes then Built(name, types, Body(AllMeaning(ts, []).stmts)) else Raised)
            && Apply(before, EndFunction(regsPass)) == (if passes then s.(births := before.births) else before)
  {
    var c, births, end := FunctionRuns(s, addr, name, fits, types, ts);
    EndFunctionStep(s, c, births, regsPass, end);
    LeadsOnce(s, [BeginFunction(addr, name, fits)] + (ReturnTypes(types) + AllCalls(ts)), before, end);
  }

  /** A loop whose iteration arguments and return variables do not match leaves every
      stack as it was, whatever was built inside it, and keeps the comments waiting. */
  lemma RejectedLoop(s: State, t: Tree)
    requires s.contexts != [] && TopIsLive(s) && Accepted(t) && Placed(t, Live(s))
    requires t.LoopTree? && |t.iterArgs| != |t.returnVars|
    ensures Leads(s, Calls(t), s.(births := s.births + Opens(t)))
  {
    Replay(s, t);
    GrownByNothing(s);
    assert Grown(s, Result([], Waiting(s)), Opens(t))
        == Grown(s, Result([], Waiting(s)), 0).(births := s.births + Opens(t));
  }
}
