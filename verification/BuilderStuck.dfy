/** Contexts that no call can ever end. A statement is made before its context goes, so what
    its making refuses leaves the context open; where no call can repair the particulars it
    stays open for good, and so does everything it was begun in (src/ir/builder.cpp). */
module BuilderStuck {
  import opened Options
  import opened BuilderState

  /** A branch on no value; an Spmd scope with no core count, or one that is no value; a
      function whose level does not fit its type, or with a return type without values. */
  predicate Stuck(c: Context) {
    match c.about
    case InFunction(_, levelFits, types) => !levelFits || exists k :: 0 <= k < |types| && !types[k].hasValue
    case InLoop(_, _, _) => false
    case InIf(test, _, _, _) => !test.hasValue
    case InScope(scope) => scope.kind == Spmd && (scope.coreNum == None || !scope.coreNum.value.hasValue)
  }

  /** Whether the end of a loop raises: its counts differ, or a bound or its condition is no
      value. */
  predicate LoopFails(about: About)
    requires about.InLoop?
  {
    |about.iterArgs| != |about.returnVars| || LacksValue(about.loop)
  }

  predicate LacksValue(loop: LoopHead) {
    match loop
    case ForHead(_, start, stop, step, _, _) => !start.hasValue || !stop.hasValue || !step.hasValue
    case WhileHead(condition) => !condition.hasValue
  }

  // ---------------------------------------------------------------- every call works on the top

  /** The same context, altered in place: of a scope only the attributes can go, of a for
      loop nothing that the loop statement checks, and what is stuck stays stuck. */
  predicate Amends(c: Context, d: Context) {
    && c.addr == d.addr && c.birth == d.birth && (Stuck(c) ==> Stuck(d))
    && c.about.InFunction? == d.about.InFunction? && c.about.InScope? == d.about.InScope?
    && (c.about.InScope? ==> d.about.scope == c.about.scope || d.about.scope == c.about.scope.(attrs := []))
    && (c.about.InLoop? && c.about.loop.ForHead? ==> d.about.InLoop? && d.about.loop == c.about.loop)
  }

  /** Every open scope has passed the checks of `BeginScope`. */
  predicate Begun(c: Context) {
    c.about.InScope? ==> c.about.scope.CanBegin()
  }

  ghost predicate ScopesBegan(contexts: seq<Context>) {
    forall k :: 0 <= k < |contexts| ==> Begun(contexts[k])
  }

  /** A context gets a statement. */
  lemma AddKeeps(c: Context, more: seq<Stmt>)
    ensures Amends(c, AddStmts(c, more)) && Stuck(AddStmts(c, more)) == Stuck(c)
  {
  }

  lemma PlaceKeeps(s: State, stmt: Stmt)
    requires s.contexts != []
    ensures var t := Place(s, stmt);
            && |t.contexts| == |s.contexts| && t.contexts[..|s.contexts| - 1] == s.contexts[..|s.contexts| - 1]
            && Amends(s.Top(), t.Top()) && Stuck(t.Top()) == Stuck(s.Top()) && t.births == s.births
  {
    AddKeeps(s.Top(), [stmt]);
    AddKeeps(s.Top(), [Attach(stmt, Waiting(s))]);
  }

  /** The contexts after a call: a new one on top, the top one altered or ended, and in the
      latter case perhaps a statement added to the next. */
  ghost predicate TopOnly(cs: seq<Context>, ds: seq<Context>) {
    || (|ds| == |cs| + 1 && ds[..|cs|] == cs && Begun(ds[|cs|]) && (ds[|cs|].about.InFunction? ==> !FunctionOpen(cs)))
    || ds == cs
    || (|ds| == |cs| > 0 && ds[..|cs| - 1] == cs[..|cs| - 1] && Amends(cs[|cs| - 1], ds[|cs| - 1]))
    || (|ds| == |cs| - 1 && !Stuck(cs[|cs| - 1]) && ds == cs[..|cs| - 1])
    || (|ds| == |cs| - 1 > 0 && !Stuck(cs[|cs| - 1]) && ds[..|ds| - 1] == cs[..|ds| - 1]
        && Amends(cs[|ds| - 1], ds[|ds| - 1]))
  }

  lemma PlaceTopOnly(s: State, stmt: Stmt)
    requires s.contexts != []
    ensures TopOnly(s.contexts, Place(s, stmt).contexts)
  {
    PlaceKeeps(s, stmt);
  }

  lemma CloseTopOnly(s: State, stmt: Stmt)
    requires s.contexts != [] && !Stuck(s.Top())
    ensures TopOnly(s.contexts, Close(s, stmt).contexts)
  {
    if s.Under().contexts != [] {
      PlaceKeeps(s.Under(), stmt);
    }
  }

  lemma AmendedTopOnly(s: State, about: About)
    requires s.contexts != [] && Amends(s.Top(), s.Top().(about := about))
    ensures TopOnly(s.contexts, s.Amended(about).contexts)
  {
  }

  lemma UnderTopOnly(s: State)
    requires s.contexts != [] && !Stuck(s.Top())
    ensures TopOnly(s.contexts, s.Under().contexts)
  {
  }

  lemma BegunTopOnly(s: State, c: Context)
    requires Begun(c) && (c.about.InFunction? ==> !FunctionOpen(s.contexts))
    ensures TopOnly(s.contexts, s.Begun(c).contexts)
  {
  }

  lemma LeaveTopOnly(s: State)
    ensures TopOnly(s.contexts, Leave(s, []).contexts)
  {
  }

  lemma SameTopOnly(s: State)
    ensures TopOnly(s.contexts, s.contexts)
  {
  }

  lemma RefusedTopOnly(s: State, e: Event)
    requires Refused(s, e)
    ensures TopOnly(s.contexts, AfterRefusal(s, e).contexts)
  {
    SameTopOnly(s);
    match e
    case EndFor => if s.InFor() { UnderTopOnly(s); }
    case EndWhile => if s.InWhile() { UnderTopOnly(s); }
    case EndScope(_) => if s.InScope() { AmendedTopOnly(s, InScope(s.Top().about.scope.(attrs := []))); }
    case Emit(stmt) => LeaveTopOnly(s);
    case _ =>
  }

  predicate IsEnd(e: Event) {
    e.EndFunction? || e.EndFor? || e.EndWhile? || e.EndIf? || e.EndScope?
  }

  lemma EndTopOnly(s: State, e: Event)
    requires !Refused(s, e) && IsEnd(e)
    ensures TopOnly(s.contexts, After(s, e).contexts)
  {
    match e
    case EndFunction(_) => UnderTopOnly(s);
    case EndFor => CloseTopOnly(s, LoopOf(s.Top()));
    case EndWhile => CloseTopOnly(s, LoopOf(s.Top()));
    case EndIf => CloseTopOnly(s, IfOf(s.Top()));
    case EndScope(extra) => CloseTopOnly(s, ScopeOf(s.Top(), extra));
  }

  predicate IsBegin(e: Event) {
    e.BeginFunction? || e.BeginFor? || e.BeginWhile? || e.BeginIf? || e.BeginScope?
  }

  /** The context a call begins. */
  function ContextOf(e: Event, births: nat): Context
    requires IsBegin(e)
  {
    match e
    case BeginFunction(addr, name, levelFits) => Context(addr, births, [], InFunction(name, levelFits, []))
    case BeginFor(addr, loop) => Context(addr, births, [], InLoop(loop, [], []))
    case BeginWhile(addr, condition) => Context(addr, births, [], InLoop(WhileHead(condition), [], []))
    case BeginIf(addr, condition) => Context(addr, births, [], InIf(condition, [], false, []))
    case BeginScope(addr, scope) => Context(addr, births, [], InScope(scope))
  }

  lemma BeginStep(s: State, e: Event)
    requires !Refused(s, e) && IsBegin(e)
    ensures After(s, e) == s.Begun(ContextOf(e, s.births))
    ensures Begun(ContextOf(e, s.births)) && (ContextOf(e, s.births).about.InFunction? ==> !FunctionOpen(s.contexts))
  {
  }

  /** Every call works on the top of the stack. */
  lemma StepTopOnly(s: State, e: Event)
    ensures TopOnly(s.contexts, Apply(s, e).contexts)
  {
    if Refused(s, e) {
      RefusedTopOnly(s, e);
    } else if IsEnd(e) {
      EndTopOnly(s, e);
    } else if IsBegin(e) {
      BeginStep(s, e);
      BegunTopOnly(s, ContextOf(e, s.births));
    } else {
      SameTopOnly(s);
      match e
      case AddReturnType(returned) => ReturnTypeTopOnly(s, returned);
      case AddIterArg(name) => AmendedTopOnly(s, s.Top().about.(iterArgs := s.Top().about.iterArgs + [name]));
      case AddWhileIterArg(name) => AmendedTopOnly(s, s.Top().about.(iterArgs := s.Top().about.iterArgs + [name]));
      case AddReturnVar(name) => AmendedTopOnly(s, s.Top().about.(returnVars := s.Top().about.returnVars + [name]));
      case AddWhileReturnVar(name) => AmendedTopOnly(s,
          s.Top().about.(returnVars := s.Top().about.returnVars + [name]));
      case SetWhileCondition(condition) => AmendedTopOnly(s, s.Top().about.(loop := WhileHead(condition)));
      case BeginElse => AmendedTopOnly(s, s.Top().about.(inElse := true, elseStmts := []));
      case AddIfReturnVar(name) => AmendedTopOnly(s, s.Top().about.(ifVars := s.Top().about.ifVars + [name]));
      case Emit(stmt) => PlaceTopOnly(s, stmt);
      case _ =>
    }
  }

  /** A return type is never taken back. */
  lemma ReturnTypeTopOnly(s: State, returned: Operand)
    requires s.InFunction()
    ensures TopOnly(s.contexts, s.Amended(s.Top().about.(returnTypes := s.Top().about.returnTypes
      + [returned])).contexts)
  {
    var types := s.Top().about.returnTypes;
    if k :| 0 <= k < |types| && !types[k].hasValue {
      assert !(types + [returned])[k].hasValue;
    }
    AmendedTopOnly(s, s.Top().about.(returnTypes := types + [returned]));
  }

  lemma StepKeepsBegan(cs: seq<Context>, ds: seq<Context>)
    requires ScopesBegan(cs) && TopOnly(cs, ds)
    ensures ScopesBegan(ds)
  {
  }

  lemma {:induction false} RunKeepsBegan(s: State, es: seq<Event>)
    requires ScopesBegan(s.contexts)
    ensures ScopesBegan(Run(s, es).contexts)
    decreases |es|
  {
    if es != [] {
      StepTopOnly(s, es[0]);
      StepKeepsBegan(s.contexts, Apply(s, es[0]).contexts);
      RunKeepsBegan(Apply(s, es[0]), es[1..]);
    }
  }

  // ---------------------------------------------------------------- when other calls raise

  /** A begin raises exactly in these cases. */
  lemma BeginRaisesExactly(s: State, addr: nat, name: Name, levelFits: bool, loop: ForLoop, test: Operand,
      scope: ScopeHead)
    ensures OutcomeOf(s, BeginFunction(addr, name, levelFits)) == Raised
       <==> exists k :: 0 <= k < |s.contexts| && s.contexts[k].about.InFunction?
    ensures OutcomeOf(s, BeginFor(addr, loop)) == Raised
       <==> s.contexts == [] || (loop.policyRequired && !loop.sequential)
    ensures OutcomeOf(s, BeginWhile(addr, test)) == Raised <==> s.contexts == []
    ensures OutcomeOf(s, BeginIf(addr, test)) == Raised <==> s.contexts == []
    ensures OutcomeOf(s, BeginScope(addr, scope)) == Raised
       <==> || s.contexts == [] || (scope.kind == Hierarchy && scope.level == None)
            || (scope.kind == Runtime && scope.manual == None) || (scope.kind == SplitAiv && scope.split == None)
            || (scope.kind == Graph && scope.name == "")
  {
  }

  /** What a call adds to the current context. */
  ghost predicate Changes(s: State, e: Event, about: About) {
    && OutcomeOf(s, e) == Done && s.contexts != [] && |Apply(s, e).contexts| == |s.contexts|
    && Apply(s, e).contexts[..|s.contexts| - 1] == s.contexts[..|s.contexts| - 1]
    && Apply(s, e).contexts[|s.contexts| - 1] == s.contexts[|s.contexts| - 1].(about := about)
    && Apply(s, e).pending == s.pending
  }

  /** In a context of its kind a call that adds to the context does just that; anywhere else
      it raises. */
  lemma AdditionsExactly(s: State, name: Name, value: Operand)
    requires s.contexts != []
    ensures var about := s.contexts[|s.contexts| - 1].about;
            && (if about.InFunction? then
                  Changes(s, AddReturnType(value), about.(returnTypes := about.returnTypes + [value]))
                else OutcomeOf(s, AddReturnType(value)) == Raised)
            && (if about.InLoop? && about.loop.ForHead? then
                  && Changes(s, AddIterArg(name), about.(iterArgs := about.iterArgs + [name]))
                  && Changes(s, AddReturnVar(name), about.(returnVars := about.returnVars + [name]))
                else OutcomeOf(s, AddIterArg(name)) == OutcomeOf(s, AddReturnVar(name)) == Raised)
            && (if about.InLoop? && about.loop.WhileHead? then
                  && Changes(s, AddWhileIterArg(name), about.(iterArgs := about.iterArgs + [name]))
                  && Changes(s, AddWhileReturnVar(name), about.(returnVars := about.returnVars + [name]))
                  && Changes(s, SetWhileCondition(value), about.(loop := WhileHead(value)))
                else OutcomeOf(s, AddWhileIterArg(name)) == OutcomeOf(s, AddWhileReturnVar(name))
                     == OutcomeOf(s, SetWhileCondition(value)) == Raised)
            && (if about.InIf? then Changes(s, AddIfReturnVar(name), about.(ifVars := about.ifVars + [name]))
                else OutcomeOf(s, AddIfReturnVar(name)) == Raised)
            && (if about.InIf? && !about.inElse then Changes(s, BeginElse, about.(inElse := true, elseStmts := []))
                else OutcomeOf(s, BeginElse) == Raised)
  {
  }

  // ---------------------------------------------------------------- when an end raises

  /** After any calls on an empty builder: ending the current scope raises exactly when it is
      an Spmd scope whose core count is missing or no value. */
  lemma EndScopeRaisesExactly(s: State, es: seq<Event>, extra: seq<Name>)
    requires s.contexts == [] && Run(s, es).InScope()
    ensures var scope := Run(s, es).Top().about.scope;
            OutcomeOf(Run(s, es), EndScope(extra)) == Raised
            <==> scope.kind == Spmd && (scope.coreNum == None || !scope.coreNum.value.hasValue)
  {
    RunKeepsBegan(s, es);
    assert Begun(Run(s, es).Top());
  }

  /** The calls that can end the current context. */
  predicate CanOnlyEnd(c: Context, e: Event) {
    match c.about
    case InFunction(_, _, _) => e == EndFunction(true)
    case InLoop(loop, _, _) => e == if loop.ForHead? then EndFor else EndWhile
    case InIf(_, _, _, _) => e == EndIf
    case InScope(_) => e.EndScope?
  }

  /** After any calls: the end of a loop raises exactly when its counts differ or it lacks a
      value, and the end of any other context exactly when the context is stuck. Unless a
      loop's counts differ, the context is then still there. */
  lemma EndRaisesExactly(s: State, es: seq<Event>, e: Event)
    requires s.contexts == [] && Run(s, es).contexts != [] && CanOnlyEnd(Run(s, es).Top(), e)
    ensures var t := Run(s, es);
            && (OutcomeOf(t, e) == Raised <==>
                  if t.Top().about.InLoop? then LoopFails(t.Top().about) else Stuck(t.Top()))
            && (OutcomeOf(t, e) == Raised
                && !(t.Top().about.InLoop? && |t.Top().about.iterArgs| != |t.Top().about.returnVars|) ==>
                  |Apply(t, e).contexts| == |t.contexts| && Amends(t.Top(), Apply(t, e).Top()))
  {
    var t := Run(s, es);
    RunKeepsBegan(s, es);
    assert Begun(t.Top());
    if t.InScope() && Refused(t, e) {
      assert Apply(t, e) == t.Amended(InScope(t.Top().about.scope.(attrs := [])));
    }
  }

  // ---------------------------------------------------------------- what is stuck stays

  /** Context `k` is stuck and stands where it stood, and what it was begun in is as it was. */
  ghost predicate StillThere(cs: seq<Context>, ds: seq<Context>, k: nat)
    requires k < |cs|
  {
    k < |ds| && ds[..k] == cs[..k] && Stuck(ds[k]) && Amends(cs[k], ds[k])
  }

  lemma StepStillThere(cs: seq<Context>, ds: seq<Context>, k: nat)
    requires k < |cs| && Stuck(cs[k]) && TopOnly(cs, ds)
    ensures StillThere(cs, ds, k)
  {
  }

  lemma {:induction false} RunStillThere(s: State, es: seq<Event>, k: nat)
    requires k < |s.contexts| && Stuck(s.contexts[k])
    ensures StillThere(s.contexts, Run(s, es).contexts, k)
    decreases |es|
  {
    if es != [] {
      StepTopOnly(s, es[0]);
      StepStillThere(s.contexts, Apply(s, es[0]).contexts, k);
      RunStillThere(Apply(s, es[0]), es[1..], k);
    }
  }

  /** The calls that begin a stuck context: each is accepted wherever a sound one of its kind
      is; whatever calls follow, the context is still open, and every context it was begun
      in is as it was. */
  lemma StuckStaysOpen(s: State, e: Event, es: seq<Event>)
    requires IsBegin(e) && Stuck(ContextOf(e, s.births))
    requires if e.BeginFunction? then !FunctionOpen(s.contexts) else s.contexts != []
    ensures OutcomeOf(s, e) == Done
    ensures var t := Run(Apply(s, e), es);
            && |t.contexts| > |s.contexts| && t.contexts[..|s.contexts|] == s.contexts
            && Stuck(t.contexts[|s.contexts|]) && Amends(ContextOf(e, s.births), t.contexts[|s.contexts|])
  {
    BeginStep(s, e);
    var begun := Apply(s, e);
    RunStillThere(begun, es, |s.contexts|);
    assert begun.contexts[..|s.contexts|] == s.contexts;
  }

  /** In particular an Spmd scope whose core count is missing or no value. */
  lemma SpmdStaysOpen(s: State, addr: nat, scope: ScopeHead, es: seq<Event>)
    requires s.contexts != [] && scope.kind == Spmd && (scope.coreNum == None || !scope.coreNum.value.hasValue)
    ensures OutcomeOf(s, BeginScope(addr, scope)) == Done
    ensures var t := Run(Apply(s, BeginScope(addr, scope)), es);
            && |t.contexts| > |s.contexts| && t.contexts[..|s.contexts|] == s.contexts
            && Stuck(t.contexts[|s.contexts|]) && t.contexts[|s.contexts|].birth == s.births
            && t.contexts[|s.contexts|].about.InScope?
                && t.contexts[|s.contexts|].about.scope in {scope, scope.(attrs := [])}
  {
    StuckStaysOpen(s, BeginScope(addr, scope), es);
  }

  /** The first attempt to end it takes its attributes. */
  lemma AttemptTakesAttrs(s: State, extra: seq<Name>)
    requires s.InScope() && Stuck(s.Top())
    ensures OutcomeOf(s, EndScope(extra)) == Raised
    ensures Apply(s, EndScope(extra)) == s.Amended(InScope(s.Top().about.scope.(attrs := [])))
  {
  }

  // ---------------------------------------------------------------- no function comes out

  ghost predicate NoFunctionFrom(cs: seq<Context>, k: nat) {
    forall i :: k <= i < |cs| ==> !cs[i].about.InFunction?
  }

  lemma NoFunctionBegins(cs: seq<Context>, ds: seq<Context>, k: nat)
    requires FunctionOpen(cs) && NoFunctionFrom(cs, k) && TopOnly(cs, ds)
    ensures NoFunctionFrom(ds, k)
  {
  }

  /** The function that is stuck, or in which something is, is never handed out, nor is any
      other: context `k` is stuck, and it or one below it is a function. */
  lemma {:induction false} FunctionNeverBuilt(s: State, es: seq<Event>, k: nat, regsPass: bool)
    requires k < |s.contexts| && Stuck(s.contexts[k]) && FunctionOpen(s.contexts[..k + 1])
      && NoFunctionFrom(s.contexts, k + 1)
    ensures OutcomeOf(Run(s, es), EndFunction(regsPass)) == Raised
    decreases |es|
  {
    if es != [] {
      var t := Apply(s, es[0]);
      StepTopOnly(s, es[0]);
      StepStillThere(s.contexts, t.contexts, k);
      var f :| 0 <= f < |s.contexts[..k + 1]| && s.contexts[..k + 1][f].about.InFunction?;
      assert s.contexts[f].about.InFunction?;
      NoFunctionBegins(s.contexts, t.contexts, k + 1);
      assert t.contexts[..k + 1][f].about.InFunction? by {
        if f < k { assert t.contexts[..k][f] == s.contexts[..k][f]; }
      }
      FunctionNeverBuilt(t, es[1..], k, regsPass);
    }
  }

  // ---------------------------------------------------------------- loops can be given up

  /** A for loop with a bound that is no value is never built: every end raises while its
      counts agree. It is not stuck, for a loop whose counts differ is given up. */
  lemma ValuelessLoop(s: State, name: Name)
    requires s.InFor() && s.Top().about.Balanced() && LacksValue(s.Top().about.loop)
    ensures OutcomeOf(s, EndFor) == Raised && Apply(s, EndFor) == s
    ensures var t := Apply(s, AddReturnVar(name));
            OutcomeOf(t, EndFor) == Raised && Apply(t, EndFor) == s.Under()
  {
  }

  // ---------------------------------------------------------------- exactly what is stuck

  ghost predicate NoneStuck(contexts: seq<Context>) {
    forall k :: 0 <= k < |contexts| ==> !Stuck(contexts[k])
  }

  /** The current context, unless it is stuck, can be ended in one or two calls. */
  function Ending(c: Context): seq<Event> {
    match c.about
    case InFunction(_, _, _) => [EndFunction(true)]
    case InLoop(loop, _, _) =>
      (if c.about.Balanced() && !loop.Valued() then [OneMoreVar(loop)] else []) + [LoopEnd(loop)]
    case InIf(_, _, _, _) => [EndIf]
    case InScope(_) => [EndScope([])]
  }

  /** The stack without its top, up to a statement added to what is then the top. */
  ghost predicate Shorter(cs: seq<Context>, ds: seq<Context>) {
    && |ds| == |cs| - 1
    && (ds == [] || (ds[..|ds| - 1] == cs[..|ds| - 1] && Amends(cs[|ds| - 1], ds[|ds| - 1])
                     && Stuck(ds[|ds| - 1]) == Stuck(cs[|ds| - 1])))
  }

  lemma CloseShortens(s: State, stmt: Stmt)
    requires s.contexts != []
    ensures Shorter(s.contexts, Close(s, stmt).contexts)
  {
    if s.Under().contexts != [] {
      PlaceKeeps(s.Under(), stmt);
    }
  }

  lemma UnderShortens(s: State)
    requires s.contexts != []
    ensures Shorter(s.contexts, s.Under().contexts)
  {
  }

  lemma SingleRun(s: State, e: Event)
    ensures Run(s, [e]) == Apply(s, e)
  {
    assert [e][1..] == [];
  }

  function LoopEnd(loop: LoopHead): Event {
    if loop.ForHead? then EndFor else EndWhile
  }

  function OneMoreVar(loop: LoopHead): Event {
    if loop.ForHead? then AddReturnVar("r") else AddWhileReturnVar("r")
  }

  /** Ending a loop ends its context, unless its counts agree and it lacks a value. */
  lemma LoopEndShortens(s: State)
    requires s.contexts != [] && s.Top().about.InLoop? && (s.Top().about.Balanced() ==> s.Top().about.loop.Valued())
    ensures Shorter(s.contexts, Apply(s, LoopEnd(s.Top().about.loop)).contexts)
  {
    if s.Top().about.Balanced() { CloseShortens(s, LoopOf(s.Top())); } else { UnderShortens(s); }
  }

  lemma EndLoopShortens(s: State)
    requires s.contexts != [] && s.Top().about.InLoop?
    ensures Shorter(s.contexts, Run(s, Ending(s.Top())).contexts)
  {
    var about := s.Top().about;
    var end := LoopEnd(about.loop);
    if about.Balanced() && !about.loop.Valued() {
      var more := OneMoreVar(about.loop);
      assert ([more] + [end])[1..] == [end];
      SingleRun(Apply(s, more), end);
      assert Apply(Apply(s, more), end) == s.Under();
      UnderShortens(s);
    } else {
      assert [] + [end] == [end];
      SingleRun(s, end);
      LoopEndShortens(s);
    }
  }

  lemma EndingShortens(s: State)
    requires s.contexts != [] && !Stuck(s.Top()) && Begun(s.Top())
    ensures Shorter(s.contexts, Run(s, Ending(s.Top())).contexts)
  {
    match s.Top().about
    case InFunction(_, _, _) => SingleRun(s, EndFunction(true)); UnderShortens(s);
    case InLoop(_, _, _) => EndLoopShortens(s);
    case InIf(_, _, _, _) => SingleRun(s, EndIf); CloseShortens(s, IfOf(s.Top()));
    case InScope(_) => SingleRun(s, EndScope([])); CloseShortens(s, ScopeOf(s.Top(), []));
  }

  lemma {:induction false} EmptiesIfNoneStuck(s: State) returns (es: seq<Event>)
    requires ScopesBegan(s.contexts) && NoneStuck(s.contexts)
    ensures Run(s, es).contexts == []
    decreases |s.contexts|
  {
    if s.contexts == [] {
      es := [];
    } else {
      var end := Ending(s.Top());
      EndingShortens(s);
      var t := Run(s, end);
      RunKeepsBegan(s, end);
      var rest := EmptiesIfNoneStuck(t);
      RunAppend(s, end, rest);
      es := end + rest;
    }
  }

  /** After any calls on an empty builder, and if the register scopes of finished functions
      pass their check: every context can still be ended if and only if none is stuck. */
  lemma CanEmptyExactly(s: State, es: seq<Event>)
    requires s.contexts == []
    ensures (exists more :: Run(Run(s, es), more).contexts == []) <==> NoneStuck(Run(s, es).contexts)
  {
    var t := Run(s, es);
    RunKeepsBegan(s, es);
    if NoneStuck(t.contexts) {
      var more := EmptiesIfNoneStuck(t);
    } else {
      var k :| 0 <= k < |t.contexts| && Stuck(t.contexts[k]);
      forall more
        ensures Run(t, more).contexts != []
      {
        RunStillThere(t, more, k);
      }
    }
  }
}
