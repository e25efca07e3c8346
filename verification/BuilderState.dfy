/** src/ir/builder.cpp as a state machine: what every call of the IR builder does to the
    context stack and to the stack of pending leading comments. Variables are their names;
    expressions and types are names too, and say whether they stand for a value. */
module BuilderState {
  import opened Options

  type Name = string
  type Comments = seq<string>

  /** An expression, or a type; `hasValue` is false for `VoidType` and for calls of that type. */
  datatype Operand = Operand(text: Name, hasValue: bool)

  datatype LoopHead =
    | ForHead(loopVar: Name, start: Operand, stop: Operand, step: Operand, sequential: bool, policyRequired: bool)
    | WhileHead(condition: Operand)
  {
    /** What the loop statement checks when it is made. */
    predicate Valued() {
      match this
      case ForHead(_, start, stop, step, _, _) => start.hasValue && stop.hasValue && step.hasValue
      case WhileHead(condition) => condition.hasValue
    }
  }

  type ForLoop = h: LoopHead | h.ForHead?
    witness ForHead("i", Operand("0", true), Operand("1", true), Operand("1", true), true, false)

  datatype ScopeKind = InCore | Cluster | Hierarchy | Spmd | SplitAiv | Runtime | Reg | Graph | CommDomain

  datatype ScopeHead = ScopeHead(kind: ScopeKind, level: Option<Name>, split: Option<Name>, name: Name,
                                 coreNum: Option<Operand>, manual: Option<bool>, attrs: seq<Name>)
  {
    /** What `BeginScope` checks. */
    predicate CanBegin() {
      && (kind == Hierarchy ==> level.Some?)
      && (kind == Runtime ==> manual.Some?)
      && (kind == SplitAiv ==> split.Some?)
      && (kind == Graph ==> name != "")
    }
    /** What `EndScope` and the scope statement check; only `core_num` was not checked before. */
    predicate CanEnd() {
      CanBegin() && (kind == Spmd ==> coreNum.Some? && coreNum.value.hasValue)
    }
  }

  datatype Stmt =
    | Plain(text: string, comments: Comments)       // assignment, return, ...
    | Seq(stmts: seq<Stmt>)
    | Loop(head: LoopHead, iterArgs: seq<Name>, body: Stmt, returnVars: seq<Name>, comments: Comments)
    | If(test: Operand, thenBody: Stmt, elseBody: Option<Stmt>, ifVars: seq<Name>, comments: Comments)
    | Scope(scope: ScopeHead, scopeBody: Stmt, comments: Comments)

  /** A context: `addr` is the address of the object. `birth` numbers the contexts in the
      order they were begun; the program does not know it. */
  datatype Context = Context(addr: nat, birth: nat, stmts: seq<Stmt>, about: About)

  datatype About =
    | InFunction(name: Name, levelFits: bool, returnTypes: seq<Operand>)
    | InLoop(loop: LoopHead, iterArgs: seq<Name>, returnVars: seq<Name>)
    | InIf(test: Operand, ifVars: seq<Name>, inElse: bool, elseStmts: seq<Stmt>)
    | InScope(scope: ScopeHead)
  {
    /** What the function object checks when it is made: level and role agree with the
        function's type, and there is no return type without values. */
    predicate FunctionFits() {
      InFunction? && levelFits && forall k :: 0 <= k < |returnTypes| ==> returnTypes[k].hasValue
    }
    predicate Balanced() {
      InLoop? && |iterArgs| == |returnVars|
    }
  }

  /** A pushed comment list, bound to the address of the context current at the push; None
      when there was none. `birth` names that context for good. */
  datatype Pending = Pending(comments: Comments, target: Option<nat>, birth: nat)

  datatype State = State(contexts: seq<Context>, pending: seq<Pending>, births: nat)
  {
    function Top(): Context
      requires contexts != []
    {
      contexts[|contexts| - 1]
    }
    function Under(): State
      requires contexts != []
    {
      this.(contexts := contexts[..|contexts| - 1])
    }
    function WithTop(c: Context): State
      requires contexts != []
    {
      this.(contexts := contexts[..|contexts| - 1] + [c])
    }
    function Begun(c: Context): State {
      State(contexts + [c], pending, births + 1)
    }
    predicate InFunction() {
      contexts != [] && Top().about.InFunction?
    }
    predicate InFor() {
      contexts != [] && Top().about.InLoop? && Top().about.loop.ForHead?
    }
    predicate InWhile() {
      contexts != [] && Top().about.InLoop? && Top().about.loop.WhileHead?
    }
    predicate InIf() {
      contexts != [] && Top().about.InIf?
    }
    predicate InScope() {
      contexts != [] && Top().about.InScope?
    }
    /** The current context with other particulars. */
    function Amended(about: About): State
      requires contexts != []
    {
      WithTop(Top().(about := about))
    }
  }

  /** `levelFits` of a function: whether its level and role agree with its type. `regsPass`:
      whether the check of register scopes in the finished body passes. */
  datatype Event =
    | BeginFunction(addr: nat, name: Name, levelFits: bool) | AddReturnType(returned: Operand)
        | EndFunction(regsPass: bool)
    | BeginFor(addr: nat, loop: ForLoop) | AddIterArg(name: Name) | AddReturnVar(name: Name) | EndFor
    | BeginWhile(addr: nat, condition: Operand) | AddWhileIterArg(name: Name) | AddWhileReturnVar(name: Name)
    | SetWhileCondition(condition: Operand) | EndWhile
    | BeginIf(addr: nat, condition: Operand) | BeginElse | AddIfReturnVar(name: Name) | EndIf
    | BeginScope(addr: nat, scope: ScopeHead) | EndScope(extraAttrs: seq<Name>)
    | Emit(stmt: Stmt) | PushComments(comments: Comments) | PopComments

  /** How a call ends. */
  datatype Outcome = Done | Raised | Popped(comments: Comments)
      | Built(name: Name, returnTypes: seq<Operand>, body: Stmt)

  // ---------------------------------------------------------------- pieces

  /** One statement stands for itself; none or several become a sequence. */
  function Body(stmts: seq<Stmt>): Stmt {
    if |stmts| == 1 then stmts[0] else Seq(stmts)
  }

  function ElseBody(inElse: bool, stmts: seq<Stmt>): Option<Stmt> {
    if inElse && stmts != [] then Some(Body(stmts)) else None
  }

  /** `AddStmt`: an if context past `BeginElse` collects into its else branch. */
  function AddStmts(c: Context, more: seq<Stmt>): Context {
    if c.about.InIf? && c.about.inElse then c.(about := c.about.(elseStmts := c.about.elseStmts + more))
    else c.(stmts := c.stmts + more)
  }

  /** `AttachLeadingComments` replaces the comments of a statement. */
  function Attach(s: Stmt, comments: Comments): Stmt {
    if comments == [] || s.Seq? then s else s.(comments := comments)
  }

  /** The comments that wait for the next statement of the current context. */
  function Waiting(s: State): Comments {
    if s.pending != [] && s.contexts != [] && s.pending[|s.pending| - 1].target == Some(s.Top().addr)
    then s.pending[|s.pending| - 1].comments else []
  }

  /** The top entry, when it is bound to the current context, holds `left` from now on. */
  function Leave(s: State, left: Comments): State {
    if s.pending != [] && s.contexts != [] && s.pending[|s.pending| - 1].target == Some(s.Top().addr)
    then s.(pending := s.pending[..|s.pending| - 1] + [s.pending[|s.pending| - 1].(comments := left)]) else s
  }

  /** `ApplyPendingLeadingComments` and `AddStmt`. Comments cannot go on a bare sequence:
      that call raises after the comments have been moved out of their entry. */
  function Place(s: State, stmt: Stmt): State
    requires s.contexts != []
  {
    if Waiting(s) != [] && stmt.Seq? then Leave(s, [])
    else if Waiting(s) != [] then Leave(s, []).WithTop(AddStmts(s.Top(), [Attach(stmt, Waiting(s))]))
    else s.WithTop(AddStmts(s.Top(), [stmt]))
  }

  /** The end of a compound statement: its context goes, the statement joins the parent. */
  function Close(s: State, stmt: Stmt): State
    requires s.contexts != []
  {
    if s.Under().contexts == [] then s.Under() else Place(s.Under(), stmt)
  }

  // ---------------------------------------------------------------- calls

  /** A function context is open somewhere on the stack. */
  predicate FunctionOpen(contexts: seq<Context>) {
    exists k :: 0 <= k < |contexts| && contexts[k].about.InFunction?
  }

  /** Whether the call is refused. */
  predicate Refused(s: State, e: Event) {
    match e
    case BeginFunction(_, _, _) => FunctionOpen(s.contexts)
    case AddReturnType(_) => !s.InFunction()
    case EndFunction(regsPass) => !s.InFunction() || !s.Top().about.FunctionFits() || !regsPass
    case BeginFor(_, loop) => (loop.policyRequired && !loop.sequential) || s.contexts == []
    case AddIterArg(_) => !s.InFor()
    case AddReturnVar(_) => !s.InFor()
    case EndFor => !s.InFor() || !s.Top().about.Balanced() || !s.Top().about.loop.Valued()
    case BeginWhile(_, _) => s.contexts == []
    case AddWhileIterArg(_) => !s.InWhile()
    case AddWhileReturnVar(_) => !s.InWhile()
    case SetWhileCondition(_) => !s.InWhile()
    case EndWhile => !s.InWhile() || !s.Top().about.Balanced() || !s.Top().about.loop.Valued()
    case BeginIf(_, _) => s.contexts == []
    case BeginElse => !s.InIf() || s.Top().about.inElse
    case AddIfReturnVar(_) => !s.InIf()
    case EndIf => !s.InIf() || !s.Top().about.test.hasValue
    case BeginScope(_, scope) => s.contexts == [] || !scope.CanBegin()
    case EndScope(_) => !s.InScope() || !s.Top().about.scope.CanEnd()
    case Emit(stmt) => s.contexts == [] || (Waiting(s) != [] && stmt.Seq?)
    case PushComments(_) => false
    case PopComments => s.pending == []
  }

  /** The state a refused call leaves: mostly as it was. A loop whose iteration arguments
      and return variables do not match loses its context, a scope that cannot be built
      its attributes, and comments that met a bare sequence are gone. The statement is made
      before its context goes, so a refused statement leaves the context open. */
  function AfterRefusal(s: State, e: Event): State {
    match e
    case EndFor => if s.InFor() && !s.Top().about.Balanced() then s.Under() else s
    case EndWhile => if s.InWhile() && !s.Top().about.Balanced() then s.Under() else s
    case EndScope(_) => if s.InScope() then s.Amended(InScope(s.Top().about.scope.(attrs := []))) else s
    case Emit(stmt) => if s.contexts != [] then Leave(s, []) else s
    case _ => s
  }

  /** The state after an accepted call. */
  function After(s: State, e: Event): State
    requires !Refused(s, e)
  {
    match e
    case BeginFunction(addr, name, levelFits) => s.Begun(Context(addr, s.births, [], InFunction(name, levelFits, [])))
    case AddReturnType(returned) => s.Amended(s.Top().about.(returnTypes := s.Top().about.returnTypes + [returned]))
    case EndFunction(_) => s.Under()
    case BeginFor(addr, loop) => s.Begun(Context(addr, s.births, [], InLoop(loop, [], [])))
    case BeginWhile(addr, condition) => s.Begun(Context(addr, s.births, [], InLoop(WhileHead(condition), [], [])))
    case AddIterArg(name) => WithIterArg(s, name)
    case AddWhileIterArg(name) => WithIterArg(s, name)
    case AddReturnVar(name) => WithReturnVar(s, name)
    case AddWhileReturnVar(name) => WithReturnVar(s, name)
    case SetWhileCondition(condition) => s.Amended(s.Top().about.(loop := WhileHead(condition)))
    case EndFor => Close(s, LoopOf(s.Top()))
    case EndWhile => Close(s, LoopOf(s.Top()))
    case BeginIf(addr, condition) => s.Begun(Context(addr, s.births, [], InIf(condition, [], false, [])))
    case BeginElse => s.Amended(s.Top().about.(inElse := true, elseStmts := []))
    case AddIfReturnVar(name) => s.Amended(s.Top().about.(ifVars := s.Top().about.ifVars + [name]))
    case EndIf => Close(s, IfOf(s.Top()))
    case BeginScope(addr, scope) => s.Begun(Context(addr, s.births, [], InScope(scope)))
    case EndScope(extra) => Close(s, ScopeOf(s.Top(), extra))
    case Emit(stmt) => Place(s, stmt)
    case PushComments(comments) => s.(pending := s.pending + [PendingFor(s, comments)])
    case PopComments => s.(pending := s.pending[..|s.pending| - 1])
  }

  function WithIterArg(s: State, name: Name): State
    requires s.contexts != [] && s.Top().about.InLoop?
  {
    s.Amended(s.Top().about.(iterArgs := s.Top().about.iterArgs + [name]))
  }

  function WithReturnVar(s: State, name: Name): State
    requires s.contexts != [] && s.Top().about.InLoop?
  {
    s.Amended(s.Top().about.(returnVars := s.Top().about.returnVars + [name]))
  }

  /** The statements the contexts stand for. */
  function LoopOf(c: Context): Stmt
    requires c.about.InLoop?
  {
    Loop(c.about.loop, c.about.iterArgs, Body(c.stmts), c.about.returnVars, [])
  }

  function IfOf(c: Context): Stmt
    requires c.about.InIf?
  {
    If(c.about.test, Body(c.stmts), ElseBody(c.about.inElse, c.about.elseStmts), c.about.ifVars, [])
  }

  function ScopeOf(c: Context, extra: seq<Name>): Stmt
    requires c.about.InScope?
  {
    Scope(c.about.scope.(attrs := c.about.scope.attrs + extra), Body(c.stmts), [])
  }

  function PendingFor(s: State, comments: Comments): Pending {
    if s.contexts == [] then Pending(comments, None, s.births) else Pending(comments, Some(s.Top().addr), s.Top().birth)
  }

  function Apply(s: State, e: Event): State {
    if Refused(s, e) then AfterRefusal(s, e) else After(s, e)
  }

  function OutcomeOf(s: State, e: Event): Outcome {
    if Refused(s, e) then Raised
    else match e
      case PopComments => Popped(s.pending[|s.pending| - 1].comments)
      case EndFunction(_) => Built(s.Top().about.name, s.Top().about.returnTypes, Body(s.Top().stmts))
      case _ => Done
  }

  /** A client's calls, refused ones included. */
  function Run(s: State, es: seq<Event>): State
    decreases |es|
  {
    if es == [] then s else Run(Apply(s, es[0]), es[1..])
  }

  lemma {:induction false} RunAppend(s: State, a: seq<Event>, b: seq<Event>)
    ensures Run(s, a + b) == Run(Run(s, a), b)
    decreases |a|
  {
    if a == [] {
      assert a + b == b;
    } else {
      RunAppend(Apply(s, a[0]), a[1..], b);
      assert (a + b)[1..] == a[1..] + b;
    }
  }
}
