/** The IR builder of src/ir/builder.cpp: its calls change the two stacks in place. Calls
    that raise return false. Every `Begin` is told the address its context object gets. */
module Builder {
  import opened Options
  import opened BuilderState

  class IRBuilder {
    var contextStack: seq<Context>
    var pendingStack: seq<Pending>
    var births: nat              // contexts ever begun; kept for the specification

    ghost function Abs(): State
      reads this
    {
      State(contextStack, pendingStack, births)
    }

    constructor ()
      ensures Abs() == State([], [], 0)
    {
      contextStack, pendingStack, births := [], [], 0;
    }

    // -------------------------------------------------------------- statements and comments

    method AddStmt(stmt: Stmt)
      requires contextStack != []
      modifies `contextStack
      ensures Abs() == old(Abs()).WithTop(AddStmts(old(Abs()).Top(), [stmt]))
    {
      var top := contextStack[|contextStack| - 1];
      if top.about.InIf? && top.about.inElse {
        top := top.(about := top.about.(elseStmts := top.about.elseStmts + [stmt]));
      } else {
        top := top.(stmts := top.stmts + [stmt]);
      }
      contextStack := contextStack[..|contextStack| - 1] + [top];
    }

    /** `ApplyPendingLeadingComments`: the statement with the comments it is due. */
    method ApplyPendingLeadingComments(stmt: Stmt) returns (ok: bool, placed: Stmt)
      modifies `pendingStack
      ensures ok == !(Waiting(old(Abs())) != [] && stmt.Seq?)
      ensures Abs() == if Waiting(old(Abs())) != [] then Leave(old(Abs()), []) else old(Abs())
      ensures ok ==> placed == Attach(stmt, Waiting(old(Abs())))
    {
      ok, placed := true, stmt;
      if pendingStack == [] || contextStack == [] {
        return;
      }
      var top := pendingStack[|pendingStack| - 1];
      if top.comments == [] || top.target != Some(contextStack[|contextStack| - 1].addr) {
        return;
      }
      pendingStack := pendingStack[..|pendingStack| - 1] + [top.(comments := [])];
      if stmt.Seq? {
        ok := false;
      } else {
        placed := stmt.(comments := top.comments);
      }
    }

    method Emit(stmt: Stmt) returns (ok: bool)
      modifies this
      ensures Abs() == Apply(old(Abs()), Event.Emit(stmt)) && ok == !Refused(old(Abs()), Event.Emit(stmt))
    {
      if contextStack == [] {
        return false;
      }
      var placed;
      ok, placed := ApplyPendingLeadingComments(stmt);
      if ok {
        AddStmt(placed);
      }
    }

    method PushPendingLeadingComments(comments: Comments)
      modifies `pendingStack
      ensures Abs() == Apply(old(Abs()), PushComments(comments))
    {
      if contextStack == [] {
        pendingStack := pendingStack + [Pending(comments, None, births)];
      } else {
        var top := contextStack[|contextStack| - 1];
        pendingStack := pendingStack + [Pending(comments, Some(top.addr), top.birth)];
      }
    }

    /** None where the internal check for a matching push fails. */
    method PopPendingLeadingComments() returns (r: Option<Comments>)
      modifies `pendingStack
      ensures Abs() == Apply(old(Abs()), PopComments)
      ensures r == match OutcomeOf(old(Abs()), PopComments) case Popped(comments) => Some(comments) case _ => None
    {
      if pendingStack == [] {
        return None;
      }
      r := Some(pendingStack[|pendingStack| - 1].comments);
      pendingStack := pendingStack[..|pendingStack| - 1];
    }

    // -------------------------------------------------------------- opening and closing

    method Push(c: Context)
      requires c.birth == births
      modifies this
      ensures Abs() == old(Abs()).Begun(c)
    {
      contextStack := contextStack + [c];
      births := births + 1;
    }

    /** The shared end of every `End`: pop, then hand the statement to the parent. */
    method CloseWith(stmt: Stmt)
      requires contextStack != [] && !stmt.Seq?
      modifies this
      ensures Abs() == Close(old(Abs()), stmt)
    {
      contextStack := contextStack[..|contextStack| - 1];
      if contextStack != [] {
        var ok, placed := ApplyPendingLeadingComments(stmt);
        AddStmt(placed);
      }
    }

    method BuildBody(stmts: seq<Stmt>) returns (body: Stmt)
      ensures body == Body(stmts)
    {
      if |stmts| == 1 {
        body := stmts[0];
      } else {
        body := Seq(stmts);
      }
    }

    method SetAbout(about: About)
      requires contextStack != []
      modifies `contextStack
      ensures Abs() == old(Abs()).Amended(about)
    {
      contextStack := contextStack[..|contextStack| - 1] + [contextStack[|contextStack| - 1].(about := about)];
    }

    // -------------------------------------------------------------- functions

    method BeginFunction(addr: nat, name: Name, levelFits: bool) returns (ok: bool)
      modifies this
      ensures Abs() == Apply(old(Abs()), Event.BeginFunction(addr, name, levelFits))
      ensures ok == !Refused(old(Abs()), Event.BeginFunction(addr, name, levelFits))
    {
      for k := 0 to |contextStack|
        invariant forall j :: 0 <= j < k ==> !contextStack[j].about.InFunction?
      {
        if contextStack[k].about.InFunction? {
          return false;
        }
      }
      Push(Context(addr, births, [], InFunction(name, levelFits, [])));
      return true;
    }

    method ReturnType(returned: Operand) returns (ok: bool)
      modifies `contextStack
      ensures Abs() == Apply(old(Abs()), AddReturnType(returned)) && ok == !Refused(old(Abs()), AddReturnType(returned))
    {
      if contextStack == [] || !contextStack[|contextStack| - 1].about.InFunction? {
        return false;
      }
      var about := contextStack[|contextStack| - 1].about;
      SetAbout(about.(returnTypes := about.returnTypes + [returned]));
      return true;
    }

    /** The finished function; its context is not handed to a parent, and stays open when the
        function object or the check of its register scopes (`regsPass`) fails. */
    method EndFunction(regsPass: bool) returns (r: Option<(Name, seq<Operand>, Stmt)>)
      modifies this
      ensures Abs() == Apply(old(Abs()), Event.EndFunction(regsPass))
      ensures r == match OutcomeOf(old(Abs()), Event.EndFunction(regsPass))
                   case Built(name, types, body) => Some((name, types, body))
                   case _ => None
    {
      if contextStack == [] || !contextStack[|contextStack| - 1].about.InFunction? {
        return None;
      }
      var top := contextStack[|contextStack| - 1];
      var body := BuildBody(top.stmts);
      for k := 0 to |top.about.returnTypes|
        invariant forall j :: 0 <= j < k ==> top.about.returnTypes[j].hasValue
      {
        if !top.about.returnTypes[k].hasValue {
          return None;
        }
      }
      if !top.about.levelFits || !regsPass {
        return None;
      }
      contextStack := contextStack[..|contextStack| - 1];
      return Some((top.about.name, top.about.returnTypes, body));
    }

    // -------------------------------------------------------------- loops

    method BeginForLoop(addr: nat, loop: ForLoop) returns (ok: bool)
      modifies this
      ensures Abs() == Apply(old(Abs()), BeginFor(addr, loop)) && ok == !Refused(old(Abs()), BeginFor(addr, loop))
    {
      if (loop.policyRequired && !loop.sequential) || contextStack == [] {
        return false;
      }
      Push(Context(addr, births, [], InLoop(loop, [], [])));
      return true;
    }

    method BeginWhileLoop(addr: nat, condition: Operand) returns (ok: bool)
      modifies this
      ensures Abs() == Apply(old(Abs()), BeginWhile(addr, condition))
        && ok == !Refused(old(Abs()), BeginWhile(addr, condition))
    {
      if contextStack == [] {
        return false;
      }
      Push(Context(addr, births, [], InLoop(WhileHead(condition), [], [])));
      return true;
    }

    method AddIterArg(name: Name) returns (ok: bool)
      modifies `contextStack
      ensures Abs() == Apply(old(Abs()), Event.AddIterArg(name)) && ok == !Refused(old(Abs()), Event.AddIterArg(name))
    {
      if contextStack == [] {
        return false;
      }
      var about := contextStack[|contextStack| - 1].about;
      if !about.InLoop? || !about.loop.ForHead? {
        return false;
      }
      SetAbout(about.(iterArgs := about.iterArgs + [name]));
      return true;
    }

    method AddReturnVar(name: Name) returns (ok: bool)
      modifies `contextStack
      ensures Abs() == Apply(old(Abs()), Event.AddReturnVar(name))
        && ok == !Refused(old(Abs()), Event.AddReturnVar(name))
    {
      if contextStack == [] {
        return false;
      }
      var about := contextStack[|contextStack| - 1].about;
      if !about.InLoop? || !about.loop.ForHead? {
        return false;
      }
      SetAbout(about.(returnVars := about.returnVars + [name]));
      return true;
    }

    method AddWhileIterArg(name: Name) returns (ok: bool)
      modifies `contextStack
      ensures Abs() == Apply(old(Abs()), Event.AddWhileIterArg(name))
        && ok == !Refused(old(Abs()), Event.AddWhileIterArg(name))
    {
      if contextStack == [] {
        return false;
      }
      var about := contextStack[|contextStack| - 1].about;
      if !about.InLoop? || !about.loop.WhileHead? {
        return false;
      }
      SetAbout(about.(iterArgs := about.iterArgs + [name]));
      return true;
    }

    method AddWhileReturnVar(name: Name) returns (ok: bool)
      modifies `contextStack
      ensures Abs() == Apply(old(Abs()), Event.AddWhileReturnVar(name))
        && ok == !Refused(old(Abs()), Event.AddWhileReturnVar(name))
    {
      if contextStack == [] {
        return false;
      }
      var about := contextStack[|contextStack| - 1].about;
      if !about.InLoop? || !about.loop.WhileHead? {
        return false;
      }
      SetAbout(about.(returnVars := about.returnVars + [name]));
      return true;
    }

    method SetWhileLoopCondition(condition: Operand) returns (ok: bool)
      modifies `contextStack
      ensures Abs() == Apply(old(Abs()), SetWhileCondition(condition))
        && ok == !Refused(old(Abs()), SetWhileCondition(condition))
    {
      if contextStack == [] {
        return false;
      }
      var about := contextStack[|contextStack| - 1].about;
      if !about.InLoop? || !about.loop.WhileHead? {
        return false;
      }
      SetAbout(about.(loop := WhileHead(condition)));
      return true;
    }

    method EndForLoop() returns (ok: bool)
      modifies this
      ensures Abs() == Apply(old(Abs()), EndFor) && ok == !Refused(old(Abs()), EndFor)
    {
      if contextStack == [] {
        return false;
      }
      var top := contextStack[|contextStack| - 1];
      if !top.about.InLoop? || !top.about.loop.ForHead? {
        return false;
      }
      ok := EndLoop(top);
    }

    method EndWhileLoop() returns (ok: bool)
      modifies this
      ensures Abs() == Apply(old(Abs()), EndWhile) && ok == !Refused(old(Abs()), EndWhile)
    {
      if contextStack == [] {
        return false;
      }
      var top := contextStack[|contextStack| - 1];
      if !top.about.InLoop? || !top.about.loop.WhileHead? {
        return false;
      }
      ok := EndLoop(top);
    }

    /** The part both loop kinds share: the counts are compared first, and a loop statement
        that cannot be made leaves the context open. */
    method EndLoop(top: Context) returns (ok: bool)
      requires contextStack != [] && top == contextStack[|contextStack| - 1] && top.about.InLoop?
      modifies this
      ensures ok == (top.about.Balanced() && top.about.loop.Valued())
      ensures Abs() == if ok then Close(old(Abs()), LoopOf(top)) else if top.about.Balanced() then old(Abs())
        else old(Abs()).Under()
    {
      if |top.about.iterArgs| != |top.about.returnVars| {
        contextStack := contextStack[..|contextStack| - 1];
        return false;
      }
      var body := BuildBody(top.stmts);
      if !top.about.loop.Valued() {
        return false;
      }
      CloseWith(Loop(top.about.loop, top.about.iterArgs, body, top.about.returnVars, []));
      return true;
    }

    // -------------------------------------------------------------- branches

    method BeginIf(addr: nat, condition: Operand) returns (ok: bool)
      modifies this
      ensures Abs() == Apply(old(Abs()), Event.BeginIf(addr, condition))
        && ok == !Refused(old(Abs()), Event.BeginIf(addr, condition))
    {
      if contextStack == [] {
        return false;
      }
      Push(Context(addr, births, [], InIf(condition, [], false, [])));
      return true;
    }

    method BeginElse() returns (ok: bool)
      modifies `contextStack
      ensures Abs() == Apply(old(Abs()), Event.BeginElse) && ok == !Refused(old(Abs()), Event.BeginElse)
    {
      if contextStack == [] {
        return false;
      }
      var about := contextStack[|contextStack| - 1].about;
      if !about.InIf? || about.inElse {
        return false;
      }
      SetAbout(about.(inElse := true, elseStmts := []));
      return true;
    }

    method AddIfReturnVar(name: Name) returns (ok: bool)
      modifies `contextStack
      ensures Abs() == Apply(old(Abs()), Event.AddIfReturnVar(name))
        && ok == !Refused(old(Abs()), Event.AddIfReturnVar(name))
    {
      if contextStack == [] {
        return false;
      }
      var about := contextStack[|contextStack| - 1].about;
      if !about.InIf? {
        return false;
      }
      SetAbout(about.(ifVars := about.ifVars + [name]));
      return true;
    }

    method EndIf() returns (ok: bool)
      modifies this
      ensures Abs() == Apply(old(Abs()), Event.EndIf) && ok == !Refused(old(Abs()), Event.EndIf)
    {
      if contextStack == [] {
        return false;
      }
      var top := contextStack[|contextStack| - 1];
      if !top.about.InIf? {
        return false;
      }
      var thenBody := BuildBody(top.stmts);
      var elseBody: Option<Stmt> := None;
      if top.about.inElse && top.about.elseStmts != [] {
        var body := BuildBody(top.about.elseStmts);
        elseBody := Some(body);
      }
      if !top.about.test.hasValue {
        return false;
      }
      CloseWith(If(top.about.test, thenBody, elseBody, top.about.ifVars, []));
      return true;
    }

    // -------------------------------------------------------------- scopes

    method BeginScope(addr: nat, scope: ScopeHead) returns (ok: bool)
      modifies this
      ensures Abs() == Apply(old(Abs()), Event.BeginScope(addr, scope))
        && ok == !Refused(old(Abs()), Event.BeginScope(addr, scope))
    {
      if contextStack == [] || !scope.CanBegin() {
        return false;
      }
      Push(Context(addr, births, [], InScope(scope)));
      return true;
    }

    method EndScope(extraAttrs: seq<Name>) returns (ok: bool)
      modifies this
      ensures Abs() == Apply(old(Abs()), Event.EndScope(extraAttrs))
        && ok == !Refused(old(Abs()), Event.EndScope(extraAttrs))
    {
      if contextStack == [] {
        return false;
      }
      var top := contextStack[|contextStack| - 1];
      if !top.about.InScope? {
        return false;
      }
      var attrs := top.about.scope.attrs;
      SetAbout(InScope(top.about.scope.(attrs := [])));
      if !top.about.scope.CanEnd() {
        return false;
      }
      var body := BuildBody(top.stmts);
      CloseWith(Scope(top.about.scope.(attrs := attrs + extraAttrs), body, []));
      return true;
    }
  }
}
