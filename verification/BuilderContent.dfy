/** What the calls of the IR builder (src/ir/builder.cpp) leave in the statements: which
    statements a finished one holds, in which order and form, and which comments are found
    on them. */
module BuilderContent {
  import opened Options
  import opened BuilderState
  import opened BuilderComments

  // ---------------------------------------------------------------- form

  /** `body` stands for `stmts`: one statement is its own body, none or several form a
      sequence. */
  predicate Forms(body: Stmt, stmts: seq<Stmt>) {
    if |stmts| == 1 then body == stmts[0] else body == Seq(stmts)
  }

  /** The comments that the top entry holds for context `c`. */
  function Due(pending: seq<Pending>, c: Context): Comments {
    if pending != [] && pending[|pending| - 1].target == Some(c.addr) then pending[|pending| - 1].comments else []
  }

  /** `q` is `p` with `x` behind the statements of the branch being built. */
  predicate Gains(p: Context, q: Context, x: Stmt) {
    if p.about.InIf? && p.about.inElse then q == p.(about := p.about.(elseStmts := p.about.elseStmts + [x]))
    else q == p.(stmts := p.stmts + [x])
  }

  /** `x` is the statement that context `c` becomes at its end. */
  predicate StandsFor(c: Context, e: Event, x: Stmt) {
    match c.about
    case InFunction(_, _, _) => false
    case InLoop(loop, iterArgs, returnVars) =>
      x.Loop? && x.head == loop && x.iterArgs == iterArgs && x.returnVars == returnVars && Forms(x.body, c.stmts)
    case InIf(test, ifVars, inElse, elseStmts) =>
      && x.If? && x.test == test && x.ifVars == ifVars && Forms(x.thenBody, c.stmts)
      && if inElse && elseStmts != [] then x.elseBody.Some? && Forms(x.elseBody.value, elseStmts)
         else x.elseBody == None
    case InScope(scope) =>
      e.EndScope? && x.Scope? && x.scope == scope.(attrs := scope.attrs + e.extraAttrs) && Forms(x.scopeBody, c.stmts)
  }

  predicate IsStatementEnd(e: Event) {
    e.EndFor? || e.EndWhile? || e.EndIf? || e.EndScope?
  }

  /** The contexts after `x` joined the top one of `cs`, and the entries after it took what
      was due there. */
  ghost predicate Joined(cs: seq<Context>, pending: seq<Pending>, t: State, x: Stmt)
    requires cs != []
  {
    var n := |cs| - 1;
    && |t.contexts| == |cs| && t.contexts[..n] == cs[..n] && Gains(cs[n], t.contexts[n], x)
    && |t.pending| == |pending|
    && (Due(pending, cs[n]) == [] ==> t.pending == pending)
    && (Due(pending, cs[n]) != [] ==>
          t.pending == pending[..|pending| - 1] + [pending[|pending| - 1].(comments := [])])
  }

  lemma EndCloses(s: State, e: Event) returns (made: Stmt)
    requires IsStatementEnd(e) && !Refused(s, e)
    ensures StandsFor(s.Top(), e, made) && !made.Seq? && made.comments == [] && Apply(s, e) == Close(s, made)
  {
    var c := s.Top();
    made := if c.about.InLoop? then LoopOf(c) else if c.about.InIf? then IfOf(c) else ScopeOf(c, e.extraAttrs);
  }

  lemma CloseJoins(s: State, made: Stmt, under: seq<Context>, x: Stmt)
    requires s.contexts != [] && under == s.contexts[..|s.contexts| - 1] != [] && !made.Seq? && made.comments == []
    requires x == Attach(made, Due(s.pending, under[|under| - 1]))
    ensures x.comments == Due(s.pending, under[|under| - 1]) && Joined(under, s.pending, Close(s, made), x)
  {
  }

  lemma AttachStands(c: Context, e: Event, made: Stmt, due: Comments)
    requires StandsFor(c, e, made) && !made.Seq?
    ensures StandsFor(c, e, Attach(made, due)) && !Attach(made, due).Seq?
  {
  }

  /** An accepted end: the context becomes the statement that stands for it, with the
      comments due to the enclosing context, and joins the branch being built there. */
  lemma EndBuilds(s: State, e: Event) returns (x: Stmt)
    requires IsStatementEnd(e) && !Refused(s, e) && |s.contexts| > 1
    ensures StandsFor(s.Top(), e, x) && !x.Seq?
    ensures x.comments == Due(s.pending, s.contexts[|s.contexts| - 2])
    ensures Joined(s.contexts[..|s.contexts| - 1], s.pending, Apply(s, e), x)
  {
    var made := EndCloses(s, e);
    var under := s.contexts[..|s.contexts| - 1];
    var due := Due(s.pending, under[|under| - 1]);
    x := Attach(made, due);
    AttachStands(s.Top(), e, made, due);
    CloseJoins(s, made, under, x);
  }

  /** An accepted emit: the statement joins, with the comments that were due if any were. */
  lemma EmitJoins(s: State, stmt: Stmt) returns (x: Stmt)
    requires !Refused(s, Emit(stmt))
    ensures s.contexts != [] && (Due(s.pending, s.Top()) != [] ==> !stmt.Seq?)
    ensures x == if Due(s.pending, s.Top()) == [] then stmt else stmt.(comments := Due(s.pending, s.Top()))
    ensures Joined(s.contexts, s.pending, Apply(s, Emit(stmt)), x)
  {
    x := Attach(stmt, Waiting(s));
  }

  // ---------------------------------------------------------------- the statements, in order

  /** The plain statements inside a statement, in order. */
  function Texts(x: Stmt): seq<string>
    decreases x, 0
  {
    match x
    case Plain(text, _) => [text]
    case Seq(stmts) => AllTexts(stmts)
    case Loop(_, _, body, _, _) => Texts(body)
    case If(_, thenBody, elseBody, _, _) => Texts(thenBody) + if elseBody.Some? then Texts(elseBody.value) else []
    case Scope(_, body, _) => Texts(body)
  }

  function AllTexts(stmts: seq<Stmt>): seq<string>
    decreases stmts, 1
  {
    if stmts == [] then [] else AllTexts(stmts[..|stmts| - 1]) + Texts(stmts[|stmts| - 1])
  }

  lemma AllTextsSnoc(stmts: seq<Stmt>, x: Stmt)
    ensures AllTexts(stmts + [x]) == AllTexts(stmts) + Texts(x)
  {
    assert (stmts + [x])[..|stmts|] == stmts;
  }

  lemma FormTexts(body: Stmt, stmts: seq<Stmt>)
    requires Forms(body, stmts)
    ensures Texts(body) == AllTexts(stmts)
  {
    if |stmts| == 1 {
      AllTextsSnoc([], stmts[0]);
      assert stmts == [] + [stmts[0]];
      assert AllTexts([]) == [];
    }
  }

  /** What context `c` holds. */
  function ContextTexts(c: Context): seq<string> {
    AllTexts(c.stmts) + if c.about.InIf? then AllTexts(c.about.elseStmts) else []
  }

  /** What the open contexts hold, outermost first. */
  function Logs(contexts: seq<Context>): (logs: seq<seq<string>>)
    ensures |logs| == |contexts| && forall k :: 0 <= k < |contexts| ==> logs[k] == ContextTexts(contexts[k])
  {
    seq(|contexts|, k requires 0 <= k < |contexts| => ContextTexts(contexts[k]))
  }

  /** Else branches hold nothing before they begin. */
  ghost predicate ElseOk(c: Context) {
    c.about.InIf? && !c.about.inElse ==> c.about.elseStmts == []
  }

  ghost predicate ElsesOk(contexts: seq<Context>) {
    forall k :: 0 <= k < |contexts| ==> ElseOk(contexts[k])
  }

  /** The end of a loop whose counts differ. */
  predicate GivesUp(s: State, e: Event) {
    && s.contexts != [] && s.Top().about.InLoop?
    && (if s.Top().about.loop.ForHead? then e.EndFor? else e.EndWhile?)
    && |s.Top().about.iterArgs| != |s.Top().about.returnVars|
  }

  predicate Begins(e: Event) {
    e.BeginFunction? || e.BeginFor? || e.BeginWhile? || e.BeginIf? || e.BeginScope?
  }

  /** A stack of texts, one for each open context, that a call treats as a stack machine does:
      a begin pushes an empty text, an emit writes to the top, an end appends the top to what
      lies under it, the end of a function takes the top off, and giving up a loop throws it
      away. */
  function LogStep(logs: seq<seq<string>>, e: Event, refused: bool, givesUp: bool): seq<seq<string>> {
    var n := |logs|;
    if refused then (if givesUp && n > 0 then logs[..n - 1] else logs)
    else if Begins(e) then logs + [[]]
    else if e.Emit? && n > 0 then logs[..n - 1] + [logs[n - 1] + Texts(e.stmt)]
    else if IsStatementEnd(e) && n > 1 then logs[..n - 2] + [logs[n - 2] + logs[n - 1]]
    else if (IsStatementEnd(e) || e.EndFunction?) && n > 0 then logs[..n - 1]
    else logs
  }

  /** The stack after a run. */
  function RunLog(logs: seq<seq<string>>, s: State, es: seq<Event>): seq<seq<string>>
    decreases |es|
  {
    if es == [] then logs
    else RunLog(LogStep(logs, es[0], Refused(s, es[0]), GivesUp(s, es[0])), Apply(s, es[0]), es[1..])
  }

  lemma GainsText(p: Context, q: Context, x: Stmt)
    requires Gains(p, q, x) && ElseOk(p)
    ensures ContextTexts(q) == ContextTexts(p) + Texts(x) && ElseOk(q)
  {
    if p.about.InIf? && p.about.inElse {
      AllTextsSnoc(p.about.elseStmts, x);
    } else {
      AllTextsSnoc(p.stmts, x);
      if p.about.InIf? { assert AllTexts([]) == []; }
    }
  }

  lemma StandsForText(c: Context, e: Event, x: Stmt)
    requires StandsFor(c, e, x) && ElseOk(c)
    ensures Texts(x) == ContextTexts(c)
  {
    match c.about
    case InLoop(_, _, _) => FormTexts(x.body, c.stmts);
    case InScope(_) => FormTexts(x.scopeBody, c.stmts);
    case InIf(_, _, inElse, elseStmts) =>
      FormTexts(x.thenBody, c.stmts);
      if inElse && elseStmts != [] { FormTexts(x.elseBody.value, elseStmts); } else { assert AllTexts([]) == []; }
  }

  lemma JoinedText(cs: seq<Context>, pending: seq<Pending>, t: State, x: Stmt)
    requires cs != [] && Joined(cs, pending, t, x) && ElsesOk(cs)
    ensures ElsesOk(t.contexts)
    ensures Logs(t.contexts) == Logs(cs)[..|cs| - 1] + [Logs(cs)[|cs| - 1] + Texts(x)]
  {
    var n := |cs| - 1;
    GainsText(cs[n], t.contexts[n], x);
    forall k | 0 <= k < n
      ensures t.contexts[k] == cs[k]
    {
      assert t.contexts[..n][k] == cs[..n][k];
    }
  }

  lemma EmitText(s: State, e: Event)
    requires e.Emit? && !Refused(s, e) && ElsesOk(s.contexts)
    ensures ElsesOk(Apply(s, e).contexts)
    ensures Logs(Apply(s, e).contexts) == LogStep(Logs(s.contexts), e, false, false)
  {
    var x := EmitJoins(s, e.stmt);
    JoinedText(s.contexts, s.pending, Apply(s, e), x);
    assert Texts(x) == Texts(e.stmt);
  }

  lemma EndJoins(all: seq<Context>, cs: seq<Context>, c: Context, pending: seq<Pending>, t: State, e: Event, x: Stmt)
    requires all == cs + [c] && cs != [] && Joined(cs, pending, t, x) && StandsFor(c, e, x) && ElsesOk(cs) && ElseOk(c)
    ensures ElsesOk(t.contexts)
    ensures var logs := Logs(all);
            Logs(t.contexts) == logs[..|cs| - 1] + [logs[|cs| - 1] + logs[|cs|]]
  {
    StandsForText(c, e, x);
    JoinedText(cs, pending, t, x);
    var logs := Logs(all);
    assert logs == Logs(cs) + [ContextTexts(c)];
    assert logs[..|cs| - 1] == Logs(cs)[..|cs| - 1];
  }

  lemma LogStepEnd(logs: seq<seq<string>>, e: Event, n: nat)
    requires IsStatementEnd(e) && n == |logs| > 0
    ensures LogStep(logs, e, false, false)
         == if n > 1 then logs[..n - 2] + [logs[n - 2] + logs[n - 1]] else logs[..n - 1]
  {
  }

  lemma InnerEndText(s: State, e: Event, n: nat)
    requires IsStatementEnd(e) && !Refused(s, e) && ElsesOk(s.contexts) && n == |s.contexts| > 1
    ensures ElsesOk(Apply(s, e).contexts)
    ensures var logs := Logs(s.contexts);
            Logs(Apply(s, e).contexts) == logs[..n - 2] + [logs[n - 2] + logs[n - 1]]
  {
    var x := EndBuilds(s, e);
    EndJoins(s.contexts, s.contexts[..n - 1], s.Top(), s.pending, Apply(s, e), e, x);
  }

  lemma OuterEnd(s: State, e: Event)
    requires IsStatementEnd(e) && !Refused(s, e) && |s.contexts| <= 1
    ensures |s.contexts| == 1 && Apply(s, e).contexts == []
  {
  }

  lemma EndText(s: State, e: Event)
    requires IsStatementEnd(e) && !Refused(s, e) && ElsesOk(s.contexts)
    ensures ElsesOk(Apply(s, e).contexts)
    ensures Logs(Apply(s, e).contexts) == LogStep(Logs(s.contexts), e, false, false)
  {
    if |s.contexts| > 1 {
      InnerEndText(s, e, |s.contexts|);
    } else {
      OuterEnd(s, e);
    }
    LogStepEnd(Logs(s.contexts), e, |s.contexts|);
  }

  lemma BeginText(s: State, e: Event)
    requires Begins(e) && !Refused(s, e) && ElsesOk(s.contexts)
    ensures ElsesOk(Apply(s, e).contexts)
    ensures Logs(Apply(s, e).contexts) == LogStep(Logs(s.contexts), e, false, false)
  {
    var t := Apply(s, e);
    var n := |s.contexts|;
    assert |t.contexts| == n + 1 && t.contexts[..n] == s.contexts;
    assert AllTexts([]) == [];
    assert ContextTexts(t.contexts[n]) == [];
    assert Logs(t.contexts)[..n] == Logs(s.contexts);
  }

  /** Contexts that hold the same statements. */
  ghost predicate SameStatements(cs: seq<Context>, ds: seq<Context>) {
    |cs| == |ds| && forall k :: 0 <= k < |cs| ==> SameAt(cs[k], ds[k])
  }

  ghost predicate SameAt(c: Context, d: Context) {
    && c.stmts == d.stmts && c.about.InIf? == d.about.InIf?
    && (c.about.InIf? ==> c.about.elseStmts == d.about.elseStmts && (d.about.inElse ==> c.about.inElse))
  }

  /** A call that begins and ends nothing, emits nothing and gives up nothing touches no
      statement. */
  lemma OthersSame(s: State, e: Event)
    requires ElsesOk(s.contexts) && !GivesUp(s, e)
    requires Refused(s, e) || (!Begins(e) && !e.Emit? && !IsStatementEnd(e) && !e.EndFunction?)
    ensures SameStatements(Apply(s, e).contexts, s.contexts)
  {
    var n := |s.contexts|;
    if e.BeginElse? && !Refused(s, e) {
      assert ElseOk(s.contexts[n - 1]);
    }
  }

  lemma SameTexts(cs: seq<Context>, ds: seq<Context>)
    requires SameStatements(cs, ds) && ElsesOk(ds)
    ensures Logs(cs) == Logs(ds) && ElsesOk(cs)
  {
    forall k | 0 <= k < |cs|
      ensures ContextTexts(cs[k]) == ContextTexts(ds[k]) && ElseOk(cs[k])
    {
      assert SameAt(cs[k], ds[k]);
    }
  }

  /** A call that takes the top context off. */
  lemma TakeText(s: State, t: State)
    requires s.contexts != [] && t.contexts == s.contexts[..|s.contexts| - 1] && ElsesOk(s.contexts)
    ensures ElsesOk(t.contexts) && Logs(t.contexts) == Logs(s.contexts)[..|s.contexts| - 1]
  {
  }

  lemma RefusedText(s: State, e: Event)
    requires Refused(s, e) && ElsesOk(s.contexts)
    ensures ElsesOk(Apply(s, e).contexts)
    ensures Logs(Apply(s, e).contexts) == LogStep(Logs(s.contexts), e, true, GivesUp(s, e))
  {
    if GivesUp(s, e) {
      TakeText(s, Apply(s, e));
    } else {
      OthersSame(s, e);
      SameTexts(Apply(s, e).contexts, s.contexts);
    }
  }

  /** Every other call touches no statement, but for the end of a function. */
  lemma OtherText(s: State, e: Event)
    requires !Refused(s, e) && !Begins(e) && !e.Emit? && !IsStatementEnd(e) && ElsesOk(s.contexts)
    ensures ElsesOk(Apply(s, e).contexts)
    ensures Logs(Apply(s, e).contexts) == LogStep(Logs(s.contexts), e, false, false)
  {
    if e.EndFunction? {
      TakeText(s, Apply(s, e));
    } else {
      OthersSame(s, e);
      SameTexts(Apply(s, e).contexts, s.contexts);
    }
  }

  lemma StepText(s: State, e: Event)
    requires ElsesOk(s.contexts)
    ensures ElsesOk(Apply(s, e).contexts)
    ensures Logs(Apply(s, e).contexts) == LogStep(Logs(s.contexts), e, Refused(s, e), GivesUp(s, e))
  {
    if Refused(s, e) {
      RefusedText(s, e);
    } else if Begins(e) {
      BeginText(s, e);
    } else if e.Emit? {
      EmitText(s, e);
    } else if IsStatementEnd(e) {
      EndText(s, e);
    } else {
      OtherText(s, e);
    }
  }

  /** Over any calls, what the open contexts hold is what the stack machine says. */
  lemma {:induction false} LogsFollow(s: State, es: seq<Event>)
    requires ElsesOk(s.contexts)
    ensures ElsesOk(Run(s, es).contexts)
    ensures Logs(Run(s, es).contexts) == RunLog(Logs(s.contexts), s, es)
    decreases |es|
  {
    if es != [] {
      StepText(s, es[0]);
      LogsFollow(Apply(s, es[0]), es[1..]);
    }
  }

  lemma BuiltHolds(t: State, logs: seq<seq<string>>, regsPass: bool)
    requires OutcomeOf(t, EndFunction(regsPass)).Built? && logs == Logs(t.contexts)
    ensures logs != [] && Texts(OutcomeOf(t, EndFunction(regsPass)).body) == logs[|logs| - 1]
  {
    var stmts := t.Top().stmts;
    FormTexts(Body(stmts), stmts);
    assert logs[|logs| - 1] == ContextTexts(t.Top()) == AllTexts(stmts);
  }

  /** A function handed out after any calls on an empty builder holds, in order, exactly the
      statements emitted since it was begun, without those of loops that were given up. */
  lemma FunctionHolds(s: State, es: seq<Event>, regsPass: bool)
    requires s.contexts == [] && OutcomeOf(Run(s, es), EndFunction(regsPass)).Built?
    ensures var logs := RunLog([], s, es);
            logs != [] && Texts(OutcomeOf(Run(s, es), EndFunction(regsPass)).body) == logs[|logs| - 1]
  {
    LogsFollow(s, es);
    assert Logs(s.contexts) == [];
    BuiltHolds(Run(s, es), RunLog([], s, es), regsPass);
  }

  // ---------------------------------------------------------------- nothing lost, in order

  function Flat(logs: seq<seq<string>>): seq<string> {
    if logs == [] then [] else Flat(logs[..|logs| - 1]) + logs[|logs| - 1]
  }

  /** The statements that the calls emit, in order. */
  function Emitted(es: seq<Event>): seq<string> {
    if es == [] then [] else (if es[0].Emit? then Texts(es[0].stmt) else []) + Emitted(es[1..])
  }

  /** No call is refused and none ends a function. */
  ghost predicate Smooth(s: State, es: seq<Event>)
    decreases |es|
  {
    es == [] || (!Refused(s, es[0]) && !es[0].EndFunction? && Smooth(Apply(s, es[0]), es[1..]))
  }

  lemma FlatSnoc(logs: seq<seq<string>>, log: seq<string>)
    ensures Flat(logs + [log]) == Flat(logs) + log
  {
    assert (logs + [log])[..|logs|] == logs;
  }

  lemma FlatEmit(logs: seq<seq<string>>, a: seq<string>, b: seq<string>)
    ensures Flat(logs + [a + b]) == Flat(logs + [a]) + b
    ensures Flat(logs + [a + b]) == Flat(logs + [a] + [b])
  {
    FlatSnoc(logs, a + b);
    FlatSnoc(logs, a);
    FlatSnoc(logs + [a], b);
    assert Flat(logs) + (a + b) == Flat(logs) + a + b;
  }

  lemma FlatStep(logs: seq<seq<string>>, e: Event, t: seq<seq<string>>)
    requires !e.EndFunction? && logs != [] && (IsStatementEnd(e) ==> |logs| > 1) && t == LogStep(logs, e, false, false)
    ensures e.Emit? ==> Flat(t) == Flat(logs) + Texts(e.stmt)
    ensures !e.Emit? ==> Flat(t) == Flat(logs)
  {
    var n := |logs|;
    if Begins(e) {
      assert t == logs + [[]];
      FlatSnoc(logs, []);
    } else if e.Emit? {
      assert t == logs[..n - 1] + [logs[n - 1] + Texts(e.stmt)] && logs == logs[..n - 1] + [logs[n - 1]];
      FlatEmit(logs[..n - 1], logs[n - 1], Texts(e.stmt));
    } else if IsStatementEnd(e) {
      assert t == logs[..n - 2] + [logs[n - 2] + logs[n - 1]];
      assert logs == logs[..n - 2] + [logs[n - 2]] + [logs[n - 1]];
      FlatEmit(logs[..n - 2], logs[n - 2], logs[n - 1]);
    } else {
      assert t == logs;
    }
  }

  lemma FlatApply(s: State, e: Event)
    requires s.contexts != [] && s.contexts[0].about.InFunction? && ElsesOk(s.contexts)
    requires !Refused(s, e) && !e.EndFunction?
    ensures e.Emit? ==> Flat(Logs(Apply(s, e).contexts)) == Flat(Logs(s.contexts)) + Texts(e.stmt)
    ensures !e.Emit? ==> Flat(Logs(Apply(s, e).contexts)) == Flat(Logs(s.contexts))
  {
    StepText(s, e);
    FunctionStays(s, e);
    FlatStep(Logs(s.contexts), e, Logs(Apply(s, e).contexts));
  }

  lemma FunctionStays(s: State, e: Event)
    requires s.contexts != [] && s.contexts[0].about.InFunction? && !Refused(s, e) && !e.EndFunction?
    ensures IsStatementEnd(e) ==> |s.contexts| > 1
    ensures Apply(s, e).contexts != [] && Apply(s, e).contexts[0].about.InFunction?
  {
    if IsStatementEnd(e) {
      var x := EndBuilds(s, e);
      var n := |s.contexts| - 1;
      if n > 1 {
        assert Apply(s, e).contexts[..n - 1][0] == s.contexts[..n][..n - 1][0];
      }
    }
  }

  lemma EmittedFirst(es: seq<Event>, before: seq<string>, between: seq<string>, after: seq<string>)
    requires es != [] && after == between + Emitted(es[1..])
    requires between == if es[0].Emit? then before + Texts(es[0].stmt) else before
    ensures after == before + Emitted(es)
  {
  }

  /** While a function is open and no call is refused, the open contexts hold exactly the
      statements emitted, in the order in which they were. */
  lemma {:induction false} NothingLostInOrder(s: State, es: seq<Event>)
    requires s.contexts != [] && s.contexts[0].about.InFunction? && ElsesOk(s.contexts) && Smooth(s, es)
    ensures Flat(Logs(Run(s, es).contexts)) == Flat(Logs(s.contexts)) + Emitted(es)
    decreases |es|
  {
    if es == [] {
      assert Flat(Logs(s.contexts)) + [] == Flat(Logs(s.contexts));
    } else {
      var t := Apply(s, es[0]);
      StepText(s, es[0]);
      FunctionStays(s, es[0]);
      FlatApply(s, es[0]);
      NothingLostInOrder(t, es[1..]);
      EmittedFirst(es, Flat(Logs(s.contexts)), Flat(Logs(t.contexts)), Flat(Logs(Run(t, es[1..]).contexts)));
    }
  }

  // ---------------------------------------------------------------- the comments on statements

  /** The comment lists found on a statement and inside it. */
  function Found(x: Stmt): multiset<Comments>
    decreases x, 0
  {
    match x
    case Plain(_, comments) => Bag(comments)
    case Seq(stmts) => AllFound(stmts)
    case Loop(_, _, body, _, comments) => Bag(comments) + Found(body)
    case If(_, thenBody, elseBody, _, comments) =>
      Bag(comments) + Found(thenBody) + if elseBody.Some? then Found(elseBody.value) else multiset{}
    case Scope(_, body, comments) => Bag(comments) + Found(body)
  }

  function AllFound(stmts: seq<Stmt>): multiset<Comments>
    decreases stmts, 1
  {
    if stmts == [] then multiset{} else AllFound(stmts[..|stmts| - 1]) + Found(stmts[|stmts| - 1])
  }

  function ContextFound(c: Context): multiset<Comments> {
    AllFound(c.stmts) + if c.about.InIf? then AllFound(c.about.elseStmts) else multiset{}
  }

  /** The comment lists on the statements of the open contexts. */
  function OpenFound(contexts: seq<Context>): multiset<Comments> {
    if contexts == [] then multiset{}
    else OpenFound(contexts[..|contexts| - 1]) + ContextFound(contexts[|contexts| - 1])
  }

  /** The comment lists in the function that a call hands out. */
  function HandedOut(s: State, e: Event): multiset<Comments> {
    match OutcomeOf(s, e)
    case Built(_, _, body) => Found(body)
    case _ => multiset{}
  }

  /** Those in a loop that is given up, or in a statement with no context to join. */
  function Discarded(s: State, e: Event): multiset<Comments> {
    if GivesUp(s, e) || (IsStatementEnd(e) && !Refused(s, e) && |s.contexts| == 1) then ContextFound(s.Top())
    else multiset{}
  }

  /** Those that an emitted statement brings along. */
  function Brought(s: State, e: Event): multiset<Comments> {
    if e.Emit? && !Refused(s, e) then Found(e.stmt) else multiset{}
  }

  /** Those that give way to the list attached to the emitted statement. */
  function Replaced(s: State, e: Event): multiset<Comments> {
    if e.Emit? && !Refused(s, e) && Due(s.pending, s.Top()) != [] && !e.stmt.Seq? then Bag(e.stmt.comments)
    else multiset{}
  }

  lemma AllFoundSnoc(stmts: seq<Stmt>, x: Stmt)
    ensures AllFound(stmts + [x]) == AllFound(stmts) + Found(x)
  {
    assert (stmts + [x])[..|stmts|] == stmts;
  }

  lemma OpenSnoc(contexts: seq<Context>, c: Context)
    ensures OpenFound(contexts + [c]) == OpenFound(contexts) + ContextFound(c)
  {
    assert (contexts + [c])[..|contexts|] == contexts;
  }

  lemma FormFound(body: Stmt, stmts: seq<Stmt>)
    requires Forms(body, stmts)
    ensures Found(body) == AllFound(stmts)
  {
    if |stmts| == 1 {
      AllFoundSnoc([], stmts[0]);
      assert stmts == [] + [stmts[0]];
      assert AllFound([]) == multiset{};
    }
  }

  lemma GainsFound(p: Context, q: Context, x: Stmt)
    requires Gains(p, q, x)
    ensures ContextFound(q) == ContextFound(p) + Found(x)
  {
    if p.about.InIf? && p.about.inElse {
      AllFoundSnoc(p.about.elseStmts, x);
    } else {
      AllFoundSnoc(p.stmts, x);
    }
  }

  lemma StandsForFound(c: Context, e: Event, x: Stmt)
    requires StandsFor(c, e, x) && ElseOk(c)
    ensures !x.Seq? && Found(x) == Bag(x.comments) + ContextFound(c)
  {
    match c.about
    case InLoop(_, _, _) => FormFound(x.body, c.stmts);
    case InScope(_) => FormFound(x.scopeBody, c.stmts);
    case InIf(_, _, inElse, elseStmts) =>
      FormFound(x.thenBody, c.stmts);
      if inElse && elseStmts != [] {
        FormFound(x.elseBody.value, elseStmts);
      } else {
        assert AllFound([]) == multiset{};
      }
  }

  lemma OpenTop(cs: seq<Context>)
    requires cs != []
    ensures OpenFound(cs) == OpenFound(cs[..|cs| - 1]) + ContextFound(cs[|cs| - 1])
  {
  }

  lemma SumsAgree(a: multiset<Comments>, b: multiset<Comments>, c: multiset<Comments>)
    ensures a + (b + c) == (a + b) + c
  {
  }

  lemma JoinedFound(cs: seq<Context>, pending: seq<Pending>, t: State, x: Stmt)
    requires cs != [] && Joined(cs, pending, t, x)
    ensures OpenFound(t.contexts) == OpenFound(cs) + Found(x)
  {
    var n := |cs| - 1;
    GainsFound(cs[n], t.contexts[n], x);
    OpenTop(cs);
    OpenTop(t.contexts);
    SumsAgree(OpenFound(cs[..n]), ContextFound(cs[n]), Found(x));
  }

  /** What the ledger of the pending entries books as attached is what was due where the
      statement is placed. */
  lemma AttachedIsDue(s: State, e: Event)
    requires !Refused(s, e)
    ensures e.Emit? ==> Attached(s, e) == Due(s.pending, s.Top())
    ensures IsStatementEnd(e) && |s.contexts| > 1 ==> Attached(s, e) == Due(s.pending, s.contexts[|s.contexts| - 2])
    ensures (!e.Emit? && !IsStatementEnd(e)) || (IsStatementEnd(e) && |s.contexts| == 1) ==> Attached(s, e) == []
  {
  }

  /** What a call does to the lists on statements, in a form for adding up. */
  ghost predicate Adds(before: multiset<Comments>, after: multiset<Comments>, gone: multiset<Comments>,
      come: multiset<Comments>)
  {
    after + gone == before + come
  }

  lemma ReplacesFound(x: Stmt, due: Comments)
    requires !x.Seq?
    ensures Found(x.(comments := due)) + Bag(x.comments) == Found(x) + Bag(due)
  {
  }

  lemma EmitAdds(before: multiset<Comments>, after: multiset<Comments>, x: multiset<Comments>, lost: multiset<Comments>,
      due: multiset<Comments>, brought: multiset<Comments>)
    requires after == before + x && x + lost == brought + due
    ensures Adds(before, after, lost, due + brought)
  {
    SumsAgree(before, x, lost);
    SumsAgree(before, due, brought);
  }

  lemma EmitFound(s: State, e: Event)
    requires e.Emit? && !Refused(s, e)
    ensures Adds(OpenFound(s.contexts), OpenFound(Apply(s, e).contexts), Replaced(s, e),
                 Bag(Attached(s, e)) + Brought(s, e))
  {
    var x := EmitJoins(s, e.stmt);
    AttachedIsDue(s, e);
    JoinedFound(s.contexts, s.pending, Apply(s, e), x);
    EmitTrades(s, e, x);
    EmitAdds(OpenFound(s.contexts), OpenFound(Apply(s, e).contexts), Found(x), Replaced(s, e), Bag(Attached(s, e)),
             Brought(s, e));
  }

  lemma EmitTrades(s: State, e: Event, x: Stmt)
    requires e.Emit? && !Refused(s, e) && s.contexts != [] && (Due(s.pending, s.Top()) != [] ==> !e.stmt.Seq?)
    requires x == if Due(s.pending, s.Top()) == [] then e.stmt else e.stmt.(comments := Due(s.pending, s.Top()))
    requires Attached(s, e) == Due(s.pending, s.Top())
    ensures Found(x) + Replaced(s, e) == Brought(s, e) + Bag(Attached(s, e))
  {
    var due := Due(s.pending, s.Top());
    assert Brought(s, e) == Found(e.stmt);
    if due != [] {
      ReplacesFound(e.stmt, due);
      assert Replaced(s, e) == Bag(e.stmt.comments);
    } else {
      assert Replaced(s, e) == multiset{} == Bag(due);
    }
  }

  lemma EndAdds(under: multiset<Comments>, held: multiset<Comments>, due: multiset<Comments>)
    ensures Adds(under + held, under + (due + held), multiset{}, due)
    ensures Adds(under + held, under, held, multiset{})
  {
  }

  lemma EndFound(s: State, e: Event)
    requires IsStatementEnd(e) && !Refused(s, e) && ElsesOk(s.contexts)
    ensures Adds(OpenFound(s.contexts), OpenFound(Apply(s, e).contexts), Discarded(s, e), Bag(Attached(s, e)))
  {
    var n := |s.contexts|;
    var under := OpenFound(s.contexts[..n - 1]);
    AttachedIsDue(s, e);
    OpenTop(s.contexts);
    EndAdds(under, ContextFound(s.Top()), Bag(Attached(s, e)));
    if n > 1 {
      InnerEndFound(s, e, under);
    } else {
      OuterEnd(s, e);
      assert s.contexts[..n - 1] == [];
      assert Bag([]) == multiset{};
    }
  }

  lemma InnerEndFound(s: State, e: Event, under: multiset<Comments>)
    requires IsStatementEnd(e) && !Refused(s, e) && ElsesOk(s.contexts) && |s.contexts| > 1
    requires under == OpenFound(s.contexts[..|s.contexts| - 1])
    ensures OpenFound(Apply(s, e).contexts)
         == under + (Bag(Due(s.pending, s.contexts[|s.contexts| - 2])) + ContextFound(s.Top()))
    ensures Discarded(s, e) == multiset{}
  {
    var x := EndBuilds(s, e);
    StandsForFound(s.Top(), e, x);
    JoinedFound(s.contexts[..|s.contexts| - 1], s.pending, Apply(s, e), x);
  }

  lemma {:induction false} SameFound(cs: seq<Context>, ds: seq<Context>)
    requires SameStatements(cs, ds)
    ensures OpenFound(cs) == OpenFound(ds)
    decreases |cs|
  {
    if cs != [] {
      assert SameAt(cs[|cs| - 1], ds[|ds| - 1]);
      SameFound(cs[..|cs| - 1], ds[..|ds| - 1]);
    }
  }

  lemma BeginFound(s: State, e: Event)
    requires Begins(e) && !Refused(s, e)
    ensures OpenFound(Apply(s, e).contexts) == OpenFound(s.contexts)
  {
    var t := Apply(s, e);
    assert t.contexts == s.contexts + [t.Top()];
    OpenSnoc(s.contexts, t.Top());
    assert AllFound([]) == multiset{};
  }

  /** A call that takes the top context off and hands out or discards what it holds. */
  lemma TakeFound(s: State, t: State)
    requires s.contexts != [] && t.contexts == s.contexts[..|s.contexts| - 1]
    ensures OpenFound(t.contexts) + ContextFound(s.Top()) == OpenFound(s.contexts)
  {
  }

  lemma EndFunctionFound(s: State, e: Event)
    requires e.EndFunction? && !Refused(s, e)
    ensures OpenFound(Apply(s, e).contexts) + HandedOut(s, e) == OpenFound(s.contexts)
  {
    TakeFound(s, Apply(s, e));
    FormFound(Body(s.Top().stmts), s.Top().stmts);
  }

  lemma OtherFound(s: State, e: Event)
    requires !GivesUp(s, e) && ElsesOk(s.contexts)
    requires Refused(s, e) || (!Begins(e) && !e.Emit? && !IsStatementEnd(e) && !e.EndFunction?)
    ensures OpenFound(Apply(s, e).contexts) == OpenFound(s.contexts)
  {
    OthersSame(s, e);
    SameFound(Apply(s, e).contexts, s.contexts);
  }

  lemma RefusedAttaches(s: State, e: Event)
    requires Refused(s, e)
    ensures Attached(s, e) == []
  {
  }

  /** Which accounts a call leaves alone. */
  lemma Untouched(s: State, e: Event)
    ensures e.Emit? && !Refused(s, e) ==> HandedOut(s, e) == Discarded(s, e) == multiset{}
    ensures !(e.Emit? && !Refused(s, e)) ==> Replaced(s, e) == Brought(s, e) == multiset{}
    ensures !(e.EndFunction? && !Refused(s, e)) ==> HandedOut(s, e) == multiset{}
    ensures !GivesUp(s, e) && !(IsStatementEnd(e) && !Refused(s, e)) ==> Discarded(s, e) == multiset{}
    ensures GivesUp(s, e) ==> Refused(s, e) && Discarded(s, e) == ContextFound(s.Top())
  {
  }

  lemma RefusedFound(s: State, e: Event)
    requires ElsesOk(s.contexts) && Refused(s, e)
    ensures Adds(OpenFound(s.contexts), OpenFound(Apply(s, e).contexts), Discarded(s, e), Bag(Attached(s, e)))
  {
    Untouched(s, e);
    RefusedAttaches(s, e);
    if GivesUp(s, e) { TakeFound(s, Apply(s, e)); } else { OtherFound(s, e); }
  }

  lemma EndedFound(s: State, e: Event)
    requires ElsesOk(s.contexts) && !Refused(s, e) && IsStatementEnd(e)
    ensures Adds(OpenFound(s.contexts), OpenFound(Apply(s, e).contexts), HandedOut(s, e) + Discarded(s, e),
                 Bag(Attached(s, e)))
  {
    Untouched(s, e);
    EndFound(s, e);
    assert multiset{} + Discarded(s, e) == Discarded(s, e);
  }

  lemma TouchedFound(s: State, e: Event)
    requires ElsesOk(s.contexts) && !Refused(s, e) && !IsStatementEnd(e) && !e.Emit?
    ensures Adds(OpenFound(s.contexts), OpenFound(Apply(s, e).contexts), HandedOut(s, e) + Discarded(s, e),
                 Bag(Attached(s, e)))
  {
    Untouched(s, e);
    AttachedIsDue(s, e);
    if Begins(e) {
      BeginFound(s, e);
    } else if e.EndFunction? {
      EndFunctionFound(s, e);
    } else {
      OtherFound(s, e);
    }
  }

  lemma QuietFound(s: State, e: Event)
    requires ElsesOk(s.contexts) && !(e.Emit? && !Refused(s, e))
    ensures Adds(OpenFound(s.contexts), OpenFound(Apply(s, e).contexts), HandedOut(s, e) + Discarded(s, e),
                 Bag(Attached(s, e)))
  {
    if Refused(s, e) {
      Untouched(s, e);
      RefusedFound(s, e);
      assert multiset{} + Discarded(s, e) == Discarded(s, e);
    } else if IsStatementEnd(e) {
      EndedFound(s, e);
    } else {
      TouchedFound(s, e);
    }
  }

  /** One call: the lists found on statements are those found before, with the one attached
      and those brought along, without those handed out, discarded or replaced. */
  lemma StepFound(s: State, e: Event)
    requires ElsesOk(s.contexts)
    ensures Adds(OpenFound(s.contexts), OpenFound(Apply(s, e).contexts),
                 HandedOut(s, e) + Discarded(s, e) + Replaced(s, e), Bag(Attached(s, e)) + Brought(s, e))
  {
    var before, after := OpenFound(s.contexts), OpenFound(Apply(s, e).contexts);
    Untouched(s, e);
    if e.Emit? && !Refused(s, e) {
      EmitFound(s, e);
      OneSide(before, after, multiset{}, Replaced(s, e), Bag(Attached(s, e)), Brought(s, e));
    } else {
      QuietFound(s, e);
      OneSide(before, after, HandedOut(s, e) + Discarded(s, e), multiset{}, Bag(Attached(s, e)), multiset{});
    }
  }

  lemma OneSide(before: multiset<Comments>, after: multiset<Comments>, gone: multiset<Comments>,
      replaced: multiset<Comments>, attached: multiset<Comments>, brought: multiset<Comments>)
    requires (gone == multiset{} && Adds(before, after, replaced, attached + brought))
          || (replaced == brought == multiset{} && Adds(before, after, gone, attached))
    ensures Adds(before, after, gone + replaced, attached + brought)
  {
    assert multiset{} + replaced == replaced && gone + multiset{} == gone && attached + multiset{} == attached;
  }

  datatype Ends = Ends(handedOut: multiset<Comments>, discarded: multiset<Comments>, replaced: multiset<Comments>,
                       brought: multiset<Comments>)

  /** What a whole run does with the comments on statements. */
  function RunEnds(s: State, es: seq<Event>): Ends
    decreases |es|
  {
    if es == [] then Ends(multiset{}, multiset{}, multiset{}, multiset{})
    else
      var rest := RunEnds(Apply(s, es[0]), es[1..]);
      Ends(HandedOut(s, es[0]) + rest.handedOut, Discarded(s, es[0]) + rest.discarded,
           Replaced(s, es[0]) + rest.replaced, Brought(s, es[0]) + rest.brought)
  }

  lemma AddUp(o0: multiset<Comments>, o1: multiset<Comments>, o2: multiset<Comments>, a: Ends, b: Ends,
      x: multiset<Comments>, y: multiset<Comments>)
    requires Adds(o0, o1, a.handedOut + a.discarded + a.replaced, x + a.brought)
    requires o2 + b.handedOut + b.discarded + b.replaced == o1 + y + b.brought
    ensures o2 + (a.handedOut + b.handedOut) + (a.discarded + b.discarded) + (a.replaced + b.replaced)
         == o0 + (x + y) + (a.brought + b.brought)
  {
    var gone := b.handedOut + b.discarded + b.replaced;
    assert o2 + (a.handedOut + b.handedOut) + (a.discarded + b.discarded) + (a.replaced + b.replaced)
        == (o2 + gone) + (a.handedOut + a.discarded + a.replaced);
    assert o2 + gone == o2 + b.handedOut + b.discarded + b.replaced;
    assert (o1 + y + b.brought) + (a.handedOut + a.discarded + a.replaced)
        == (o1 + (a.handedOut + a.discarded + a.replaced)) + y + b.brought;
  }

  function EndsOf(s: State, e: Event): Ends {
    Ends(HandedOut(s, e), Discarded(s, e), Replaced(s, e), Brought(s, e))
  }

  /** Over any run the lists booked as attached are found on statements: of open contexts, of
      functions handed out, or of what was discarded. */
  lemma {:induction false} RunFound(s: State, es: seq<Event>)
    requires ElsesOk(s.contexts)
    ensures var l := RunEnds(s, es);
            OpenFound(Run(s, es).contexts) + l.handedOut + l.discarded + l.replaced
            == OpenFound(s.contexts) + Ledger(s, es).attached + l.brought
    decreases |es|
  {
    if es != [] {
      var t := Apply(s, es[0]);
      StepText(s, es[0]);
      StepFound(s, es[0]);
      RunFound(t, es[1..]);
      AddUp(OpenFound(s.contexts), OpenFound(t.contexts), OpenFound(Run(t, es[1..]).contexts), EndsOf(s, es[0]),
            RunEnds(t, es[1..]), Bag(Attached(s, es[0])), Ledger(t, es[1..]).attached);
    }
  }

  lemma Settle(held: multiset<Comments>, held': multiset<Comments>, open: multiset<Comments>, open': multiset<Comments>,
      l: Account, m: Ends)
    requires held' + l.attached + l.returned + l.dropped == held + l.added
    requires open' + m.handedOut + m.discarded + m.replaced == open + l.attached + m.brought
    ensures held' + open' + m.handedOut + m.discarded + m.replaced + l.returned + l.dropped
         == held + open + l.added + m.brought
  {
    var gone := m.handedOut + m.discarded + m.replaced;
    assert open' + m.handedOut + m.discarded + m.replaced == open' + gone;
    var left, right := held' + open' + gone + l.returned + l.dropped, held + open + l.added + m.brought;
    assert left + l.attached == (held' + l.attached + l.returned + l.dropped) + (open' + gone);
    assert right + l.attached == (held + l.added) + (open + l.attached + m.brought);
    forall c
      ensures left[c] == right[c]
    {
      assert (left + l.attached)[c] == (right + l.attached)[c];
    }
    assert left == right;
    assert left == held' + open' + m.handedOut + m.discarded + m.replaced + l.returned + l.dropped;
  }

  /** Over any run every list held, pushed, or on a statement is afterwards held, on a
      statement of an open context, on one of a function handed out, discarded with a loop
      given up, replaced by an attached one, returned, or dropped; each exactly once. */
  lemma CommentsConserved(s: State, es: seq<Event>)
    requires ElsesOk(s.contexts)
    ensures var l, m, t := Ledger(s, es), RunEnds(s, es), Run(s, es);
            Held(t.pending) + OpenFound(t.contexts) + m.handedOut + m.discarded + m.replaced + l.returned + l.dropped
            == Held(s.pending) + OpenFound(s.contexts) + l.added + m.brought
  {
    RunConserves(s, es);
    RunFound(s, es);
    var t := Run(s, es);
    Settle(Held(s.pending), Held(t.pending), OpenFound(s.contexts), OpenFound(t.contexts), Ledger(s, es),
           RunEnds(s, es));
  }
}
