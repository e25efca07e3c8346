/** The C++ expression a printed text forms: its tokens parse to exactly one expression,
    unless two minus signs run together. */
module ExprParsing {
  import opened Options
  import opened Text
  import opened CppText
  import opened CppGrammar
  import opened ExprPrinter
  import opened ExprReading

  /** The C++ expression that the tokens of an expression form. */
  function Ast(e: Expr): Cpp {
    match e
    case Var(name) => Name(name)
    case Int(v) => if v < 0 then Negate(Lit(Opposite(v))) else Lit(v)
    case BoolConst(b) => Lit(if b then 1 else 0)
    case Binary(op, l, r) => Infix(OpOf(op), Ast(l), Ast(r))
    case MinMax(isMax, t, l, r) => Extremum(isMax, t, Ast(l), Ast(r))
    case And(l, r) => StaticCast(Bool, Infix(Amp, StaticCast(Bool, Ast(l)), StaticCast(Bool, Ast(r))))
    case Or(l, r) => StaticCast(Bool, Infix(Bar, StaticCast(Bool, Ast(l)), StaticCast(Bool, Ast(r))))
    case Xor(l, r) => Infix(NotEq, StaticCast(Bool, Ast(l)), StaticCast(Bool, Ast(r)))
    case Not(e) => LogicalNot(Ast(e))
    case Neg(e) => Negate(Ast(e))
    case Cast(t, e) => StaticCast(t, Ast(e))
  }

  // ---------------------------------------------------------------- from tokens to expressions

  /** What follows cannot continue an expression at this level or a tighter one. */
  predicate Stops(ts: seq<Token>, level: nat) {
    ts == [] || !ts[0].P? || Level(ts[0].op) < level || Level(ts[0].op) == 6
  }

  lemma {:induction false} LevelStops(level: nat, ts: seq<Token>, e: Cpp, rest: seq<Token>)
    requires level <= 6 && ParseUnary(ts) == Some((e, rest)) && Stops(rest, level)
    ensures ParseLevel(level, ts) == Some((e, rest))
    decreases 6 - level
  {
    if level < 6 {
      LevelStops(level + 1, ts, e, rest);
    }
  }

  lemma {:induction false} LevelsDown(level: nat, from: nat, ts: seq<Token>, e: Cpp, rest: seq<Token>)
    requires level <= from <= 6 && ParseLevel(from, ts) == Some((e, rest)) && Stops(rest, 0)
    ensures ParseLevel(level, ts) == Some((e, rest))
    decreases from - level
  {
    if level < from {
      LevelsDown(level + 1, from, ts, e, rest);
    }
  }

  /** Two operands around an operator, up to a token that ends the expression. */
  lemma InfixParses(op: Op, ts: seq<Token>, l: Cpp, us: seq<Token>, r: Cpp, rest: seq<Token>)
    requires Level(op) < 6 && ParseUnary(ts) == Some((l, [P(op)] + us)) && ParseUnary(us) == Some((r, rest))
      && Stops(rest, 0)
    ensures ParseLevel(0, ts) == Some((Infix(op, l, r), rest))
  {
    var k := Level(op);
    LevelStops(k + 1, ts, l, [P(op)] + us);
    LevelStops(k + 1, us, r, rest);
    OneMore(k, op, l, us, r, rest);
    assert ParseLevel(k, ts) == Some((Infix(op, l, r), rest));
    LevelsDown(0, k, ts, Infix(op, l, r), rest);
  }

  lemma OneMore(k: nat, op: Op, l: Cpp, us: seq<Token>, r: Cpp, rest: seq<Token>)
    requires Level(op) == k < 6 && ParseLevel(k + 1, us) == Some((r, rest)) && Stops(rest, 0)
    ensures ParseMore(k, l, [P(op)] + us) == Some((Infix(op, l, r), rest))
  {
    assert ([P(op)] + us)[1..] == us;
    assert ParseMore(k, Infix(op, l, r), rest) == Some((Infix(op, l, r), rest));
  }

  // ---------------------------------------------------------------- precedence

  /** How tightly the binary operators bind in C++: multiplication, addition, comparison,
      equality, bitwise and, bitwise or. */
  lemma LevelsAre()
    ensures Level(Star) == Level(Slash) == Level(Percent) > Level(Plus) == Level(Minus)
    ensures Level(Minus) > Level(Less) == Level(Greater) == Level(LessEq) == Level(GreaterEq) > Level(EqEq)
    ensures Level(EqEq) == Level(NotEq) > Level(Amp) > Level(Bar)
  {
  }

  lemma {:induction false} LevelsTo(level: nat, from: nat, ts: seq<Token>, e: Cpp, rest: seq<Token>)
    requires level <= from <= 6 && ParseLevel(from, ts) == Some((e, rest)) && Stops(rest, level)
    ensures ParseLevel(level, ts) == Some((e, rest))
    decreases from - level
  {
    if level < from {
      LevelsTo(level + 1, from, ts, e, rest);
    }
  }

  /** After `a o` the operand `b`, then an operator that binds no tighter than `o`. */
  lemma LeftStep(o: Op, ts: seq<Token>, us: seq<Token>, a: Cpp, b: Cpp, rest: seq<Token>)
    requires Level(o) < 6 && Stops(rest, Level(o) + 1)
    requires ParseUnary(ts) == Some((a, [P(o)] + us)) && ParseUnary(us) == Some((b, rest))
    ensures ParseLevel(Level(o), ts) == ParseMore(Level(o), Infix(o, a, b), rest)
  {
    LevelStops(Level(o) + 1, ts, a, [P(o)] + us);
    LevelStops(Level(o) + 1, us, b, rest);
    assert ([P(o)] + us)[1..] == us;
  }

  lemma LeftFirst(o: Op, p: Op, ts: seq<Token>, us: seq<Token>, vs: seq<Token>, a: Cpp, b: Cpp, c: Cpp,
      rest: seq<Token>)
    requires 6 > Level(o) >= Level(p) && Stops(rest, 0)
    requires ParseUnary(ts) == Some((a, [P(o)] + us)) && ParseUnary(us) == Some((b, [P(p)] + vs))
    requires ParseUnary(vs) == Some((c, rest))
    ensures ParseLevel(Level(p), ts) == Some((Infix(p, Infix(o, a, b), c), rest))
  {
    var k, j := Level(o), Level(p);
    LeftStep(o, ts, us, a, b, [P(p)] + vs);
    LevelStops(j + 1, vs, c, rest);
    OneMore(j, p, Infix(o, a, b), vs, c, rest);
    if k > j {
      LevelsTo(j + 1, k, ts, Infix(o, a, b), [P(p)] + vs);
    }
  }

  lemma RightFirst(o: Op, p: Op, ts: seq<Token>, us: seq<Token>, vs: seq<Token>, a: Cpp, b: Cpp, c: Cpp,
      rest: seq<Token>)
    requires Level(o) < Level(p) < 6 && Stops(rest, 0)
    requires ParseUnary(ts) == Some((a, [P(o)] + us)) && ParseUnary(us) == Some((b, [P(p)] + vs))
    requires ParseUnary(vs) == Some((c, rest))
    ensures ParseLevel(Level(o), ts) == Some((Infix(o, a, Infix(p, b, c)), rest))
  {
    var k, j := Level(o), Level(p);
    LeftStep(p, us, vs, b, c, rest);
    LevelsTo(k + 1, j, us, Infix(p, b, c), rest);
    LevelStops(k + 1, ts, a, [P(o)] + us);
    OneMore(k, o, a, us, Infix(p, b, c), rest);
  }

  /** `a o b p c`: the operator that binds tighter takes `b`, the left one when both bind
      alike. Operands are whatever `ParseUnary` reads. */
  lemma Precedence(o: Op, p: Op, ts: seq<Token>, us: seq<Token>, vs: seq<Token>, a: Cpp, b: Cpp, c: Cpp,
      rest: seq<Token>)
    requires Level(o) < 6 && Level(p) < 6 && Stops(rest, 0)
    requires ParseUnary(ts) == Some((a, [P(o)] + us)) && ParseUnary(us) == Some((b, [P(p)] + vs))
    requires ParseUnary(vs) == Some((c, rest))
    ensures ParseLevel(0, ts)
         == Some((if Level(o) >= Level(p) then Infix(p, Infix(o, a, b), c) else Infix(o, a, Infix(p, b, c)), rest))
  {
    if Level(o) >= Level(p) {
      LeftFirst(o, p, ts, us, vs, a, b, c, rest);
      LevelsDown(0, Level(p), ts, Infix(p, Infix(o, a, b), c), rest);
    } else {
      RightFirst(o, p, ts, us, vs, a, b, c, rest);
      LevelsDown(0, Level(o), ts, Infix(o, a, Infix(p, b, c)), rest);
    }
  }

  lemma ParenParses(inner: seq<Token>, e: Cpp, rest: seq<Token>)
    requires ParseLevel(0, inner) == Some((e, [P(RParen)] + rest))
    ensures ParseUnary([P(LParen)] + inner) == Some((e, rest))
  {
  }

  lemma TypeParses(t: CType, rest: seq<Token>)
    ensures ParseType(AngleTokens(t) + rest) == Some((t, rest))
  {
    TypeNameIsWord(t);
    assert (AngleTokens(t) + rest)[4..] == rest;
  }

  lemma CastParses(t: CType, inner: seq<Token>, e: Cpp, rest: seq<Token>)
    requires ParseLevel(0, inner) == Some((e, [P(RParen)] + rest))
    ensures ParseUnary(CastHead(t) + inner) == Some((StaticCast(t, e), rest))
  {
    var all := CastHead(t) + inner;
    TypeParses(t, inner);
    assert all[1..] == AngleTokens(t) + inner;
    assert ([P(RParen)] + rest)[1..] == rest;
    assert ParseCast(AngleTokens(t) + inner) == Some((StaticCast(t, e), rest));
    assert all[0] == Id("static_cast");
  }

  lemma ExtremumParses(isMax: bool, t: CType, ts: seq<Token>, l: Cpp, us: seq<Token>, r: Cpp, rest: seq<Token>)
    requires ParseLevel(0, ts) == Some((l, [P(Comma)] + us)) && ParseLevel(0, us) == Some((r, [P(RParen)] + rest))
    ensures ParseUnary(ExtremumHead(isMax, t) + ts) == Some((Extremum(isMax, t, l, r), rest))
  {
    var all := ExtremumHead(isMax, t) + ts;
    TypeParses(t, ts);
    assert all[1..][2..] == AngleTokens(t) + ts;
    assert ([P(Comma)] + us)[1..] == us && ([P(RParen)] + rest)[1..] == rest;
    assert ParseArguments(isMax, t, ts) == Some((Extremum(isMax, t, l, r), rest));
    assert "min" != "max";
    assert ParseExtremum(all[1..]) == Some((Extremum(isMax, t, l, r), rest));
    assert all[0] == Id("std") && "std" != "static_cast";
  }

  lemma OpLevel(op: BinaryOp)
    ensures Level(OpOf(op)) < 6
  {
  }

  /** A closing token ends any expression. */
  lemma Closed(rest: seq<Token>)
    ensures Stops([P(RParen)] + rest, 0) && Stops([P(Comma)] + rest, 0)
  {
  }

  /** A printed expression is one operand: its tokens form its expression, whatever follows. */
  lemma {:induction false} TokensParse(e: Expr, rest: seq<Token>)
    requires NamesOk(e) && NoDoubleMinus(e)
    ensures ParseUnary(Tokens(e) + rest) == Some((Ast(e), rest))
    decreases e, 2
  {
    match e
    case Var(name) => assert (Tokens(e) + rest)[1..] == rest;
    case Int(v) => IntParses(v, rest);
    case BoolConst(b) => assert (Tokens(e) + rest)[1..] == rest;
    case Binary(_, _, _) => BinaryParses(e, rest);
    case MinMax(_, _, _, _) => MinMaxParses(e, rest);
    case And(_, _) => LogicParses(e, Amp, rest, ParseUnary(Tokens(e) + rest));
    case Or(_, _) => LogicParses(e, Bar, rest, ParseUnary(Tokens(e) + rest));
    case Xor(_, _) => XorParses(e, rest, ParseUnary(Tokens(e) + rest));
    case Not(inner) => PrefixParses(Bang, inner, rest);
    case Neg(inner) => PrefixParses(Minus, inner, rest);
    case Cast(t, inner) =>
      LevelZero(inner, [P(RParen)] + rest);
      CastParses(t, Tokens(inner) + ([P(RParen)] + rest), Ast(inner), rest);
      assert Tokens(e) + rest == CastHead(t) + (Tokens(inner) + ([P(RParen)] + rest));
  }

  lemma {:induction false} LevelZero(e: Expr, rest: seq<Token>)
    requires NamesOk(e) && NoDoubleMinus(e) && Stops(rest, 0)
    ensures ParseLevel(0, Tokens(e) + rest) == Some((Ast(e), rest))
    decreases e, 3
  {
    TokensParse(e, rest);
    LevelStops(0, Tokens(e) + rest, Ast(e), rest);
  }

  lemma IntParses(v: Constant, rest: seq<Token>)
    ensures ParseUnary(Tokens(Int(v)) + rest) == Some((Ast(Int(v)), rest))
  {
    var ts := Tokens(Int(v)) + rest;
    if v < 0 {
      assert ts[1..] == [Num(Opposite(v))] + rest;
      assert ts[1..][1..] == rest;
      assert ParsePrimary(ts[1..]) == Some((Lit(Opposite(v)), rest));
    } else {
      assert ts[1..] == rest;
    }
  }

  lemma {:induction false} BinaryParses(e: Expr, rest: seq<Token>)
    requires e.Binary? && NamesOk(e) && NoDoubleMinus(e)
    ensures ParseUnary(Tokens(e) + rest) == Some((Ast(e), rest))
    decreases e, 0
  {
    var close := [P(RParen)] + rest;
    var us := Tokens(e.r) + close;
    var ts := Tokens(e.l) + ([P(OpOf(e.op))] + us);
    TokensParse(e.l, [P(OpOf(e.op))] + us);
    TokensParse(e.r, close);
    OpLevel(e.op);
    InfixParses(OpOf(e.op), ts, Ast(e.l), us, Ast(e.r), close);
    ParenParses(ts, Infix(OpOf(e.op), Ast(e.l), Ast(e.r)), rest);
    ParenRegroup(Tokens(e.l), OpOf(e.op), Tokens(e.r), rest);
  }

  lemma ParenRegroup(a: seq<Token>, op: Op, b: seq<Token>, rest: seq<Token>)
    ensures [P(LParen)] + (InfixTokens(a, op, b) + [P(RParen)]) + rest
      == [P(LParen)] + (a + ([P(op)] + (b + ([P(RParen)] + rest))))
  {
  }

  /** An operand normalised to `bool` is one operand. */
  lemma {:induction false} CastOperandParses(e: Expr, rest: seq<Token>)
    requires NamesOk(e) && NoDoubleMinus(e)
    ensures ParseUnary(CastTokens(Bool, Tokens(e)) + rest) == Some((StaticCast(Bool, Ast(e)), rest))
    decreases e, 4
  {
    LevelZero(e, [P(RParen)] + rest);
    CastParses(Bool, Tokens(e) + ([P(RParen)] + rest), Ast(e), rest);
    CastRegroup(Bool, Tokens(e), rest);
  }

  lemma CastRegroup(t: CType, inner: seq<Token>, rest: seq<Token>)
    ensures CastTokens(t, inner) + rest == CastHead(t) + (inner + ([P(RParen)] + rest))
  {
  }

  /** Two normalised operands around an operator. */
  lemma {:induction false} OperandsParse(e: Expr, op: Op, rest: seq<Token>)
    requires (e.And? || e.Or? || e.Xor?) && NamesOk(e) && NoDoubleMinus(e) && Level(op) < 6 && Stops(rest, 0)
    ensures ParseLevel(0, InfixTokens(CastTokens(Bool, Tokens(e.l)), op, CastTokens(Bool, Tokens(e.r))) + rest)
         == Some((Infix(op, StaticCast(Bool, Ast(e.l)), StaticCast(Bool, Ast(e.r))), rest))
    decreases e, 0
  {
    var a, b := CastTokens(Bool, Tokens(e.l)), CastTokens(Bool, Tokens(e.r));
    CastOperandParses(e.l, [P(op)] + (b + rest));
    CastOperandParses(e.r, rest);
    InfixParses(op, a + ([P(op)] + (b + rest)), StaticCast(Bool, Ast(e.l)), b + rest, StaticCast(Bool, Ast(e.r)), rest);
    InfixRegroup(a, op, b, rest);
  }

  lemma InfixRegroup(a: seq<Token>, op: Op, b: seq<Token>, rest: seq<Token>)
    ensures InfixTokens(a, op, b) + rest == a + ([P(op)] + (b + rest))
  {
  }

  lemma CastInner(inner: seq<Token>, x: Cpp, rest: seq<Token>)
    requires ParseLevel(0, inner + ([P(RParen)] + rest)) == Some((x, [P(RParen)] + rest))
    ensures ParseUnary(CastTokens(Bool, inner) + rest) == Some((StaticCast(Bool, x), rest))
  {
    CastParses(Bool, inner + ([P(RParen)] + rest), x, rest);
    CastRegroup(Bool, inner, rest);
  }

  lemma ParenInner(inner: seq<Token>, x: Cpp, rest: seq<Token>)
    requires ParseLevel(0, inner + ([P(RParen)] + rest)) == Some((x, [P(RParen)] + rest))
    ensures ParseUnary([P(LParen)] + (inner + [P(RParen)]) + rest) == Some((x, rest))
  {
    ParenParses(inner + ([P(RParen)] + rest), x, rest);
    assert [P(LParen)] + (inner + [P(RParen)]) + rest == [P(LParen)] + (inner + ([P(RParen)] + rest));
  }

  lemma LogicIs(e: Expr, op: Op, inner: seq<Token>, x: Cpp)
    requires (e.And? && op == Amp) || (e.Or? && op == Bar)
    requires inner == InfixTokens(CastTokens(Bool, Tokens(e.l)), op, CastTokens(Bool, Tokens(e.r)))
    requires x == Infix(op, StaticCast(Bool, Ast(e.l)), StaticCast(Bool, Ast(e.r)))
    ensures Tokens(e) == CastTokens(Bool, inner) && Ast(e) == StaticCast(Bool, x)
  {
  }

  lemma XorIs(e: Expr, inner: seq<Token>, x: Cpp)
    requires e.Xor? && inner == InfixTokens(CastTokens(Bool, Tokens(e.l)), NotEq, CastTokens(Bool, Tokens(e.r)))
    requires x == Infix(NotEq, StaticCast(Bool, Ast(e.l)), StaticCast(Bool, Ast(e.r)))
    ensures Tokens(e) == [P(LParen)] + (inner + [P(RParen)]) && Ast(e) == x
  {
  }

  /** The two operands of a connective and what they form. */
  lemma {:induction false} InnerParses(e: Expr, op: Op, rest: seq<Token>) returns (inner: seq<Token>, x: Cpp)
    requires (e.And? || e.Or? || e.Xor?) && NamesOk(e) && NoDoubleMinus(e) && Level(op) < 6 && Stops(rest, 0)
    ensures inner == InfixTokens(CastTokens(Bool, Tokens(e.l)), op, CastTokens(Bool, Tokens(e.r)))
    ensures x == Infix(op, StaticCast(Bool, Ast(e.l)), StaticCast(Bool, Ast(e.r)))
    ensures ParseLevel(0, inner + rest) == Some((x, rest))
    decreases e, 1, 0
  {
    OperandsParse(e, op, rest);
    inner := InfixTokens(CastTokens(Bool, Tokens(e.l)), op, CastTokens(Bool, Tokens(e.r)));
    x := Infix(op, StaticCast(Bool, Ast(e.l)), StaticCast(Bool, Ast(e.r)));
  }

  lemma {:induction false} LogicParses(e: Expr, op: Op, rest: seq<Token>, out: Option<(Cpp, seq<Token>)>)
    requires ((e.And? && op == Amp) || (e.Or? && op == Bar)) && NamesOk(e) && NoDoubleMinus(e)
    requires out == ParseUnary(Tokens(e) + rest)
    ensures out == Some((Ast(e), rest))
    decreases e, 1, 1
  {
    var inner, x := InnerParses(e, op, [P(RParen)] + rest);
    LogicIs(e, op, inner, x);
    CastInner(inner, x, rest);
  }

  lemma {:induction false} XorParses(e: Expr, rest: seq<Token>, out: Option<(Cpp, seq<Token>)>)
    requires e.Xor? && NamesOk(e) && NoDoubleMinus(e)
    requires out == ParseUnary(Tokens(e) + rest)
    ensures out == Some((Ast(e), rest))
    decreases e, 1, 1
  {
    var inner, x := InnerParses(e, NotEq, [P(RParen)] + rest);
    XorIs(e, inner, x);
    ParenInner(inner, x, rest);
  }

  lemma {:induction false} PrefixParses(op: Op, e: Expr, rest: seq<Token>)
    requires (op == Bang || (op == Minus && !IsNegativeLiteral(e))) && NamesOk(e) && NoDoubleMinus(e)
    ensures ParseUnary(([P(LParen), P(op)] + (Tokens(e) + [P(RParen)])) + rest)
         == Some((if op == Bang then LogicalNot(Ast(e)) else Negate(Ast(e)), rest))
    decreases e, 4
  {
    var close := [P(RParen)] + rest;
    var out := if op == Bang then LogicalNot(Ast(e)) else Negate(Ast(e));
    TokensParse(e, close);
    UnaryParses(op, Tokens(e) + close, Ast(e), close);
    LevelStops(0, [P(op)] + (Tokens(e) + close), out, close);
    ParenParses([P(op)] + (Tokens(e) + close), out, rest);
    PrefixRegroup(op, Tokens(e), rest);
  }

  lemma UnaryParses(op: Op, ts: seq<Token>, e: Cpp, rest: seq<Token>)
    requires (op == Bang || op == Minus) && ParseUnary(ts) == Some((e, rest))
    ensures ParseUnary([P(op)] + ts) == Some((if op == Bang then LogicalNot(e) else Negate(e), rest))
  {
  }

  lemma PrefixRegroup(op: Op, inner: seq<Token>, rest: seq<Token>)
    ensures ([P(LParen), P(op)] + (inner + [P(RParen)])) + rest
      == [P(LParen)] + ([P(op)] + (inner + ([P(RParen)] + rest)))
  {
  }

  lemma {:induction false} MinMaxParses(e: Expr, rest: seq<Token>)
    requires e.MinMax? && NamesOk(e) && NoDoubleMinus(e)
    ensures ParseUnary(Tokens(e) + rest) == Some((Ast(e), rest))
    decreases e, 0
  {
    var us := Tokens(e.r) + ([P(RParen)] + rest);
    var ts := Tokens(e.l) + ([P(Comma)] + us);
    LevelZero(e.l, [P(Comma)] + us);
    LevelZero(e.r, [P(RParen)] + rest);
    ExtremumParses(e.isMax, e.t, ts, Ast(e.l), us, Ast(e.r), rest);
    ExtremumRegroup(ExtremumHead(e.isMax, e.t), Tokens(e.l), Tokens(e.r), rest);
  }

  lemma ExtremumRegroup(head: seq<Token>, a: seq<Token>, b: seq<Token>, rest: seq<Token>)
    ensures head + (a + ([P(Comma)] + (b + [P(RParen)]))) + rest
      == head + (a + ([P(Comma)] + (b + ([P(RParen)] + rest))))
  {
  }

  // ---------------------------------------------------------------- what cannot be read

  lemma {:induction false} DecrementsAppend(a: seq<Token>, b: seq<Token>)
    ensures Decrements(a + b) == Decrements(a) + Decrements(b)
  {
    if a == [] {
      assert a + b == b;
    } else {
      DecrementsAppend(a[1..], b);
      assert (a + b)[1..] == a[1..] + b;
    }
  }

  lemma WrappedDecrements(a: seq<Token>, inner: seq<Token>, b: seq<Token>)
    requires forall k :: 0 <= k < |a| ==> a[k] != P(Decrement)
    requires forall k :: 0 <= k < |b| ==> b[k] != P(Decrement)
    ensures Decrements(a + (inner + b)) == Decrements(inner)
  {
    DecrementsAppend(a, inner + b);
    DecrementsAppend(inner, b);
    NoDecrements(a);
    NoDecrements(b);
  }

  lemma {:induction false} NoDecrements(ts: seq<Token>)
    requires forall k :: 0 <= k < |ts| ==> ts[k] != P(Decrement)
    ensures Decrements(ts) == 0
  {
    if ts != [] { NoDecrements(ts[1..]); }
  }

  lemma {:induction false} HasDecrement(ts: seq<Token>, k: nat)
    requires k < |ts| && ts[k] == P(Decrement)
    ensures Decrements(ts) > 0
  {
    if k > 0 { HasDecrement(ts[1..], k - 1); }
  }

  lemma CastDecrements(t: CType, inner: seq<Token>)
    ensures Decrements(CastTokens(t, inner)) == Decrements(inner)
  {
    WrappedDecrements(CastHead(t), inner, [P(RParen)]);
  }

  lemma InfixDecrements(a: seq<Token>, op: Op, b: seq<Token>)
    requires op != Decrement
    ensures Decrements(InfixTokens(a, op, b)) == Decrements(a) + Decrements(b)
  {
    DecrementsAppend(a, [P(op)] + b);
    DecrementsAppend([P(op)], b);
  }

  lemma BinaryDecrements(a: seq<Token>, op: Op, b: seq<Token>)
    requires op != Decrement
    ensures Decrements([P(LParen)] + (InfixTokens(a, op, b) + [P(RParen)])) == Decrements(a) + Decrements(b)
  {
    WrappedDecrements([P(LParen)], InfixTokens(a, op, b), [P(RParen)]);
    InfixDecrements(a, op, b);
  }

  lemma PrefixDecrements(op: Op, inner: seq<Token>)
    requires op != Decrement
    ensures Decrements([P(LParen), P(op)] + (inner + [P(RParen)])) == Decrements(inner)
  {
    WrappedDecrements([P(LParen), P(op)], inner, [P(RParen)]);
  }

  /** A decrement token appears exactly when a negation sits on a negative literal. */
  lemma {:induction false} DoubleMinusShows(e: Expr)
    ensures Decrements(Tokens(e)) == 0 <==> NoDoubleMinus(e)
    decreases e, 1
  {
    match e
    case Var(_) => LeafShows(e);
    case Int(_) => LeafShows(e);
    case BoolConst(_) => LeafShows(e);
    case Binary(_, l, r) => DoubleMinusShows(l); DoubleMinusShows(r); BinaryShows(e);
    case MinMax(_, _, l, r) => DoubleMinusShows(l); DoubleMinusShows(r); MinMaxShows(e);
    case And(_, _) => LogicShows(e, Amp);
    case Or(_, _) => LogicShows(e, Bar);
    case Xor(_, _) => LogicShows(e, NotEq);
    case Not(inner) => DoubleMinusShows(inner); NotShows(inner);
    case Neg(inner) => DoubleMinusShows(inner); NegShows(inner);
    case Cast(t, inner) => DoubleMinusShows(inner); CastShows(t, inner);
  }

  lemma LeafShows(e: Expr)
    requires e.Var? || e.Int? || e.BoolConst?
    ensures Decrements(Tokens(e)) == 0 && NoDoubleMinus(e)
  {
    NoDecrements(Tokens(e));
  }

  lemma BinaryShows(e: Expr)
    requires e.Binary? && (Decrements(Tokens(e.l)) == 0 <==> NoDoubleMinus(e.l))
    requires Decrements(Tokens(e.r)) == 0 <==> NoDoubleMinus(e.r)
    ensures Decrements(Tokens(e)) == 0 <==> NoDoubleMinus(e)
  {
    BinaryDecrements(Tokens(e.l), OpOf(e.op), Tokens(e.r));
  }

  lemma MinMaxShows(e: Expr)
    requires e.MinMax? && (Decrements(Tokens(e.l)) == 0 <==> NoDoubleMinus(e.l))
    requires Decrements(Tokens(e.r)) == 0 <==> NoDoubleMinus(e.r)
    ensures Decrements(Tokens(e)) == 0 <==> NoDoubleMinus(e)
  {
    MinMaxDecrements(ExtremumHead(e.isMax, e.t), Tokens(e.l), Tokens(e.r));
  }

  lemma NotShows(e: Expr)
    requires Decrements(Tokens(e)) == 0 <==> NoDoubleMinus(e)
    ensures Decrements(Tokens(Not(e))) == 0 <==> NoDoubleMinus(e)
  {
    PrefixDecrements(Bang, Tokens(e));
  }

  lemma CastShows(t: CType, e: Expr)
    requires Decrements(Tokens(e)) == 0 <==> NoDoubleMinus(e)
    ensures Decrements(Tokens(Cast(t, e))) == 0 <==> NoDoubleMinus(e)
  {
    CastDecrements(t, Tokens(e));
  }

  lemma NegShows(e: Expr)
    requires Decrements(Tokens(e)) == 0 <==> NoDoubleMinus(e)
    ensures Decrements(Tokens(Neg(e))) == 0 <==> !IsNegativeLiteral(e) && NoDoubleMinus(e)
  {
    if IsNegativeLiteral(e) {
      HasDecrement(Tokens(Neg(e)), 1);
    } else {
      PrefixDecrements(Minus, Tokens(e));
    }
  }

  lemma MinMaxDecrements(head: seq<Token>, a: seq<Token>, b: seq<Token>)
    requires forall k :: 0 <= k < |head| ==> head[k] != P(Decrement)
    ensures Decrements(head + (a + ([P(Comma)] + (b + [P(RParen)])))) == Decrements(a) + Decrements(b)
  {
    InfixDecrements(a, Comma, b);
    assert a + ([P(Comma)] + (b + [P(RParen)])) == InfixTokens(a, Comma, b) + [P(RParen)];
    WrappedDecrements(head, InfixTokens(a, Comma, b), [P(RParen)]);
  }

  lemma {:induction false} LogicShows(e: Expr, op: Op)
    requires (e.And? || e.Or? || e.Xor?) && op != Decrement
    ensures var inner := InfixTokens(CastTokens(Bool, Tokens(e.l)), op, CastTokens(Bool, Tokens(e.r)));
            && (Decrements(CastTokens(Bool, inner)) == 0 <==> NoDoubleMinus(e.l) && NoDoubleMinus(e.r))
            && (Decrements([P(LParen)] + (inner + [P(RParen)])) == 0 <==> NoDoubleMinus(e.l) && NoDoubleMinus(e.r))
    decreases e, 0
  {
    var inner := InfixTokens(CastTokens(Bool, Tokens(e.l)), op, CastTokens(Bool, Tokens(e.r)));
    DoubleMinusShows(e.l);
    DoubleMinusShows(e.r);
    CastDecrements(Bool, Tokens(e.l));
    CastDecrements(Bool, Tokens(e.r));
    InfixDecrements(CastTokens(Bool, Tokens(e.l)), op, CastTokens(Bool, Tokens(e.r)));
    CastDecrements(Bool, inner);
    WrappedDecrements([P(LParen)], inner, [P(RParen)]);
  }

  /** Reading the printed text back as C++ succeeds exactly when every literal fits and no
      negation sits on a negative literal, and then gives exactly this expression. */
  lemma ReadBack(e: Expr)
    requires NamesOk(e)
    ensures ReadCpp(Print(e)) == if LiteralsFit(e) && NoDoubleMinus(e) then Some(Ast(e)) else None
  {
    LexPrint(e, "");
    assert Print(e) + "" == Print(e) && Tokens(e) + [] == Tokens(e);
    DoubleMinusShows(e);
    if NoDoubleMinus(e) {
      LevelZero(e, []);
    }
  }
}
