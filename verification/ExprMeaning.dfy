/** What a printed expression evaluates to in C++, and when that is the IR value. */
module ExprMeaning {
  import opened Options
  import opened Arithmetic
  import opened CppText
  import opened CppGrammar
  import opened ExprPrinter
  import opened ExprParsing

  // ---------------------------------------------------------------- values

  /** Floor division, as the IR defines it. */
  function Floor(a: int, b: int): int
    requires b != 0
  {
    if b > 0 then a / b else (-a) / (-b)
  }

  function ValueOfOp(op: BinaryOp, a: int, b: int): Option<int> {
    match op
    case Add => Some(a + b)
    case Sub => Some(a - b)
    case Mul => Some(a * b)
    case FloorDiv => if b == 0 then None else Some(Floor(a, b))
    case FloorMod => if b == 0 then None else Some(a - b * Floor(a, b))
    case Eq => Some(Truth(a == b))
    case Ne => Some(Truth(a != b))
    case Lt => Some(Truth(a < b))
    case Le => Some(Truth(a <= b))
    case Gt => Some(Truth(a > b))
    case Ge => Some(Truth(a >= b))
  }

  /** The IR value; None where a division has no value. Both operands are always evaluated. */
  function Value(e: Expr, env: string -> int): Option<int> {
    match e
    case Var(name) => Some(env(name))
    case Int(v) => Some(v)
    case BoolConst(b) => Some(Truth(b))
    case Binary(op, l, r) =>
      (match (Value(l, env), Value(r, env))
       case (Some(a), Some(b)) => ValueOfOp(op, a, b)
       case _ => None)
    case MinMax(isMax, _, l, r) =>
      (match (Value(l, env), Value(r, env))
       case (Some(a), Some(b)) => Some(if (a < b) == isMax then b else a)
       case _ => None)
    case And(l, r) =>
      (match (Value(l, env), Value(r, env))
       case (Some(a), Some(b)) => Some(Truth(a != 0 && b != 0))
       case _ => None)
    case Or(l, r) =>
      (match (Value(l, env), Value(r, env))
       case (Some(a), Some(b)) => Some(Truth(a != 0 || b != 0))
       case _ => None)
    case Xor(l, r) =>
      (match (Value(l, env), Value(r, env))
       case (Some(a), Some(b)) => Some(Truth((a != 0) != (b != 0)))
       case _ => None)
    case Not(e) =>
      (match Value(e, env)
       case Some(v) => Some(Truth(v == 0))
       case None => None)
    case Neg(e) =>
      (match Value(e, env)
       case Some(v) => Some(-v)
       case None => None)
    case Cast(t, e) =>
      (match Value(e, env)
       case Some(v) => Some(Convert(t, v))
       case None => None)
  }

  function Abs(a: int): nat {
    if a < 0 then -a else a
  }

  /** Truncating and flooring agree: the signs agree, or the division is exact. */
  predicate DivisionAgrees(a: int, b: int)
    requires b != 0
  {
    (a < 0) == (b < 0) || Abs(a) % Abs(b) == 0
  }

  /** What the two quotients are: the flooring one leaves a remainder with the sign of the
      divisor, the truncating one a remainder with the sign of the dividend. */
  lemma QuotientsAre(a: int, b: int)
    requires b != 0
    ensures var r := a - b * Floor(a, b);
            if b > 0 then 0 <= r < b else b < r <= 0
    ensures var r := a - b * TruncDiv(a, b);
            Abs(r) < Abs(b) && (a >= 0 ==> r >= 0) && (a <= 0 ==> r <= 0)
  {
    FloorLeaves(a, b, if b > 0 then b else -b);
    var d := Abs(b);
    var q := Abs(a) / d;
    DivBounds(Abs(a), d);
    assert q * d == d * q;
    TruncForm(a, b, q);
  }

  lemma FloorLeaves(a: int, b: int, d: int)
    requires b != 0 && d == Abs(b)
    ensures a - b * Floor(a, b) == if b > 0 then a % d else -((-a) % d)
  {
    var n := if b > 0 then a else -a;
    assert n == d * (n / d) + n % d;
  }

  lemma TruncForm(a: int, b: int, q: int)
    requires b != 0 && q == Abs(a) / Abs(b)
    ensures b * TruncDiv(a, b) == if a < 0 then -(Abs(b) * q) else Abs(b) * q
  {
  }

  /** Every division agrees and every operand of a minimum or maximum fits its type. */
  predicate Faithful(e: Expr, env: string -> int) {
    match e
    case Var(_) => true
    case Int(_) => true
    case BoolConst(_) => true
    case Binary(op, l, r) =>
      && Faithful(l, env) && Faithful(r, env)
      && var a, b := Value(l, env), Value(r, env);
        (op == FloorDiv || op == FloorMod) && a.Some? && b.Some? && b.value != 0 ==> DivisionAgrees(a.value, b.value)
    case MinMax(_, t, l, r) =>
      && Faithful(l, env) && Faithful(r, env)
      && (Value(l, env).Some? ==> Fits(t, Value(l, env).value))
      && (Value(r, env).Some? ==> Fits(t, Value(r, env).value))
    case And(l, r) => Faithful(l, env) && Faithful(r, env)
    case Or(l, r) => Faithful(l, env) && Faithful(r, env)
    case Xor(l, r) => Faithful(l, env) && Faithful(r, env)
    case Not(e) => Faithful(e, env)
    case Neg(e) => Faithful(e, env)
    case Cast(_, e) => Faithful(e, env)
  }

  /** Truncating and flooring division, and their remainders, agree exactly then. Operands
      that are not negative, with a positive divisor, are one such case. */
  lemma DivisionExactly(a: int, b: int)
    requires b != 0
    ensures TruncDiv(a, b) == Floor(a, b) <==> DivisionAgrees(a, b)
    ensures a - b * TruncDiv(a, b) == a - b * Floor(a, b) <==> DivisionAgrees(a, b)
  {
    NegatedDivision(Abs(a), Abs(b));
    DivisionCases(a, b);
    Scaled(TruncDiv(a, b) - Floor(a, b), b);
    assert b * (TruncDiv(a, b) - Floor(a, b)) == b * TruncDiv(a, b) - b * Floor(a, b);
  }

  /** Both divisions by way of the absolute values. */
  lemma DivisionCases(a: int, b: int)
    requires b != 0
    ensures TruncDiv(a, b) == if (a < 0) == (b < 0) then Abs(a) / Abs(b) else -(Abs(a) / Abs(b))
    ensures Floor(a, b) == if (a < 0) == (b < 0) || a == 0 then Abs(a) / Abs(b) else (0 - Abs(a)) / Abs(b)
  {
  }

  lemma Scaled(d: int, b: int)
    requires b != 0
    ensures b * d == 0 <==> d == 0
  {
  }

  lemma NegatedDivision(n: nat, m: nat)
    requires m > 0
    ensures (0 - n) / m == if n % m == 0 then -(n / m) else -(n / m) - 1
  {
    var q, r := n / m, n % m;
    assert n == q * m + r;
    if r == 0 {
      assert 0 - n == -q * m;
      DivUnique(0 - n, m, -q, 0);
    } else {
      assert 0 - n == (-q - 1) * m + (m - r);
      DivUnique(0 - n, m, -q - 1, m - r);
    }
  }

  /** For a single operator: C++ computes what the IR means exactly when, for a division,
      truncating and flooring agree. */
  lemma OperatorExactly(op: BinaryOp, a: int, b: int)
    ensures Operate(OpOf(op), a, b) == ValueOfOp(op, a, b)
       <==> ((op == FloorDiv || op == FloorMod) && b != 0 ==> DivisionAgrees(a, b))
  {
    if b != 0 { DivisionExactly(a, b); }
  }

  /** Normalising to `bool` first makes the bit operators logical. */
  lemma LogicOnBits(a: int, b: int)
    ensures Operate(Amp, Convert(Bool, a), Convert(Bool, b)) == Some(Truth(a != 0 && b != 0))
    ensures Operate(Bar, Convert(Bool, a), Convert(Bool, b)) == Some(Truth(a != 0 || b != 0))
    ensures Operate(NotEq, Convert(Bool, a), Convert(Bool, b)) == Some(Truth((a != 0) != (b != 0)))
    ensures Convert(Bool, 0) == 0 && Convert(Bool, 1) == 1
  {
  }

  /** Two operands, normalised to `bool`, around an operator. */
  lemma EvaluateOperands(op: Op, x: Cpp, y: Cpp, env: string -> int, a: Option<int>, b: Option<int>)
    requires Evaluate(x, env) == a && Evaluate(y, env) == b
    ensures Evaluate(Infix(op, StaticCast(Bool, x), StaticCast(Bool, y)), env)
         == if a.Some? && b.Some? then Operate(op, Convert(Bool, a.value), Convert(Bool, b.value)) else None
  {
  }

  lemma EvaluateCast(x: Cpp, env: string -> int, a: Option<int>)
    requires Evaluate(x, env) == a
    ensures Evaluate(StaticCast(Bool, x), env) == if a.Some? then Some(Convert(Bool, a.value)) else None
  {
  }

  /** The value of a logical operator on two operand values. */
  function LogicValue(e: Expr, a: Option<int>, b: Option<int>): Option<int>
    requires e.And? || e.Or? || e.Xor?
  {
    if a == None || b == None then None
    else if e.And? then Some(Truth(a.value != 0 && b.value != 0))
    else if e.Or? then Some(Truth(a.value != 0 || b.value != 0))
    else Some(Truth((a.value != 0) != (b.value != 0)))
  }

  lemma ValueOfLogic(e: Expr, env: string -> int)
    requires e.And? || e.Or? || e.Xor?
    ensures Value(e, env) == LogicValue(e, Value(e.l, env), Value(e.r, env))
  {
  }

  lemma EvaluateLogic(e: Expr, x: Cpp, y: Cpp, env: string -> int, a: Option<int>, b: Option<int>)
    requires e.And? || e.Or? || e.Xor?
    requires Evaluate(x, env) == a && Evaluate(y, env) == b
    ensures var op := if e.And? then Amp else if e.Or? then Bar else NotEq;
            var inner := Infix(op, StaticCast(Bool, x), StaticCast(Bool, y));
            && Evaluate(inner, env) == LogicValue(e, a, b)
            && Evaluate(StaticCast(Bool, inner), env) == LogicValue(e, a, b)
  {
    var op := if e.And? then Amp else if e.Or? then Bar else NotEq;
    var inner := Infix(op, StaticCast(Bool, x), StaticCast(Bool, y));
    EvaluateOperands(op, x, y, env, a, b);
    if a.Some? && b.Some? {
      LogicOnBits(a.value, b.value);
    }
    EvaluateCast(inner, env, LogicValue(e, a, b));
  }

  lemma SameLogic(e: Expr, env: string -> int)
    requires e.And? || e.Or? || e.Xor?
    requires Evaluate(Ast(e.l), env) == Value(e.l, env) && Evaluate(Ast(e.r), env) == Value(e.r, env)
    ensures Evaluate(Ast(e), env) == Value(e, env)
  {
    ValueOfLogic(e, env);
    EvaluateLogic(e, Ast(e.l), Ast(e.r), env, Value(e.l, env), Value(e.r, env));
  }

  lemma SameBinary(e: Expr, env: string -> int)
    requires e.Binary? && Faithful(e, env)
    requires Evaluate(Ast(e.l), env) == Value(e.l, env) && Evaluate(Ast(e.r), env) == Value(e.r, env)
    ensures Evaluate(Ast(e), env) == Value(e, env)
  {
    if Value(e.l, env).Some? && Value(e.r, env).Some? {
      OperatorExactly(e.op, Value(e.l, env).value, Value(e.r, env).value);
    }
  }

  lemma SameMinMax(e: Expr, env: string -> int)
    requires e.MinMax? && Faithful(e, env)
    requires Evaluate(Ast(e.l), env) == Value(e.l, env) && Evaluate(Ast(e.r), env) == Value(e.r, env)
    ensures Evaluate(Ast(e), env) == Value(e, env)
  {
  }

  /** The C++ expression means what the IR expression means. */
  lemma {:induction false} SameValue(e: Expr, env: string -> int)
    requires Faithful(e, env)
    ensures Evaluate(Ast(e), env) == Value(e, env)
  {
    match e
    case Var(_) =>
    case Int(_) =>
    case BoolConst(_) =>
    case Not(e) => SameValue(e, env);
    case Neg(e) => SameValue(e, env);
    case Cast(_, e) => SameValue(e, env);
    case Binary(_, l, r) => SameValue(l, env); SameValue(r, env); SameBinary(e, env);
    case MinMax(_, _, l, r) => SameValue(l, env); SameValue(r, env); SameMinMax(e, env);
    case And(l, r) => SameValue(l, env); SameValue(r, env); SameLogic(e, env);
    case Or(l, r) => SameValue(l, env); SameValue(r, env); SameLogic(e, env);
    case Xor(l, r) => SameValue(l, env); SameValue(r, env); SameLogic(e, env);
  }

  /** Printed expressions keep their meaning: the text, read as C++, evaluates to the IR
      value in every environment in which the divisions and extrema are faithful. */
  lemma PrintKeepsMeaning(e: Expr, env: string -> int)
    requires NamesOk(e) && LiteralsFit(e) && NoDoubleMinus(e) && Faithful(e, env)
    ensures ReadCpp(Print(e)).Some? && Evaluate(ReadCpp(Print(e)).value, env) == Value(e, env)
  {
    ReadBack(e);
    SameValue(e, env);
  }

  lemma BinaryText(e: Expr, env: string -> int, a: int, b: int)
    requires e.Binary? && Evaluate(Ast(e.l), env) == Some(a) == Value(e.l, env)
    requires Evaluate(Ast(e.r), env) == Some(b) == Value(e.r, env)
    ensures Evaluate(Ast(e), env) == Operate(OpOf(e.op), a, b) && Value(e, env) == ValueOfOp(e.op, a, b)
  {
  }

  /** The text of one operator on faithful operands evaluates to the IR value exactly when,
      for a division, truncating and flooring agree on the operands' values. */
  lemma TextExactly(e: Expr, env: string -> int, a: int, b: int)
    requires e.Binary? && NamesOk(e) && LiteralsFit(e) && NoDoubleMinus(e) && Faithful(e.l, env) && Faithful(e.r, env)
    requires Value(e.l, env) == Some(a) && Value(e.r, env) == Some(b)
    ensures ReadCpp(Print(e)).Some?
    ensures Evaluate(ReadCpp(Print(e)).value, env) == Value(e, env)
       <==> ((e.op == FloorDiv || e.op == FloorMod) && b != 0 ==> DivisionAgrees(a, b))
  {
    ReadBack(e);
    SameValue(e.l, env);
    SameValue(e.r, env);
    OperatorExactly(e.op, a, b);
    BinaryText(e, env, a, b);
  }

  /** -7 // 2 is -4; its text, as C++, is -3. */
  lemma NegativeQuotient(e: Expr, env: string -> int)
    requires e == Binary(FloorDiv, Int(-7), Int(2))
    ensures Value(e, env) == Some(-4) && ReadCpp(Print(e)) == Some(Ast(e)) && Evaluate(Ast(e), env) == Some(-3)
  {
    ReadBack(e);
    SameValue(e.l, env);
    SameValue(e.r, env);
    BinaryText(e, env, -7, 2);
    assert Operate(Slash, -7, 2) == Some(-3);
  }

  /** Divisions whose operands are not negative and whose divisor is positive are faithful. */
  predicate PlainDivisions(e: Expr, env: string -> int) {
    match e
    case Binary(op, l, r) =>
      && PlainDivisions(l, env) && PlainDivisions(r, env)
      && ((op == FloorDiv || op == FloorMod) && Value(l, env).Some? && Value(r, env).Some? ==>
            Value(l, env).value >= 0 && Value(r, env).value > 0)
    case MinMax(_, t, l, r) =>
      && PlainDivisions(l, env) && PlainDivisions(r, env)
      && (Value(l, env).Some? ==> Fits(t, Value(l, env).value))
      && (Value(r, env).Some? ==> Fits(t, Value(r, env).value))
    case And(l, r) => PlainDivisions(l, env) && PlainDivisions(r, env)
    case Or(l, r) => PlainDivisions(l, env) && PlainDivisions(r, env)
    case Xor(l, r) => PlainDivisions(l, env) && PlainDivisions(r, env)
    case Not(e) => PlainDivisions(e, env)
    case Neg(e) => PlainDivisions(e, env)
    case Cast(_, e) => PlainDivisions(e, env)
    case _ => true
  }

  lemma {:induction false} PlainIsFaithful(e: Expr, env: string -> int)
    requires PlainDivisions(e, env)
    ensures Faithful(e, env)
  {
    match e
    case Binary(_, l, r) => PlainIsFaithful(l, env); PlainIsFaithful(r, env);
    case MinMax(_, _, l, r) => PlainIsFaithful(l, env); PlainIsFaithful(r, env);
    case And(l, r) => PlainIsFaithful(l, env); PlainIsFaithful(r, env);
    case Or(l, r) => PlainIsFaithful(l, env); PlainIsFaithful(r, env);
    case Xor(l, r) => PlainIsFaithful(l, env); PlainIsFaithful(r, env);
    case Not(e) => PlainIsFaithful(e, env);
    case Neg(e) => PlainIsFaithful(e, env);
    case Cast(_, e) => PlainIsFaithful(e, env);
    case _ =>
  }
}
