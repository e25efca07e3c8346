/** `GenerateExprString` of src/codegen/codegen_base.cpp: IR scalar expressions as C++ text,
    the tokens C++ reads in that text, and the C++ expression they form. */
module ExprPrinter {
  import opened Options
  import opened Text
  import opened CppText
  import opened CppGrammar

  type Constant = v: int | -0x8000_0000_0000_0000 <= v < 0x8000_0000_0000_0000

  datatype BinaryOp = Add | Sub | Mul | FloorDiv | FloorMod | Eq | Ne | Lt | Le | Gt | Ge

  datatype Expr =
    | Var(name: string)
    | Int(v: Constant)
    | BoolConst(b: bool)
    | Binary(op: BinaryOp, l: Expr, r: Expr)
    | MinMax(isMax: bool, t: CType, l: Expr, r: Expr)
    | And(l: Expr, r: Expr)
    | Or(l: Expr, r: Expr)
    | Xor(l: Expr, r: Expr)
    | Not(e: Expr)
    | Neg(e: Expr)
    | Cast(t: CType, e: Expr)

  // ---------------------------------------------------------------- text

  function OpText(op: BinaryOp): string {
    match op
    case Add => "+"
    case Sub => "-"
    case Mul => "*"
    case FloorDiv => "/"
    case FloorMod => "%"
    case Eq => "=="
    case Ne => "!="
    case Lt => "<"
    case Le => "<="
    case Gt => ">"
    case Ge => ">="
  }

  function CastText(t: CType, inner: string): string {
    "static_cast<" + (TypeName(t) + (">(" + (inner + ")")))
  }

  function InfixText(l: string, op: string, r: string): string {
    l + (" " + (op + (" " + r)))
  }

  function Print(e: Expr): string {
    match e
    case Var(name) => name
    case Int(v) => ShowInt(v)
    case BoolConst(b) => if b then "1" else "0"
    case Binary(op, l, r) => "(" + (InfixText(Print(l), OpText(op), Print(r)) + ")")
    case MinMax(isMax, t, l, r) =>
      (if isMax then "std::max<" else "std::min<") + (TypeName(t) + (">(" + (Print(l) + (", " + (Print(r) + ")")))))
    case And(l, r) => CastText(Bool, InfixText(CastText(Bool, Print(l)), "&", CastText(Bool, Print(r))))
    case Or(l, r) => CastText(Bool, InfixText(CastText(Bool, Print(l)), "|", CastText(Bool, Print(r))))
    case Xor(l, r) => "(" + (InfixText(CastText(Bool, Print(l)), "!=", CastText(Bool, Print(r))) + ")")
    case Not(e) => "(!" + (Print(e) + ")")
    case Neg(e) => "(-" + (Print(e) + ")")
    case Cast(t, e) => CastText(t, Print(e))
  }

  /** What is asked of variables: they are C++ identifiers. */
  predicate NamesOk(e: Expr) {
    match e
    case Var(name) => IsWord(name) && !IsKeyword(name)
    case Int(_) => true
    case BoolConst(_) => true
    case Binary(_, l, r) => NamesOk(l) && NamesOk(r)
    case MinMax(_, _, l, r) => NamesOk(l) && NamesOk(r)
    case And(l, r) => NamesOk(l) && NamesOk(r)
    case Or(l, r) => NamesOk(l) && NamesOk(r)
    case Xor(l, r) => NamesOk(l) && NamesOk(r)
    case Not(e) => NamesOk(e)
    case Neg(e) => NamesOk(e)
    case Cast(_, e) => NamesOk(e)
  }

  /** No constant is the least 64-bit integer, whose digits exceed every signed type. */
  predicate LiteralsFit(e: Expr) {
    match e
    case Var(_) => true
    case Int(v) => v >= -MAX_LITERAL
    case BoolConst(_) => true
    case Binary(_, l, r) => LiteralsFit(l) && LiteralsFit(r)
    case MinMax(_, _, l, r) => LiteralsFit(l) && LiteralsFit(r)
    case And(l, r) => LiteralsFit(l) && LiteralsFit(r)
    case Or(l, r) => LiteralsFit(l) && LiteralsFit(r)
    case Xor(l, r) => LiteralsFit(l) && LiteralsFit(r)
    case Not(e) => LiteralsFit(e)
    case Neg(e) => LiteralsFit(e)
    case Cast(_, e) => LiteralsFit(e)
  }

  predicate IsNegativeLiteral(e: Expr) {
    e.Int? && e.v < 0
  }

  /** No negation sits directly on a negative literal. */
  predicate NoDoubleMinus(e: Expr) {
    match e
    case Var(_) => true
    case Int(_) => true
    case BoolConst(_) => true
    case Binary(_, l, r) => NoDoubleMinus(l) && NoDoubleMinus(r)
    case MinMax(_, _, l, r) => NoDoubleMinus(l) && NoDoubleMinus(r)
    case And(l, r) => NoDoubleMinus(l) && NoDoubleMinus(r)
    case Or(l, r) => NoDoubleMinus(l) && NoDoubleMinus(r)
    case Xor(l, r) => NoDoubleMinus(l) && NoDoubleMinus(r)
    case Not(e) => NoDoubleMinus(e)
    case Neg(e) => !IsNegativeLiteral(e) && NoDoubleMinus(e)
    case Cast(_, e) => NoDoubleMinus(e)
  }

  // ---------------------------------------------------------------- tokens

  function OpOf(op: BinaryOp): Op {
    match op
    case Add => Plus
    case Sub => Minus
    case Mul => Star
    case FloorDiv => Slash
    case FloorMod => Percent
    case Eq => EqEq
    case Ne => NotEq
    case Lt => Less
    case Le => LessEq
    case Gt => Greater
    case Ge => GreaterEq
  }

  /** `<T>(`. */
  function AngleTokens(t: CType): seq<Token> {
    [P(Less), Id(TypeName(t)), P(Greater), P(LParen)]
  }

  function CastHead(t: CType): seq<Token> {
    [Id("static_cast")] + AngleTokens(t)
  }

  function ExtremumHead(isMax: bool, t: CType): seq<Token> {
    [Id("std"), P(Scope), Id(if isMax then "max" else "min")] + AngleTokens(t)
  }

  function CastTokens(t: CType, inner: seq<Token>): seq<Token> {
    CastHead(t) + (inner + [P(RParen)])
  }

  function InfixTokens(l: seq<Token>, op: Op, r: seq<Token>): seq<Token> {
    l + ([P(op)] + r)
  }

  function Opposite(v: int): nat
    requires v < 0
  {
    -v
  }

  function Tokens(e: Expr): seq<Token> {
    match e
    case Var(name) => [Id(name)]
    case Int(v) => if v < 0 then [P(Minus), Num(Opposite(v))] else [Num(v)]
    case BoolConst(b) => [Num(if b then 1 else 0)]
    case Binary(op, l, r) => [P(LParen)] + (InfixTokens(Tokens(l), OpOf(op), Tokens(r)) + [P(RParen)])
    case MinMax(isMax, t, l, r) => ExtremumHead(isMax, t) + (Tokens(l) + ([P(Comma)] + (Tokens(r) + [P(RParen)])))
    case And(l, r) => CastTokens(Bool, InfixTokens(CastTokens(Bool, Tokens(l)), Amp, CastTokens(Bool, Tokens(r))))
    case Or(l, r) => CastTokens(Bool, InfixTokens(CastTokens(Bool, Tokens(l)), Bar, CastTokens(Bool, Tokens(r))))
    case Xor(l, r) => [P(LParen)] + (InfixTokens(CastTokens(Bool, Tokens(l)), NotEq, CastTokens(Bool, Tokens(r)))
        + [P(RParen)])
    case Not(e) => [P(LParen), P(Bang)] + (Tokens(e) + [P(RParen)])
    case Neg(e) =>
      if IsNegativeLiteral(e) then [P(LParen), P(Decrement), Num(Opposite(e.v)), P(RParen)]
      else [P(LParen), P(Minus)] + (Tokens(e) + [P(RParen)])
    case Cast(t, e) => CastTokens(t, Tokens(e))
  }

  /** What reading a printed text adds to what follows it. */
  function Reading(e: Expr, tail: Option<seq<Token>>): Option<seq<Token>> {
    if LiteralsFit(e) then Prepend(Tokens(e), tail) else None
  }

  /** Text after which a token may follow a printed expression. */
  predicate Separates(rest: string) {
    rest == "" || rest[0] == ' ' || rest[0] == ')' || rest[0] == ','
  }

  lemma TypeNameIsWord(t: CType)
    ensures IsWord(TypeName(t)) && TypeOf(TypeName(t)) == Some(t)
  {
  }

  lemma LexComma(rest: string)
    ensures Lex("," + rest) == Prepend([P(Comma)], Lex(rest))
    ensures Lex(")" + rest) == Prepend([P(RParen)], Lex(rest))
    ensures Lex("(" + rest) == Prepend([P(LParen)], Lex(rest))
  {
    LexSingle(',', rest);
    LexSingle(')', rest);
    LexSingle('(', rest);
  }

  lemma LexAngle(w: string, s: string)
    requires IsWord(w)
    ensures Lex("<" + (w + s)) == Prepend([P(Less)], Lex(w + s))
  {
    assert (w + s)[0] == w[0];
    LexSingle('<', w + s);
  }

  lemma LexClose(rest: string)
    ensures Lex(">(" + rest) == Prepend([P(Greater), P(LParen)], Lex(rest))
  {
    var s := "(" + rest;
    assert s[0] == '(' && ">(" + rest == ">" + s;
    LexSingle('>', s);
    LexComma(rest);
    PrependTwice([P(Greater)], [P(LParen)], Lex(rest));
    assert [P(Greater)] + [P(LParen)] == [P(Greater), P(LParen)];
  }

  lemma ThreeTokens(a: seq<Token>, b: seq<Token>, c: seq<Token>, r: Option<seq<Token>>)
    ensures Prepend(a, Prepend(b, Prepend(c, r))) == Prepend(a + b + c, r)
  {
    PrependTwice(b, c, r);
    PrependTwice(a, b + c, r);
    assert a + (b + c) == a + b + c;
  }

  /** `<T>(` and what follows. */
  lemma LexType(t: CType, rest: string)
    ensures Lex("<" + (TypeName(t) + (">(" + rest))) == Prepend(AngleTokens(t), Lex(rest))
  {
    TypeNameIsWord(t);
    LexAngle(TypeName(t), ">(" + rest);
    LexWord(TypeName(t), ">(" + rest);
    LexClose(rest);
    ThreeTokens([P(Less)], [Id(TypeName(t))], [P(Greater), P(LParen)], Lex(rest));
    assert [P(Less)] + [Id(TypeName(t))] + [P(Greater), P(LParen)] == AngleTokens(t);
  }
}
