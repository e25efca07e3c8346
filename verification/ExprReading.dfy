/** Printed expressions read back: the text of an expression splits into exactly its
    tokens, and the tokens form exactly its C++ expression. */
module ExprReading {
  import opened Options
  import opened Text
  import opened CppText
  import opened CppGrammar
  import opened ExprPrinter

  // ---------------------------------------------------------------- from text to tokens

  lemma WordsAreWords()
    ensures IsWord("static_cast") && IsWord("std") && IsWord("min") && IsWord("max")
  {
  }

  /** The first character of a printed expression. */
  lemma PrintHead(e: Expr)
    requires NamesOk(e)
    ensures Print(e) != ""
    ensures var c := Print(e)[0]; if IsNegativeLiteral(e) then c == '-' else IsIdChar(c) || c == '('
  {
    match e
    case Int(v) => IntHead(v);
    case _ =>
  }

  lemma IntHead(v: int)
    ensures ShowInt(v) != "" && if v < 0 then ShowInt(v)[0] == '-' else '0' <= ShowInt(v)[0] <= '9'
  {
    if v >= 0 { DecimalDigits(v); }
  }

  lemma LexNegative(n: nat, rest: string)
    requires Separates(rest)
    ensures Lex("-" + (Decimal(n) + rest)) == if n <= MAX_LITERAL then Prepend([P(Minus)] + [Num(n)], Lex(rest))
      else None
  {
    DecimalDigits(n);
    assert (Decimal(n) + rest)[0] == Decimal(n)[0];
    LexSingle('-', Decimal(n) + rest);
    LexNumber(n, rest);
    PrependTwice([P(Minus)], [Num(n)], Lex(rest));
  }

  lemma NegativeParts(v: Constant, rest: string)
    requires v < 0
    ensures ShowInt(v) + rest == "-" + (Decimal(Opposite(v)) + rest)
  {
  }

  lemma LexInt(v: Constant, rest: string)
    requires Separates(rest)
    ensures Lex(ShowInt(v) + rest) == Reading(Int(v), Lex(rest))
  {
    if v < 0 {
      var n := Opposite(v);
      NegativeParts(v, rest);
      LexNegative(n, rest);
      assert [P(Minus)] + [Num(n)] == Tokens(Int(v)) && LiteralsFit(Int(v)) == (n <= MAX_LITERAL);
    } else {
      LexNumber(v, rest);
    }
  }

  lemma LexBool(b: bool, rest: string)
    requires Separates(rest)
    ensures Lex(Print(BoolConst(b)) + rest) == Prepend([Num(if b then 1 else 0)], Lex(rest))
  {
    var n := if b then 1 else 0;
    assert Decimal(n) == Print(BoolConst(b)) by {
      assert Decimal(0) == "0" && Decimal(1) == "1";
    }
    LexNumber(n, rest);
  }

  /** `static_cast<T>(inner)`, given how `inner)` reads. */
  lemma LexCast(t: CType, inner: string, rest: string, r: Option<seq<Token>>)
    requires Lex(inner + (")" + rest)) == r
    ensures Lex(CastText(t, inner) + rest) == Prepend(CastHead(t), r)
  {
    var tail := TypeName(t) + (">(" + (inner + (")" + rest)));
    WordsAreWords();
    CastParts(TypeName(t), inner, rest);
    LexWord("static_cast", "<" + tail);
    LexType(t, inner + (")" + rest));
    PrependTwice([Id("static_cast")], AngleTokens(t), r);
  }

  lemma CastParts(name: string, inner: string, rest: string)
    ensures "static_cast<" + (name + (">(" + (inner + ")"))) + rest
      == "static_cast" + ("<" + (name + (">(" + (inner + (")" + rest)))))
  {
  }

  lemma LexOpAt(op: BinaryOp, s: string)
    requires s != "" && s[0] == ' '
    ensures Lex(OpText(op) + s) == Prepend([P(OpOf(op))], Lex(s))
  {
  }

  /** A binary operator between spaces. */
  lemma LexOp(op: BinaryOp, rest: string)
    ensures Lex(" " + (OpText(op) + (" " + rest))) == Prepend([P(OpOf(op))], Lex(rest))
  {
    var s := " " + rest;
    LexSpace(OpText(op) + s);
    LexOpAt(op, s);
    LexSpace(rest);
  }

  lemma LexBit(op: Op, text: string, rest: string)
    requires (op == Amp && text == "&") || (op == Bar && text == "|") || (op == NotEq && text == "!=")
    ensures Lex(" " + (text + (" " + rest))) == Prepend([P(op)], Lex(rest))
  {
    var s := " " + rest;
    LexSpace(text + s);
    LexSpace(rest);
    assert s[0] == ' ';
    if op == NotEq {
      LexPair('!', '=', s);
    } else {
      LexSingle(text[0], s);
    }
  }

  /** An infix text reads as its first operand, before the operator and the second. */
  lemma LexInfix(a: string, op: string, b: string, t: string, r: Option<seq<Token>>)
    requires Lex(a + (" " + (op + (" " + (b + t))))) == r
    ensures Lex(InfixText(a, op, b) + t) == r
  {
    InfixParts(a, op, b, t);
  }

  lemma InfixParts(a: string, op: string, b: string, t: string)
    ensures a + (" " + (op + (" " + b))) + t == a + (" " + (op + (" " + (b + t))))
  {
  }

  lemma LexParens(inner: string, rest: string, r: Option<seq<Token>>)
    requires Lex(inner + (")" + rest)) == r
    ensures Lex("(" + (inner + ")") + rest) == Prepend([P(LParen)], r)
  {
    assert "(" + (inner + ")") + rest == "(" + (inner + (")" + rest));
    LexComma(inner + (")" + rest));
  }

  /** An operand of a logical operator, normalised to `bool`. */
  function CastReading(e: Expr, tail: Option<seq<Token>>): Option<seq<Token>> {
    if LiteralsFit(e) then Prepend(CastTokens(Bool, Tokens(e)), tail) else None
  }

  lemma CastOperand(e: Expr, rest: string)
    requires Lex(Print(e) + (")" + rest)) == Reading(e, Lex(")" + rest))
    ensures Lex(CastText(Bool, Print(e)) + rest) == CastReading(e, Lex(rest))
  {
    LexCast(Bool, Print(e), rest, Reading(e, Lex(")" + rest)));
    LexComma(rest);
    CastTokensRead(Bool, Tokens(e), Lex(rest));
  }

  lemma CastTokensRead(t: CType, inner: seq<Token>, tail: Option<seq<Token>>)
    ensures Prepend(CastHead(t), Prepend(inner, Prepend([P(RParen)], tail))) == Prepend(CastTokens(t, inner), tail)
  {
    ThreeTokens(CastHead(t), inner, [P(RParen)], tail);
    assert CastHead(t) + inner + [P(RParen)] == CastTokens(t, inner);
  }

  lemma InfixTokensRead(a: seq<Token>, op: Op, b: seq<Token>, tail: Option<seq<Token>>)
    ensures Prepend(a, Prepend([P(op)], Prepend(b, tail))) == Prepend(InfixTokens(a, op, b), tail)
  {
    ThreeTokens(a, [P(op)], b, tail);
    assert a + [P(op)] + b == InfixTokens(a, op, b);
  }

  lemma ParenTokensRead(inner: seq<Token>, tail: Option<seq<Token>>)
    ensures Prepend([P(LParen)], Prepend(inner, Prepend([P(RParen)], tail)))
      == Prepend([P(LParen)] + (inner + [P(RParen)]), tail)
  {
    ThreeTokens([P(LParen)], inner, [P(RParen)], tail);
    assert [P(LParen)] + inner + [P(RParen)] == [P(LParen)] + (inner + [P(RParen)]);
  }

  /** The text of a printed expression reads as its tokens, whatever separator follows;
      a literal out of range makes it unreadable. */
  lemma {:induction false} LexPrint(e: Expr, rest: string)
    requires NamesOk(e) && Separates(rest)
    ensures Lex(Print(e) + rest) == Reading(e, Lex(rest))
    decreases e, 2
  {
    match e
    case Var(name) => LexWord(name, rest);
    case Int(v) => LexInt(v, rest);
    case BoolConst(b) => LexBool(b, rest);
    case Binary(_, _, _) => LexBinary(e, rest);
    case MinMax(_, _, _, _) => LexMinMax(e, rest);
    case And(_, _) => LexLogic(e, Amp, "&", rest);
    case Or(_, _) => LexLogic(e, Bar, "|", rest);
    case Xor(_, _) => LexXor(e, rest);
    case Not(_) => LexNot(e, rest, Lex(Print(e) + rest));
    case Neg(_) => LexNeg(e, rest);
    case Cast(t, inner) =>
      LexPrint(inner, ")" + rest);
      LexCast(t, Print(inner), rest, Reading(inner, Lex(")" + rest)));
      LexComma(rest);
      CastTokensRead(t, Tokens(inner), Lex(rest));
  }

  lemma {:induction false} LexBinary(e: Expr, rest: string)
    requires e.Binary? && NamesOk(e) && Separates(rest)
    ensures Lex(Print(e) + rest) == Reading(e, Lex(rest))
    decreases e, 0
  {
    var close := ")" + rest;
    var right := Print(e.r) + close;
    LexPrint(e.r, close);
    LexOp(e.op, right);
    LexPrint(e.l, " " + (OpText(e.op) + (" " + right)));
    LexComma(rest);
    var read := Reading(e.l, Prepend([P(OpOf(e.op))], Reading(e.r, Prepend([P(RParen)], Lex(rest)))));
    LexInfix(Print(e.l), OpText(e.op), Print(e.r), close, read);
    LexParens(InfixText(Print(e.l), OpText(e.op), Print(e.r)), rest, read);
    InfixTokensRead(Tokens(e.l), OpOf(e.op), Tokens(e.r), Prepend([P(RParen)], Lex(rest)));
    ParenTokensRead(InfixTokens(Tokens(e.l), OpOf(e.op), Tokens(e.r)), Lex(rest));
  }

  /** Two operands normalised to `bool` around an operator. */
  lemma {:induction false} LexOperands(e: Expr, op: Op, text: string, t: string)
    requires (e.And? || e.Or? || e.Xor?) && NamesOk(e) && Separates(t)
    requires (op == Amp && text == "&") || (op == Bar && text == "|") || (op == NotEq && text == "!=")
    ensures Lex(InfixText(CastText(Bool, Print(e.l)), text, CastText(Bool, Print(e.r))) + t)
         == CastReading(e.l, Prepend([P(op)], CastReading(e.r, Lex(t))))
    decreases e, 0
  {
    var right := CastText(Bool, Print(e.r)) + t;
    var after := " " + (text + (" " + right));
    LexPrint(e.r, ")" + t);
    CastOperand(e.r, t);
    LexBit(op, text, right);
    LexPrint(e.l, ")" + after);
    CastOperand(e.l, after);
    LexInfix(CastText(Bool, Print(e.l)), text, CastText(Bool, Print(e.r)), t,
        CastReading(e.l, Prepend([P(op)], CastReading(e.r, Lex(t)))));
  }

  /** The operands' readings put together. */
  lemma OperandTokens(l: Expr, r: Expr, op: Op, tail: Option<seq<Token>>)
    ensures CastReading(l, Prepend([P(op)], CastReading(r, tail)))
         == if LiteralsFit(l) && LiteralsFit(r)
            then Prepend(InfixTokens(CastTokens(Bool, Tokens(l)), op, CastTokens(Bool, Tokens(r))), tail) else None
  {
    InfixTokensRead(CastTokens(Bool, Tokens(l)), op, CastTokens(Bool, Tokens(r)), tail);
  }

  lemma {:induction false} LexLogic(e: Expr, op: Op, text: string, rest: string)
    requires (e.And? && op == Amp && text == "&") || (e.Or? && op == Bar && text == "|")
    requires NamesOk(e) && Separates(rest)
    ensures Lex(Print(e) + rest) == Reading(e, Lex(rest))
    decreases e, 1
  {
    var inner := InfixText(CastText(Bool, Print(e.l)), text, CastText(Bool, Print(e.r)));
    var tokens := InfixTokens(CastTokens(Bool, Tokens(e.l)), op, CastTokens(Bool, Tokens(e.r)));
    LexOperands(e, op, text, ")" + rest);
    LexComma(rest);
    OperandTokens(e.l, e.r, op, Prepend([P(RParen)], Lex(rest)));
    LexCast(Bool, inner, rest, Lex(inner + (")" + rest)));
    CastTokensRead(Bool, tokens, Lex(rest));
  }

  lemma {:induction false} LexXor(e: Expr, rest: string)
    requires e.Xor? && NamesOk(e) && Separates(rest)
    ensures Lex(Print(e) + rest) == Reading(e, Lex(rest))
    decreases e, 1
  {
    var inner := InfixText(CastText(Bool, Print(e.l)), "!=", CastText(Bool, Print(e.r)));
    LexOperands(e, NotEq, "!=", ")" + rest);
    LexComma(rest);
    OperandTokens(e.l, e.r, NotEq, Prepend([P(RParen)], Lex(rest)));
    LexParens(inner, rest, Lex(inner + (")" + rest)));
    ParenTokensRead(InfixTokens(CastTokens(Bool, Tokens(e.l)), NotEq, CastTokens(Bool, Tokens(e.r))), Lex(rest));
  }

  /** A prefix operator in parentheses. */
  lemma LexPrefix(c: char, t: string)
    requires (c == '!' || c == '-') && t != "" && (IsIdChar(t[0]) || t[0] == '(' || (c == '!' && t[0] == '-'))
    ensures Lex("(" + ([c] + t)) == Prepend([P(LParen)] + [P(Single(c).value)], Lex(t))
  {
    LexSingle(c, t);
    LexComma([c] + t);
    PrependTwice([P(LParen)], [P(Single(c).value)], Lex(t));
  }

  lemma PrefixParts(inner: string, rest: string)
    ensures "(-" + (inner + ")") + rest == "(" + (['-'] + (inner + (")" + rest)))
    ensures "(!" + (inner + ")") + rest == "(" + (['!'] + (inner + (")" + rest)))
    ensures inner != "" ==> (inner + (")" + rest))[0] == inner[0]
  {
  }

  function PrefixText(c: char, inner: string): string {
    (if c == '!' then "(!" else "(-") + (inner + ")")
  }

  lemma LexPrefixed(c: char, inner: string, rest: string, r: Option<seq<Token>>, out: Option<seq<Token>>)
    requires (c == '!' || c == '-') && inner != ""
      && (IsIdChar(inner[0]) || inner[0] == '(' || (c == '!' && inner[0] == '-'))
    requires Lex(inner + (")" + rest)) == r && Lex(PrefixText(c, inner) + rest) == out
    ensures out == Prepend([P(LParen)] + [P(Single(c).value)], r)
  {
    PrefixParts(inner, rest);
    LexPrefix(c, inner + (")" + rest));
  }

  lemma PrefixTokensRead(op: Op, inner: seq<Token>, tail: Option<seq<Token>>)
    ensures Prepend([P(LParen)] + [P(op)], Prepend(inner, Prepend([P(RParen)], tail)))
      == Prepend([P(LParen), P(op)] + (inner + [P(RParen)]), tail)
  {
    ThreeTokens([P(LParen)] + [P(op)], inner, [P(RParen)], tail);
    assert [P(LParen)] + [P(op)] + inner + [P(RParen)] == [P(LParen), P(op)] + (inner + [P(RParen)]);
  }

  lemma {:induction false} LexNot(e: Expr, rest: string, out: Option<seq<Token>>)
    requires e.Not? && NamesOk(e) && Separates(rest)
    requires out == Lex(Print(e) + rest)
    ensures out == Reading(e, Lex(rest))
    decreases e, 1
  {
    PrintHead(e.e);
    LexPrint(e.e, ")" + rest);
    LexComma(rest);
    LexPrefixed('!', Print(e.e), rest, Lex(Print(e.e) + (")" + rest)), out);
    PrefixTokensRead(Bang, Tokens(e.e), Lex(rest));
  }

  lemma {:induction false} LexPlainNeg(e: Expr, rest: string, out: Option<seq<Token>>)
    requires e.Neg? && !IsNegativeLiteral(e.e) && NamesOk(e) && Separates(rest)
    requires out == Lex(Print(e) + rest)
    ensures out == Reading(e, Lex(rest))
    decreases e, 0
  {
    PrintHead(e.e);
    LexPrint(e.e, ")" + rest);
    LexComma(rest);
    LexPrefixed('-', Print(e.e), rest, Lex(Print(e.e) + (")" + rest)), out);
    PrefixTokensRead(Minus, Tokens(e.e), Lex(rest));
  }

  lemma {:induction false} LexNeg(e: Expr, rest: string)
    requires e.Neg? && NamesOk(e) && Separates(rest)
    ensures Lex(Print(e) + rest) == Reading(e, Lex(rest))
    decreases e, 1
  {
    if IsNegativeLiteral(e.e) {
      LexDoubleMinus(e, Opposite(e.e.v), rest);
    } else {
      LexPlainNeg(e, rest, Lex(Print(e) + rest));
    }
  }

  /** Two minus signs in a row are one token. */
  lemma LexTwoMinus(t: string)
    ensures Lex("(" + (['-', '-'] + t)) == Prepend([P(LParen)], Prepend([P(Decrement)], Lex(t)))
  {
    LexPair('-', '-', t);
    LexComma(['-', '-'] + t);
  }

  lemma TwoMinusParts(digits: string, rest: string)
    ensures "(-" + (("-" + digits) + ")") + rest == "(" + (['-', '-'] + (digits + (")" + rest)))
  {
  }

  lemma DoubleMinusText(e: Expr, n: nat)
    requires e.Neg? && IsNegativeLiteral(e.e) && n == Opposite(e.e.v)
    ensures Print(e) == "(-" + (("-" + Decimal(n)) + ")")
    ensures LiteralsFit(e) == (n <= MAX_LITERAL) && Tokens(e) == [P(LParen), P(Decrement), Num(n), P(RParen)]
  {
  }

  lemma LexDoubleMinus(e: Expr, n: nat, rest: string)
    requires e.Neg? && IsNegativeLiteral(e.e) && n == Opposite(e.e.v) && Separates(rest)
    ensures Lex(Print(e) + rest) == Reading(e, Lex(rest))
  {
    DoubleMinusText(e, n);
    TwoMinusParts(Decimal(n), rest);
    LexTwoMinus(Decimal(n) + (")" + rest));
    LexNumber(n, ")" + rest);
    LexComma(rest);
    DoubleMinusTokens(n, Lex(rest));
  }

  lemma DoubleMinusTokens(n: nat, tail: Option<seq<Token>>)
    ensures Prepend([P(LParen)], Prepend([P(Decrement)], Prepend([Num(n)], Prepend([P(RParen)], tail))))
         == Prepend([P(LParen), P(Decrement), Num(n), P(RParen)], tail)
  {
    ThreeTokens([P(Decrement)], [Num(n)], [P(RParen)], tail);
    PrependTwice([P(LParen)], [P(Decrement)] + [Num(n)] + [P(RParen)], tail);
    assert [P(LParen)] + ([P(Decrement)] + [Num(n)] + [P(RParen)]) == [P(LParen), P(Decrement), Num(n), P(RParen)];
  }

  lemma ExtremumParts(isMax: bool, t: string)
    ensures (if isMax then "std::max<" else "std::min<") + t
      == "std" + ([':', ':'] + ((if isMax then "max" else "min") + ("<" + t)))
  {
  }

  lemma LexQualified(word: string, tail: string)
    requires IsWord(word) && tail != "" && tail[0] == '<'
    ensures Lex("std" + ([':', ':'] + (word + tail))) == Prepend([Id("std")] + [P(Scope)] + [Id(word)], Lex(tail))
  {
    var call := word + tail;
    WordsAreWords();
    LexWord("std", [':', ':'] + call);
    LexPair(':', ':', call);
    LexWord(word, tail);
    ThreeTokens([Id("std")], [P(Scope)], [Id(word)], Lex(tail));
  }

  lemma LexExtremum(isMax: bool, t: CType, inner: string)
    ensures Lex((if isMax then "std::max<" else "std::min<") + (TypeName(t) + (">(" + inner)))
      == Prepend(ExtremumHead(isMax, t), Lex(inner))
  {
    var word := if isMax then "max" else "min";
    WordsAreWords();
    ExtremumParts(isMax, TypeName(t) + (">(" + inner));
    LexQualified(word, "<" + (TypeName(t) + (">(" + inner)));
    LexType(t, inner);
    PrependTwice([Id("std")] + [P(Scope)] + [Id(word)], AngleTokens(t), Lex(inner));
    assert [Id("std")] + [P(Scope)] + [Id(word)] + AngleTokens(t) == ExtremumHead(isMax, t);
  }

  lemma MinMaxParts(head: string, name: string, l: string, r: string, rest: string)
    ensures head + (name + (">(" + (l + (", " + (r + ")"))))) + rest
      == head + (name + (">(" + (l + ("," + (" " + (r + (")" + rest)))))))
  {
  }

  lemma MinMaxTokens(head: seq<Token>, l: seq<Token>, r: seq<Token>, tail: Option<seq<Token>>)
    ensures Prepend(head, Prepend(l, Prepend([P(Comma)], Prepend(r, Prepend([P(RParen)], tail)))))
         == Prepend(head + (l + ([P(Comma)] + (r + [P(RParen)]))), tail)
  {
    ThreeTokens([P(Comma)], r, [P(RParen)], tail);
    ThreeTokens(head, l, [P(Comma)] + r + [P(RParen)], tail);
    assert head + l + ([P(Comma)] + r + [P(RParen)]) == head + (l + ([P(Comma)] + (r + [P(RParen)])));
  }

  lemma {:induction false} LexMinMax(e: Expr, rest: string)
    requires e.MinMax? && NamesOk(e) && Separates(rest)
    ensures Lex(Print(e) + rest) == Reading(e, Lex(rest))
    decreases e, 1
  {
    var right := Print(e.r) + (")" + rest);
    LexPrint(e.r, ")" + rest);
    LexComma(rest);
    LexSpace(right);
    LexComma(" " + right);
    LexPrint(e.l, "," + (" " + right));
    LexExtremum(e.isMax, e.t, Print(e.l) + ("," + (" " + right)));
    MinMaxParts(if e.isMax then "std::max<" else "std::min<", TypeName(e.t), Print(e.l), Print(e.r), rest);
    MinMaxTokens(ExtremumHead(e.isMax, e.t), Tokens(e.l), Tokens(e.r), Lex(rest));
  }
}
