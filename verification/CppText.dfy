/** How C++ reads expression text: tokens by maximal munch, then the expression grammar with
    its operator precedence, for the operators and calls the scalar printer uses. */
module CppText {
  import opened Options
  import opened Text

  datatype Op = LParen | RParen | Comma | Plus | Minus | Star | Slash | Percent | Less | Greater | LessEq | GreaterEq
    | EqEq | NotEq | Bang | Amp | Bar | Scope | Decrement | Other

  datatype Token = Id(name: string) | Num(v: nat) | P(op: Op)

  /** The largest literal that fits a signed 64-bit type. */
  const MAX_LITERAL := 0x7FFF_FFFF_FFFF_FFFF

  predicate IsIdStart(c: char) {
    'a' <= c <= 'z' || 'A' <= c <= 'Z' || c == '_'
  }

  predicate IsIdChar(c: char) {
    IsIdStart(c) || '0' <= c <= '9'
  }

  predicate IsWord(w: string) {
    w != "" && IsIdStart(w[0]) && forall k :: 0 <= k < |w| ==> IsIdChar(w[k])
  }

  // ---------------------------------------------------------------- tokens

  /** Punctuators of two characters; `Other` for those no printed expression uses. */
  function Pair(a: char, b: char): Option<Op> {
    if a == '-' && b == '-' then Some(Decrement)
    else if a == '<' && b == '=' then Some(LessEq)
    else if a == '>' && b == '=' then Some(GreaterEq)
    else if a == '=' && b == '=' then Some(EqEq)
    else if a == '!' && b == '=' then Some(NotEq)
    else if a == ':' && b == ':' then Some(Scope)
    else if b == '=' && (a == '+' || a == '-' || a == '*' || a == '/' || a == '%' || a == '&' || a == '|')
        then Some(Other)
    else if a == b && (a == '+' || a == '<' || a == '>' || a == '&' || a == '|') then Some(Other)
    else if (a == '-' && b == '>') || (a == '<' && (b == ':' || b == '%')) then Some(Other)
    else None
  }

  function Single(c: char): Option<Op> {
    match c
    case '(' => Some(LParen)
    case ')' => Some(RParen)
    case ',' => Some(Comma)
    case '+' => Some(Plus)
    case '-' => Some(Minus)
    case '*' => Some(Star)
    case '/' => Some(Slash)
    case '%' => Some(Percent)
    case '<' => Some(Less)
    case '>' => Some(Greater)
    case '!' => Some(Bang)
    case '&' => Some(Amp)
    case '|' => Some(Bar)
    case _ => None
  }

  predicate OpensComment(a: char, b: char) {
    a == '/' && (b == '/' || b == '*')
  }

  function WordEnd(s: string, k: nat): (n: nat)
    requires k <= |s|
    ensures k <= n <= |s| && (n < |s| ==> !IsIdChar(s[n])) && forall j :: k <= j < n ==> IsIdChar(s[j])
    decreases |s| - k
  {
    if k == |s| || !IsIdChar(s[k]) then k else WordEnd(s, k + 1)
  }

  /** A decimal literal: no leading zero, which would make it octal, and not too large. */
  function Literal(w: string): Option<Token>
    requires w != ""
  {
    if w[0] == '0' && |w| > 1 then None
    else match ReadNat(w)
      case Some(n) => if n <= MAX_LITERAL then Some(Num(n)) else None
      case None => None
  }

  /** The longest token at the front, and its length. */
  function First(s: string): (r: Option<(Token, nat)>)
    requires s != ""
    ensures r.Some? ==> 0 < r.value.1 <= |s|
  {
    if IsIdChar(s[0]) then
      var n := WordEnd(s, 1);
      if IsIdStart(s[0]) then Some((Id(s[..n]), n))
      else match Literal(s[..n])
        case Some(t) => Some((t, n))
        case None => None
    else if |s| > 1 && OpensComment(s[0], s[1]) then None
    else if |s| > 1 && Pair(s[0], s[1]).Some? then Some((P(Pair(s[0], s[1]).value), 2))
    else match Single(s[0])
      case Some(op) => Some((P(op), 1))
      case None => None
  }

  function Lex(s: string): Option<seq<Token>>
    decreases |s|
  {
    if s == "" then Some([])
    else if s[0] == ' ' then Lex(s[1..])
    else match First(s)
      case Some(t) => Prepend([t.0], Lex(s[t.1..]))
      case None => None
  }

  function Prepend(ts: seq<Token>, r: Option<seq<Token>>): Option<seq<Token>> {
    match r
    case Some(us) => Some(ts + us)
    case None => None
  }

  lemma PrependTwice(a: seq<Token>, b: seq<Token>, r: Option<seq<Token>>)
    ensures Prepend(a, Prepend(b, r)) == Prepend(a + b, r)
  {
    if r.Some? { assert a + (b + r.value) == a + b + r.value; }
  }

  lemma LexSpace(rest: string)
    ensures Lex(" " + rest) == Lex(rest)
  {
  }

  lemma LexSingle(c: char, rest: string)
    requires Single(c).Some? && (rest == "" || (Pair(c, rest[0]) == None && !OpensComment(c, rest[0])))
    ensures Lex([c] + rest) == Prepend([P(Single(c).value)], Lex(rest))
  {
    var s := [c] + rest;
    assert s[1..] == rest && (rest != "" ==> s[1] == rest[0]);
    assert First(s) == Some((P(Single(c).value), 1));
  }

  lemma LexPair(a: char, b: char, rest: string)
    requires Pair(a, b).Some?
    ensures Lex([a, b] + rest) == Prepend([P(Pair(a, b).value)], Lex(rest))
  {
  }

  lemma {:induction false} WordEndIs(w: string, rest: string, k: nat)
    requires k <= |w| && forall j :: k <= j < |w| ==> IsIdChar(w[j])
    requires rest == "" || !IsIdChar(rest[0])
    ensures WordEnd(w + rest, k) == |w|
    decreases |w| - k
  {
    if k < |w| {
      assert (w + rest)[k] == w[k];
      WordEndIs(w, rest, k + 1);
    }
  }

  lemma LexWord(w: string, rest: string)
    requires IsWord(w) && (rest == "" || !IsIdChar(rest[0]))
    ensures Lex(w + rest) == Prepend([Id(w)], Lex(rest))
  {
    WordEndIs(w, rest, 1);
    var s := w + rest;
    assert s[0] == w[0] && s[..|w|] == w && s[|w|..] == rest;
  }

  lemma {:induction false} DecimalHead(n: nat)
    ensures Decimal(n)[0] == '0' ==> n == 0
  {
    if n >= 10 {
      DecimalHead(n / 10);
      assert Decimal(n)[0] == Decimal(n / 10)[0];
    }
  }

  lemma LexNumber(n: nat, rest: string)
    requires rest == "" || !IsIdChar(rest[0])
    ensures Lex(Decimal(n) + rest) == if n <= MAX_LITERAL then Prepend([Num(n)], Lex(rest)) else None
  {
    var w := Decimal(n);
    DecimalDigits(n);
    DecimalInverse(n);
    DecimalHead(n);
    WordEndIs(w, rest, 1);
    var s := w + rest;
    assert s[0] == w[0] && s[..|w|] == w && s[|w|..] == rest;
    assert |w| > 1 ==> n > 0;
    assert Literal(w) == if n <= MAX_LITERAL then Some(Num(n)) else None;
  }
}
