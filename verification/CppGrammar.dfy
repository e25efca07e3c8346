/** The C++ expression grammar over tokens, and what its expressions evaluate to. */
module CppGrammar {
  import opened Arithmetic
  import opened CppText
  import opened Options

  datatype CType = Bool | Int8 | Int16 | Int32 | Int64 | UInt8 | UInt16 | UInt32 | UInt64

  /** `ToCTypeString`. */
  function TypeName(t: CType): string {
    match t
    case Bool => "bool"
    case Int8 => "int8_t"
    case Int16 => "int16_t"
    case Int32 => "int32_t"
    case Int64 => "int64_t"
    case UInt8 => "uint8_t"
    case UInt16 => "uint16_t"
    case UInt32 => "uint32_t"
    case UInt64 => "uint64_t"
  }

  function TypeOf(name: string): Option<CType> {
    if name == "bool" then Some(Bool)
    else if name == "int8_t" then Some(Int8)
    else if name == "int16_t" then Some(Int16)
    else if name == "int32_t" then Some(Int32)
    else if name == "int64_t" then Some(Int64)
    else if name == "uint8_t" then Some(UInt8)
    else if name == "uint16_t" then Some(UInt16)
    else if name == "uint32_t" then Some(UInt32)
    else if name == "uint64_t" then Some(UInt64)
    else None
  }

  datatype Cpp =
    | Name(name: string)
    | Lit(v: nat)
    | Negate(e: Cpp)
    | LogicalNot(e: Cpp)
    | Infix(op: Op, l: Cpp, r: Cpp)
    | StaticCast(t: CType, e: Cpp)
    | Extremum(isMax: bool, t: CType, l: Cpp, r: Cpp)       // std::min<t>, std::max<t>

  // ---------------------------------------------------------------- grammar

  /** Binding strength of a binary operator, loosest first; 6 for anything else. */
  function Level(op: Op): nat {
    match op
    case Bar => 0
    case Amp => 1
    case EqEq => 2
    case NotEq => 2
    case Less => 3
    case Greater => 3
    case LessEq => 3
    case GreaterEq => 3
    case Plus => 4
    case Minus => 4
    case Star => 5
    case Slash => 5
    case Percent => 5
    case _ => 6
  }

  predicate AtLevel(ts: seq<Token>, level: nat) {
    ts != [] && ts[0].P? && Level(ts[0].op) == level
  }

  /** Words that are no variables: keywords and alternative tokens of C++, and `std`. */
  predicate IsKeyword(name: string) {
    name == "static_cast" || name == "std" || TypeOf(name).Some? || name in RESERVED
  }

  const RESERVED: seq<string> := [
    "alignas", "alignof", "and", "and_eq", "asm", "auto", "bitand", "bitor", "break", "case", "catch", "char",
    "char16_t", "char32_t", "char8_t", "class", "co_await", "co_return", "co_yield", "compl", "concept", "const",
    "const_cast", "consteval", "constexpr", "constinit", "continue", "decltype", "default", "delete", "do",
    "dynamic_cast", "else", "enum", "explicit", "export", "extern", "false", "float", "for", "friend", "goto", "if",
    "inline", "long", "mutable", "namespace", "new", "noexcept", "not", "not_eq", "nullptr", "operator", "or",
    "or_eq", "private", "protected", "public", "register", "reinterpret_cast", "requires", "return", "short",
    "signed", "sizeof", "static", "static_assert", "struct", "switch", "template", "this", "thread_local", "throw",
    "true", "try", "typedef", "typeid", "typename", "union", "unsigned", "using", "virtual", "void", "volatile",
    "wchar_t", "while", "xor", "xor_eq"]

  predicate Starts(ts: seq<Token>, op: Op) {
    ts != [] && ts[0] == P(op)
  }

  /** `--` operators among the tokens. */
  function Decrements(ts: seq<Token>): nat {
    if ts == [] then 0 else (if ts[0] == P(Decrement) then 1 else 0) + Decrements(ts[1..])
  }

  lemma {:induction false} PassedBy(ts: seq<Token>, n: nat)
    requires n <= |ts| && forall k :: 0 <= k < n ==> ts[k] != P(Decrement)
    ensures Decrements(ts[n..]) == Decrements(ts)
  {
    if n == 0 {
      assert ts[0..] == ts;
    } else {
      PassedBy(ts[1..], n - 1);
      assert ts[1..][n - 1..] == ts[n..];
    }
  }

  /** `< type > (`, as after `static_cast` and `std::min`. */
  function ParseType(ts: seq<Token>): (r: Option<(CType, seq<Token>)>)
    ensures r.Some? ==> |r.value.1| + 4 == |ts| && Decrements(r.value.1) == Decrements(ts)
  {
    if |ts| >= 4 && ts[0] == P(Less) && ts[1].Id? && ts[2] == P(Greater) && ts[3] == P(LParen)
        && TypeOf(ts[1].name).Some?
    then
      PassedBy(ts, 4);
      Some((TypeOf(ts[1].name).value, ts[4..]))
    else None
  }

  function ParsePrimary(ts: seq<Token>): (r: Option<(Cpp, seq<Token>)>)
    ensures r.Some? ==> |r.value.1| < |ts| && Decrements(r.value.1) == Decrements(ts)
    decreases |ts|, 0
  {
    if ts == [] then None
    else match ts[0]
      case Num(v) => Some((Lit(v), ts[1..]))
      case P(op) =>
        if op == LParen then
          match ParseLevel(0, ts[1..])
          case Some((e, rest)) => if Starts(rest, RParen) then Some((e, rest[1..])) else None
          case None => None
        else None
      case Id(name) =>
        if name == "static_cast" then ParseCast(ts[1..])
        else if name == "std" then ParseExtremum(ts[1..])
        else if IsKeyword(name) then None
        else Some((Name(name), ts[1..]))
  }

  function ParseCast(ts: seq<Token>): (r: Option<(Cpp, seq<Token>)>)
    ensures r.Some? ==> |r.value.1| < |ts| && Decrements(r.value.1) == Decrements(ts)
    decreases |ts|, 1
  {
    match ParseType(ts)
    case None => None
    case Some((t, inner)) =>
      match ParseLevel(0, inner)
      case Some((e, rest)) => if Starts(rest, RParen) then Some((StaticCast(t, e), rest[1..])) else None
      case None => None
  }

  function ParseExtremum(ts: seq<Token>): (r: Option<(Cpp, seq<Token>)>)
    ensures r.Some? ==> |r.value.1| < |ts| && Decrements(r.value.1) == Decrements(ts)
    decreases |ts|, 1
  {
    if |ts| >= 2 && ts[0] == P(Scope) && (ts[1] == Id("min") || ts[1] == Id("max")) then
      PassedBy(ts, 2);
      match ParseType(ts[2..])
      case None => None
      case Some((t, inner)) => ParseArguments(ts[1] == Id("max"), t, inner)
    else None
  }

  function ParseArguments(isMax: bool, t: CType, ts: seq<Token>): (r: Option<(Cpp, seq<Token>)>)
    ensures r.Some? ==> |r.value.1| < |ts| && Decrements(r.value.1) == Decrements(ts)
    decreases |ts|, 10
  {
    match ParseLevel(0, ts)
    case None => None
    case Some((l, rest)) =>
      if Starts(rest, Comma) then
        match ParseLevel(0, rest[1..])
        case Some((r, rest')) => if Starts(rest', RParen) then Some((Extremum(isMax, t, l, r), rest'[1..])) else None
        case None => None
      else None
  }

  /** Unary operators bind tighter than any binary one. `--` needs a variable, never a
      literal or a parenthesised value, so it cannot be read here. */
  function ParseUnary(ts: seq<Token>): (r: Option<(Cpp, seq<Token>)>)
    ensures r.Some? ==> |r.value.1| < |ts| && Decrements(r.value.1) == Decrements(ts)
    decreases |ts|, 1
  {
    if Starts(ts, Minus) then
      match ParseUnary(ts[1..])
      case Some((e, rest)) => Some((Negate(e), rest))
      case None => None
    else if Starts(ts, Bang) then
      match ParseUnary(ts[1..])
      case Some((e, rest)) => Some((LogicalNot(e), rest))
      case None => None
    else ParsePrimary(ts)
  }

  /** Operators of one level group to the left; each operand belongs to the next level. */
  function ParseLevel(level: nat, ts: seq<Token>): (r: Option<(Cpp, seq<Token>)>)
    requires level <= 6
    ensures r.Some? ==> |r.value.1| < |ts| && Decrements(r.value.1) == Decrements(ts)
    decreases |ts|, 9 - level
  {
    if level == 6 then ParseUnary(ts)
    else
      match ParseLevel(level + 1, ts)
      case Some((e, rest)) => ParseMore(level, e, rest)
      case None => None
  }

  function ParseMore(level: nat, l: Cpp, ts: seq<Token>): (r: Option<(Cpp, seq<Token>)>)
    requires level < 6
    ensures r.Some? ==> |r.value.1| <= |ts| && Decrements(r.value.1) == Decrements(ts)
    decreases |ts|, 9
  {
    if AtLevel(ts, level) then
      match ParseLevel(level + 1, ts[1..])
      case Some((r, rest)) => ParseMore(level, Infix(ts[0].op, l, r), rest)
      case None => None
    else Some((l, ts))
  }

  /** A whole expression. */
  function Parse(ts: seq<Token>): Option<Cpp> {
    match ParseLevel(0, ts)
    case Some((e, rest)) => if rest == [] then Some(e) else None
    case None => None
  }

  /** Reads text as C++. */
  function ReadCpp(s: string): Option<Cpp> {
    match Lex(s)
    case Some(ts) => Parse(ts)
    case None => None
  }

  // ---------------------------------------------------------------- evaluation

  function Bits(t: CType): nat {
    match t
    case Bool => 1
    case Int8 => 8
    case UInt8 => 8
    case Int16 => 16
    case UInt16 => 16
    case Int32 => 32
    case UInt32 => 32
    case _ => 64
  }

  predicate IsSigned(t: CType) {
    t == Int8 || t == Int16 || t == Int32 || t == Int64
  }

  function Pow2(n: nat): (p: int)
    ensures p > 0
  {
    if n == 0 then 1 else 2 * Pow2(n - 1)
  }

  predicate Fits(t: CType, v: int) {
    if IsSigned(t) then -Pow2(Bits(t) - 1) <= v < Pow2(Bits(t) - 1) else 0 <= v < Pow2(Bits(t))
  }

  /** Conversion to an integer type takes the value in range that is congruent modulo the
      type's size; conversion to `bool` asks whether the value is not zero. */
  function Convert(t: CType, v: int): (w: int)
    ensures Fits(t, w) && (Fits(t, v) ==> w == v)
  {
    if t == Bool then (if v == 0 then 0 else 1)
    else
      var m := Pow2(Bits(t));
      var least := if IsSigned(t) then Pow2(Bits(t) - 1) else 0;
      Remainder(v + least, m);
      (v + least) % m - least
  }

  lemma Remainder(v: int, m: int)
    requires m > 0
    ensures 0 <= v % m < m && (0 <= v < m ==> v % m == v)
  {
  }

  /** Lowest value and number of values of the integer types. */
  function RangeOf(t: CType): (int, int)
    requires t != Bool
  {
    match t
    case Int8 => (-0x80, 0x100)
    case Int16 => (-0x8000, 0x1_0000)
    case Int32 => (-0x8000_0000, 0x1_0000_0000)
    case Int64 => (-0x8000_0000_0000_0000, 0x1_0000_0000_0000_0000)
    case UInt8 => (0, 0x100)
    case UInt16 => (0, 0x1_0000)
    case UInt32 => (0, 0x1_0000_0000)
    case UInt64 => (0, 0x1_0000_0000_0000_0000)
  }

  lemma Powers()
    ensures Pow2(7) == 0x80 && Pow2(8) == 0x100 && Pow2(15) == 0x8000 && Pow2(16) == 0x1_0000
    ensures Pow2(31) == 0x8000_0000 && Pow2(32) == 0x1_0000_0000
  {
    assert Pow2(12) == 0x1000 && Pow2(20) == 0x10_0000 && Pow2(24) == 0x100_0000 && Pow2(28) == 0x1000_0000;
  }

  lemma LargePowers()
    ensures Pow2(63) == 0x8000_0000_0000_0000 && Pow2(64) == 0x1_0000_0000_0000_0000
  {
    Powers();
    assert Pow2(40) == 0x100_0000_0000 && Pow2(48) == 0x1_0000_0000_0000 && Pow2(56) == 0x100_0000_0000_0000;
  }

  lemma RangeIs(t: CType)
    requires t != Bool
    ensures RangeOf(t) == (if IsSigned(t) then -Pow2(Bits(t) - 1) else 0, Pow2(Bits(t)))
  {
    Powers();
    LargePowers();
  }

  /** The converted value is the one in the type's range that is congruent modulo the number
      of its values; a truth value is 1 for all but zero. */
  lemma ConvertExactly(t: CType, v: int, w: int)
    ensures t == Bool ==> Convert(t, v) == if v == 0 then 0 else 1
    ensures t != Bool ==>
              var (least, size) := RangeOf(t);
              Convert(t, v) == w <==> least <= w < least + size && (w - v) % size == 0
  {
    if t != Bool {
      RangeIs(t);
      var (least, size) := RangeOf(t);
      CongruentOnce(v, w, least, size, Convert(t, v));
    }
  }

  lemma CongruentOnce(v: int, w: int, least: int, size: int, c: int)
    requires size > 0 && c == (v - least) % size + least
    ensures c == w <==> least <= w < least + size && (w - v) % size == 0
  {
    var q := (v - least) / size;
    assert v - least == size * q + (c - least);
    assert w - v == (w - c) - size * q;
    MultipleLess(w - c, q, size);
    if least <= w < least + size && (w - v) % size == 0 {
      SmallMultiple(w - c, size);
    }
  }

  lemma MultipleLess(x: int, q: int, size: int)
    requires size > 0
    ensures (x - size * q) % size == 0 <==> x % size == 0
  {
    var a := x / size;
    if x % size == 0 {
      assert x == size * a && x - size * q == size * (a - q);
      Multiple(a - q, size);
    }
    if (x - size * q) % size == 0 {
      var b := (x - size * q) / size;
      assert x == size * (b + q);
      Multiple(b + q, size);
    }
  }

  lemma Multiple(a: int, size: int)
    requires size > 0
    ensures (size * a) % size == 0
  {
    DivUnique(size * a, size, a, 0);
  }

  lemma SmallMultiple(x: int, size: int)
    requires size > 0 && -size < x < size && x % size == 0
    ensures x == 0
  {
    var a := x / size;
    assert x == size * a;
    Grows(a, size);
  }

  /** C++ division truncates toward zero. */
  function TruncDiv(a: int, b: int): int
    requires b != 0
  {
    if (a < 0) == (b < 0) then (if a < 0 then (-a) / (-b) else a / b)
    else (if a < 0 then -((-a) / b) else -(a / (-b)))
  }

  function Truth(b: bool): int {
    if b then 1 else 0
  }

  /** A binary operator on values; None where C++ leaves the result undefined, and for bit
      operators on anything but truth values, which no printed expression applies. */
  function Operate(op: Op, a: int, b: int): Option<int> {
    match op
    case Plus => Some(a + b)
    case Minus => Some(a - b)
    case Star => Some(a * b)
    case Slash => if b == 0 then None else Some(TruncDiv(a, b))
    case Percent => if b == 0 then None else Some(a - b * TruncDiv(a, b))
    case EqEq => Some(Truth(a == b))
    case NotEq => Some(Truth(a != b))
    case Less => Some(Truth(a < b))
    case LessEq => Some(Truth(a <= b))
    case Greater => Some(Truth(a > b))
    case GreaterEq => Some(Truth(a >= b))
    case Amp => if 0 <= a <= 1 && 0 <= b <= 1 then Some(if a == 1 then b else 0) else None
    case Bar => if 0 <= a <= 1 && 0 <= b <= 1 then Some(if a == 1 then 1 else b) else None
    case _ => None
  }

  function Evaluate(e: Cpp, env: string -> int): Option<int> {
    match e
    case Name(x) => Some(env(x))
    case Lit(v) => Some(v)
    case Negate(e) =>
      (match Evaluate(e, env)
       case Some(v) => Some(-v)
       case None => None)
    case LogicalNot(e) =>
      (match Evaluate(e, env)
       case Some(v) => Some(Truth(v == 0))
       case None => None)
    case Infix(op, l, r) =>
      (match (Evaluate(l, env), Evaluate(r, env))
       case (Some(a), Some(b)) => Operate(op, a, b)
       case _ => None)
    case StaticCast(t, e) =>
      (match Evaluate(e, env)
       case Some(v) => Some(Convert(t, v))
       case None => None)
    case Extremum(isMax, t, l, r) =>
      (match (Evaluate(l, env), Evaluate(r, env))
       case (Some(a), Some(b)) =>
         var (x, y) := (Convert(t, a), Convert(t, b));
         Some(if (x < y) == isMax then y else x)
       case _ => None)
  }
}
