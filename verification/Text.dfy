/** The leaf encodings of an identity record: decimal integers, hexadecimal bytes, and
    UTF-8 that lets lone surrogates through. Each with the decoder that inverts it. */
module Text {
  import opened Options
  import opened Bytes

  // ---------------------------------------------------------------- decimal

  function Digit(d: nat): char
    requires d < 10
  {
    "0123456789"[d]
  }

  function DigitValue(c: char): Option<nat> {
    if '0' <= c <= '9' then Some((c - '0') as nat) else None
  }

  /** `str(n)` for a non-negative integer. */
  function Decimal(n: nat): (s: string)
    ensures s != ""
  {
    if n < 10 then [Digit(n)] else Decimal(n / 10) + [Digit(n % 10)]
  }

  /** `str(i)`. */
  function ShowInt(i: int): string {
    if i < 0 then "-" + Decimal(-i) else Decimal(i)
  }

  function ReadNat(s: string): Option<nat> {
    if s == "" then Some(0)
    else match (ReadNat(s[..|s| - 1]), DigitValue(s[|s| - 1]))
      case (Some(n), Some(d)) => Some(10 * n + d)
      case _ => None
  }

  function ReadInt(s: string): Option<int> {
    if s != "" && s[0] == '-' then
      match ReadNat(s[1..])
      case Some(n) => var i: int := n; Some(0 - i)
      case None => None
    else
      match ReadNat(s)
      case Some(n) => Some(n)
      case None => None
  }

  lemma {:induction false} DecimalDigits(n: nat)
    ensures forall k :: 0 <= k < |Decimal(n)| ==> '0' <= Decimal(n)[k] <= '9'
  {
    if n >= 10 {
      DecimalDigits(n / 10);
    }
  }

  lemma ReadNatStep(s: string, n: nat, d: nat)
    requires d < 10 && ReadNat(s) == Some(n)
    ensures ReadNat(s + [Digit(d)]) == Some(10 * n + d)
  {
  }

  lemma {:induction false} DecimalInverse(n: nat)
    ensures ReadNat(Decimal(n)) == Some(n)
  {
    if n < 10 {
      ReadNatStep("", 0, n);
      assert "" + [Digit(n)] == Decimal(n);
    } else {
      DecimalInverse(n / 10);
      ReadNatStep(Decimal(n / 10), n / 10, n % 10);
    }
  }

  lemma ShowIntInverse(i: int)
    ensures ReadInt(ShowInt(i)) == Some(i)
    ensures forall k :: 0 <= k < |ShowInt(i)| ==> ShowInt(i)[k] == '-' || '0' <= ShowInt(i)[k] <= '9'
  {
    DecimalInverse(if i < 0 then -i else i);
    DecimalDigits(if i < 0 then -i else i);
    if i < 0 {
      assert ShowInt(i)[1..] == Decimal(-i);
    }
  }

  // ---------------------------------------------------------------- hexadecimal

  const HEX := "0123456789abcdef"

  function HexValue(c: char): Option<nat> {
    if '0' <= c <= '9' then Some((c - '0') as nat)
    else if 'a' <= c <= 'f' then Some(10 + (c - 'a') as nat)
    else None
  }

  /** `bytes.hex()`. */
  function Hex(b: seq<Byte>): (s: string)
    ensures |s| == 2 * |b|
  {
    if b == [] then "" else [HEX[b[0] / 16], HEX[b[0] % 16]] + Hex(b[1..])
  }

  function Unhex(s: string): Option<seq<Byte>> {
    if s == "" then Some([])
    else if |s| < 2 then None
    else match (HexValue(s[0]), HexValue(s[1]), Unhex(s[2..]))
      case (Some(h), Some(l), Some(rest)) => Some([16 * h + l] + rest)
      case _ => None
  }

  lemma HexDigitInverse(d: nat)
    requires d < 16
    ensures HexValue(HEX[d]) == Some(d) && ('0' <= HEX[d] <= '9' || 'a' <= HEX[d] <= 'f')
  {
  }

  lemma UnhexStep(x: Byte, s: string, b: seq<Byte>)
    requires Unhex(s) == Some(b)
    ensures Unhex([HEX[x / 16], HEX[x % 16]] + s) == Some([x] + b)
  {
    HexDigitInverse(x / 16);
    HexDigitInverse(x % 16);
    assert ([HEX[x / 16], HEX[x % 16]] + s)[2..] == s;
  }

  lemma {:induction false} HexDigits(b: seq<Byte>)
    ensures forall k :: 0 <= k < |Hex(b)| ==> '0' <= Hex(b)[k] <= '9' || 'a' <= Hex(b)[k] <= 'f'
  {
    if b != [] {
      HexDigits(b[1..]);
      HexDigitInverse(b[0] / 16);
      HexDigitInverse(b[0] % 16);
    }
  }

  lemma {:induction false} HexInverse(b: seq<Byte>)
    ensures Unhex(Hex(b)) == Some(b)
  {
    if b != [] {
      HexInverse(b[1..]);
      UnhexStep(b[0], Hex(b[1..]), b[1..]);
      assert [b[0]] + b[1..] == b;
    }
  }

  // ---------------------------------------------------------------- UTF-8, surrogates let through

  /** A Python string element: any code point, lone surrogates included. */
  type CodePoint = x: int | 0 <= x < 0x110000

  /** One code point in the bit layout of section 3 of RFC 3629, six bits to a trailing
      byte, without its exclusion of the surrogates (`errors="surrogatepass"`). */
  function Utf8(c: CodePoint): (b: seq<Byte>)
    ensures 1 <= |b| <= 4
  {
    var c1 := c / 0x40;
    var c2 := c1 / 0x40;
    var c3 := c2 / 0x40;
    if c < 0x80 then [c]
    else if c < 0x800 then [0xC0 + c1, 0x80 + c % 0x40]
    else if c < 0x10000 then [0xE0 + c2, 0x80 + c1 % 0x40, 0x80 + c % 0x40]
    else [0xF0 + c3, 0x80 + c2 % 0x40, 0x80 + c1 % 0x40, 0x80 + c % 0x40]
  }

  function EncodeUtf8(s: seq<CodePoint>): seq<Byte> {
    if s == [] then [] else Utf8(s[0]) + EncodeUtf8(s[1..])
  }

  /** Length of a sequence by its first byte; 0 if no sequence starts so. */
  function LeadLength(b: Byte): (n: nat)
    ensures n <= 4
  {
    if b < 0x80 then 1 else if b < 0xC0 then 0 else if b < 0xE0 then 2 else if b < 0xF0 then 3 else if b < 0xF8 then 4
        else 0
  }

  /** The bits a sequence spells. */
  function Spelled(b: seq<Byte>): int
    requires 1 <= |b| <= 4
  {
    var lead: int := b[0];
    if |b| == 1 then lead
    else if |b| == 2 then 0x40 * (lead - 0xC0) + Low(b[1])
    else if |b| == 3 then 0x40 * (0x40 * (lead - 0xE0) + Low(b[1])) + Low(b[2])
    else 0x40 * (0x40 * (0x40 * (lead - 0xF0) + Low(b[1])) + Low(b[2])) + Low(b[3])
  }

  /** The six bits of a trailing byte. */
  function Low(b: int): int { b - 0x80 }

  function DecodeUtf8(b: seq<Byte>): Option<seq<CodePoint>>
    decreases |b|
  {
    if b == [] then Some([])
    else
      var n := LeadLength(b[0]);
      if n == 0 || |b| < n then None
      else
        var c := Spelled(b[..n]);
        match DecodeUtf8(b[n..])
        case Some(rest) => if 0 <= c < 0x110000 then Some([c] + rest) else None
        case None => None
  }

  lemma Utf8Spells(c: CodePoint)
    ensures Spelled(Utf8(c)) == c && LeadLength(Utf8(c)[0]) == |Utf8(c)|
  {
  }

  /** Every Python string survives, lone surrogates and non-BMP characters included. */
  lemma {:induction false} Utf8Inverse(s: seq<CodePoint>)
    ensures DecodeUtf8(EncodeUtf8(s)) == Some(s)
  {
    if s != [] {
      Utf8Spells(s[0]);
      Utf8Inverse(s[1..]);
      var b, n := EncodeUtf8(s), |Utf8(s[0])|;
      assert b[..n] == Utf8(s[0]) && b[n..] == EncodeUtf8(s[1..]);
      assert [s[0]] + s[1..] == s;
    }
  }

  predicate Trailing(b: Byte) {
    0x80 <= b < 0xC0
  }

  /** The bytes of a spelling as plain numbers. */
  function Nth(b: seq<Byte>, k: nat): int
    requires k < |b|
  {
    b[k]
  }

  /** RFC 3629, section 3: the lead byte says how many bytes follow, and the bits left of it
      and six of each trailing byte spell the code point, in the fewest bytes. */
  lemma Utf8Spelled(c: CodePoint)
    ensures var b := Utf8(c);
            && (c < 0x80 ==> b == [c])
            && (0x80 <= c < 0x800 ==>
                  && |b| == 2 && 0xC0 <= b[0] < 0xE0 && Trailing(b[1]) && c + 0x3080 == 0x40 * Nth(b, 0) + Nth(b, 1))
            && (0x800 <= c < 0x10000 ==>
                  && |b| == 3 && 0xE0 <= b[0] < 0xF0 && Trailing(b[1]) && Trailing(b[2])
                  && c + 0xE2080 == 0x1000 * Nth(b, 0) + 0x40 * Nth(b, 1) + Nth(b, 2))
            && (0x10000 <= c ==>
                  && |b| == 4 && 0xF0 <= b[0] < 0xF8 && Trailing(b[1]) && Trailing(b[2]) && Trailing(b[3])
                  && c + 0x3C82080 == 0x40000 * Nth(b, 0) + 0x1000 * Nth(b, 1) + 0x40 * Nth(b, 2) + Nth(b, 3))
  {
  }
}
