/** Bytes, and the fixed-width integers that the formats in this project are made of. */
module Bytes {

  type Byte = x: int | 0 <= x < 256

  /** `2^(8n)`. */
  function Pow256(n: nat): (p: nat)
    ensures p > 0
  {
    if n == 0 then 1 else 256 * Pow256(n - 1)
  }

  /** Big-endian bytes of `v`, low `n` bytes. */
  function BigEndian(v: nat, n: nat): (b: seq<Byte>)
    ensures |b| == n
  {
    if n == 0 then [] else BigEndian(v / 256, n - 1) + [v % 256]
  }

  /** Little-endian bytes of `v`, low `n` bytes. */
  function LittleEndian(v: nat, n: nat): (b: seq<Byte>)
    ensures |b| == n
  {
    if n == 0 then [] else [v % 256] + LittleEndian(v / 256, n - 1)
  }

  function FromBigEndian(b: seq<Byte>): nat {
    if b == [] then 0 else 256 * FromBigEndian(b[..|b| - 1]) + b[|b| - 1]
  }

  function FromLittleEndian(b: seq<Byte>): nat {
    if b == [] then 0 else b[0] + 256 * FromLittleEndian(b[1..])
  }

  lemma {:induction false} BigEndianInverse(v: nat, n: nat)
    requires v < Pow256(n)
    ensures FromBigEndian(BigEndian(v, n)) == v
  {
    if n > 0 {
      BigEndianInverse(v / 256, n - 1);
      assert BigEndian(v, n)[..n - 1] == BigEndian(v / 256, n - 1);
    }
  }

  lemma {:induction false} LittleEndianInverse(v: nat, n: nat)
    requires v < Pow256(n)
    ensures FromLittleEndian(LittleEndian(v, n)) == v
  {
    if n > 0 {
      LittleEndianInverse(v / 256, n - 1);
      assert LittleEndian(v, n)[1..] == LittleEndian(v / 256, n - 1);
    }
  }

  /** An unsigned field in either byte order. */
  function UInt(b: seq<Byte>, little: bool): nat {
    if little then FromLittleEndian(b) else FromBigEndian(b)
  }

  /** Equal streams with equal leading fields have equal rests. */
  lemma SplitEqual(a: seq<Byte>, b: seq<Byte>, a': seq<Byte>, b': seq<Byte>)
    requires a + a' == b + b' && |a| == |b|
    ensures a == b && a' == b'
  {
    assert (a + a')[..|a|] == a && (b + b')[..|b|] == b;
    assert (a + a')[|a|..] == a' && (b + b')[|b|..] == b';
  }

  lemma SliceOfSlice(f: seq<Byte>, a: nat, b: nat, lo: nat, hi: nat)
    requires lo <= hi && a + hi <= b <= |f|
    ensures f[a..b][lo..hi] == f[a + lo..a + hi]
  {
    forall k | 0 <= k < hi - lo
      ensures f[a..b][lo..hi][k] == f[a + lo..a + hi][k]
    {
      assert f[a..b][lo + k] == f[a + (lo + k)];
    }
  }

  lemma Parts(a: seq<Byte>, b: seq<Byte>, c: seq<Byte>, d: seq<Byte>, s: seq<Byte>)
    requires s == a + b + c + d
    ensures |s| == |a| + |b| + |c| + |d| && s[..|a|] == a && s[|a|..|a| + |b|] == b
    ensures s[|a| + |b|..|a| + |b| + |c|] == c && s[|a| + |b| + |c|..] == d
  {
  }
}
