/** Paging arithmetic: which tokens a group of blocks covers, and the cache rows they are in. */
module Paging {
  import opened Arithmetic
  import opened OnlineSoftmax
  import opened PagedAttention

  /** `(n + k - 1) // k`. */
  function CeilDiv(n: nat, k: nat): (q: nat)
    requires k > 0
    ensures n <= q * k && (n > 0 ==> q > 0 && (q - 1) * k < n)
    ensures n == 0 ==> q == 0
  {
    DivBounds(n + k - 1, k);
    DivModAt(0, k, k - 1);
    (n + k - 1) / k
  }

  // ---------------------------------------------------------------- groups

  /** `n_blocks` blocks from block `bn`, all full but possibly the last of the sequence. */
  ghost predicate IsGroup(cur: nat, bs: nat, bn: nat, nBlocks: nat, lastValid: int)
    requires bs > 0
  {
    && 0 < nBlocks && bn + nBlocks <= CeilDiv(cur, bs)
    && lastValid == Min(bs, cur - (bn + nBlocks - 1) * bs)
  }

  /** Where the last block of a group stands against the end of the sequence. */
  lemma LastBlock(cur: nat, bs: nat, last: nat)
    requires bs > 0 && last < CeilDiv(cur, bs)
    ensures last * bs < cur
    ensures last + 1 < CeilDiv(cur, bs) ==> last * bs + bs < cur
    ensures last + 1 == CeilDiv(cur, bs) ==> cur <= last * bs + bs
  {
    var total := CeilDiv(cur, bs);
    MulLe(last, total - 1, bs);
    MulStep(last, bs);
    if last + 1 < total {
      MulLe(last + 1, total - 1, bs);
    }
  }

  /** A group covers the tokens from where the previous one stopped up to the next block
      boundary, or to the end of the sequence when it is the last: none missed, none
      twice, and only the last block of the sequence is partial. */
  lemma GroupSpan(cur: nat, bs: nat, bn: nat, nBlocks: nat, lastValid: int)
    requires bs > 0 && IsGroup(cur, bs, bn, nBlocks, lastValid)
    ensures 0 < lastValid <= bs
    ensures EndOf(bn * bs, nBlocks, nBlocks, bs, lastValid) == if bn + nBlocks == CeilDiv(cur, bs) then cur
      else (bn + nBlocks) * bs
    ensures bn * bs < EndOf(bn * bs, nBlocks, nBlocks, bs, lastValid) <= cur
    ensures bn + nBlocks < CeilDiv(cur, bs) ==> lastValid == bs
  {
    var last := bn + nBlocks - 1;
    LastBlock(cur, bs, last);
    BlockStartIs(bn * bs, nBlocks - 1, bs);
    MulSum(bn, nBlocks - 1, bs);
    MulLe(bn, last, bs);
    MulStep(last, bs);
  }

  // ---------------------------------------------------------------- the block table

  /** The view of `pl.slice(block_table, [n], [offset])`: clamped to the table's extent. */
  function ClampedSlice(table: seq<nat>, offset: nat, n: nat): (view: seq<nat>)
    ensures |view| <= n
    ensures forall i :: 0 <= i < n && offset + i < |table| ==> i < |view| && view[i] == table[offset + i]
  {
    if offset >= |table| then [] else table[offset..Min(offset + n, |table|)]
  }

  /** The cache row of token `t` of request `b`: block `t / bs` of the request's table
      row, slot `t % bs` of that block. */
  ghost function TokenRow(table: seq<nat>, blockNum: nat, bs: nat, b: nat): int -> int
    requires bs > 0
  {
    t =>
      var entry := b * blockNum + (if t < 0 then 0 else t / bs);
      if 0 <= entry < |table| then table[entry] * bs + (if t < 0 then 0 else t % bs) else -1
  }

  ghost predicate PageCell(at: int -> int, first: int, pos: int, c: int) {
    at(pos + c) == first + c
  }

  /** Tokens `pos, pos+1, ..` of a request are the cache rows `first, first+1, ..`. */
  ghost predicate Page(at: int -> int, first: int, pos: int, valid: nat) {
    forall c :: 0 <= c < valid ==> PageCell(at, first, pos, c)
  }

  /** The table row of request `b` names enough whole blocks of the pool. */
  ghost predicate TableOk(table: seq<nat>, blockNum: nat, bs: nat, poolRows: nat, b: nat, cur: nat) {
    && cur <= blockNum * bs
    && (b + 1) * blockNum <= |table|
    && forall i :: 0 <= i < |table| ==> (table[i] + 1) * bs <= poolRows
  }

  /** Entry `i` of a group's slice exists and names a whole block of the pool, the page
      of the block's tokens. */
  ghost predicate PageEntry(at: int -> int, view: seq<nat>, i: nat, bs: nat, base: int, poolRows: nat) {
    && i < |view|
    && view[i] * bs + bs <= poolRows
    && Page(at, view[i] * bs, BlockStart(base, i, bs), bs)
  }

  /** Every block a group reads. */
  ghost predicate Pages(at: int -> int, view: seq<nat>, nBlocks: nat, bs: nat, base: int, poolRows: nat) {
    forall i: nat :: i < nBlocks ==> PageEntry(at, view, i, bs, base, poolRows)
  }

  lemma TokenRowAt(table: seq<nat>, blockNum: nat, bs: nat, b: nat, blk: nat, c: nat)
    requires c < bs && b * blockNum + blk < |table|
    ensures TokenRow(table, blockNum, bs, b)(blk * bs + c) == table[b * blockNum + blk] * bs + c
  {
    DivModAt(blk, bs, c);
  }

  lemma EntryInside(table: seq<nat>, blockNum: nat, bs: nat, poolRows: nat, b: nat, cur: nat, blk: nat)
    requires bs > 0 && TableOk(table, blockNum, bs, poolRows, b, cur) && blk < CeilDiv(cur, bs)
    ensures blk < blockNum && b * blockNum + blk < |table|
    ensures table[b * blockNum + blk] * bs + bs <= poolRows
  {
    if blockNum <= blk {
      MulLe(blockNum, CeilDiv(cur, bs) - 1, bs);
    }
    MulStep(b, blockNum);
    MulStep(table[b * blockNum + blk], bs);
  }

  /** The entry of block `blk` of the request is the page of its tokens. */
  lemma EntryIsPage(table: seq<nat>, blockNum: nat, bs: nat, b: nat, blk: nat)
    requires bs > 0 && b * blockNum + blk < |table|
    ensures Page(TokenRow(table, blockNum, bs, b), table[b * blockNum + blk] * bs, blk * bs, bs)
  {
    var at, first, pos := TokenRow(table, blockNum, bs, b), table[b * blockNum + blk] * bs, blk * bs;
    forall c | 0 <= c < bs
      ensures PageCell(at, first, pos, c)
    {
      TokenRowAt(table, blockNum, bs, b, blk, c);
    }
  }

  lemma ViewAt(table: seq<nat>, offset: nat, n: nat, i: nat)
    requires i < n && offset + i < |table|
    ensures i < |ClampedSlice(table, offset, n)| && ClampedSlice(table, offset, n)[i] == table[offset + i]
  {
  }

  /** Every entry a group reads lies inside the clamped slice and inside the request's own
      table row, and block `i` of the group is the page of its tokens. */
  lemma GroupLookup(table: seq<nat>, blockNum: nat, bs: nat, poolRows: nat, b: nat, cur: nat, bn: nat, nBlocks: nat,
      nUnroll: nat, i: nat)
    requires bs > 0 && TableOk(table, blockNum, bs, poolRows, b, cur)
    requires i < nBlocks <= nUnroll && bn + nBlocks <= CeilDiv(cur, bs)
    ensures var view := ClampedSlice(table, b * blockNum + bn, nUnroll);
            && bn + i < blockNum && i < |view| && b * blockNum + bn + i < |table|
                && view[i] == table[b * blockNum + bn + i]
            && PageEntry(TokenRow(table, blockNum, bs, b), view, i, bs, bn * bs, poolRows)
  {
    EntryInside(table, blockNum, bs, poolRows, b, cur, bn + i);
    EntryIsPage(table, blockNum, bs, b, bn + i);
    ViewAt(table, b * blockNum + bn, nUnroll, i);
    BlockStartIs(bn * bs, i, bs);
    MulSum(bn, i, bs);
  }

  lemma GroupPages(table: seq<nat>, blockNum: nat, bs: nat, poolRows: nat, b: nat, cur: nat, bn: nat, nBlocks: nat,
      nUnroll: nat)
    requires bs > 0 && TableOk(table, blockNum, bs, poolRows, b, cur)
    requires 0 < nBlocks <= nUnroll && bn + nBlocks <= CeilDiv(cur, bs)
    ensures Pages(TokenRow(table, blockNum, bs, b), ClampedSlice(table, b * blockNum + bn, nUnroll), nBlocks, bs,
      bn * bs, poolRows)
  {
    var at, view, base := TokenRow(table, blockNum, bs, b), ClampedSlice(table, b * blockNum + bn, nUnroll), bn * bs;
    forall i: nat | i < nBlocks
      ensures PageEntry(at, view, i, bs, base, poolRows)
    {
      GroupLookup(table, blockNum, bs, poolRows, b, cur, bn, nBlocks, nUnroll, i);
    }
  }

  /** Every token of the sequence has a place: a group, a block of it, a column. */
  lemma TokenHasPlace(cur: nat, bs: nat, nUnroll: nat, t: nat)
    requires bs > 0 && nUnroll > 0 && t < cur
    ensures var blk, bn := t / bs, t / bs / nUnroll * nUnroll;
            && bn <= blk < bn + nUnroll && blk < CeilDiv(cur, bs)
            && t == blk * bs + t % bs && t % bs < bs
  {
    var blk := t / bs;
    DivBounds(t, bs);
    DivBounds(blk, nUnroll);
    if CeilDiv(cur, bs) <= blk { MulLe(CeilDiv(cur, bs), blk, bs); }
  }

  /** And no other: groups start at multiples of the unroll width, so the place
      determines itself from the position. */
  lemma PlaceIsUnique(bs: nat, nUnroll: nat, k: nat, i: nat, c: nat)
    requires i < nUnroll && c < bs
    ensures var t := (k * nUnroll + i) * bs + c;
            && k * nUnroll == t / bs / nUnroll * nUnroll && i == t / bs - k * nUnroll && c == t % bs
  {
    DivModAt(k * nUnroll + i, bs, c);
    DivModAt(k, nUnroll, i);
  }
}
