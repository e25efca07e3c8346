/** `_elf_debug_ranges` of python/pypto/_identity.py: which byte ranges of an ELF64 file
    hold debug payload that may be left out of the content hash. The field layout is
    that of the System V gABI, chapter 4 "Object Files" and chapter 5, program header. */
module Elf {
  import opened Arithmetic
  import opened Options
  import opened Bytes

  type Range = (nat, nat)

  function Field(b: seq<Byte>, offset: nat, n: nat, little: bool): nat
    requires offset + n <= |b|
  {
    UInt(b[offset..offset + n], little)
  }

  /** A declared byte range lies inside the file. */
  predicate InFile(offset: nat, size: nat, length: nat) {
    offset <= length && size <= length - offset
  }

  // ---------------------------------------------------------------- header

  const MAGIC: seq<Byte> := [0x7f, 0x45, 0x4c, 0x46]

  datatype Header = Header(little: bool, phoff: nat, phnum: nat, shoff: nat, shnum: nat, names: nat)

  /** What the 64 header bytes must say for the file to be analysed at all. */
  function ParseHeader(head: seq<Byte>, length: nat): Option<Header> {
    if |head| != 64 || head[..4] != MAGIC || head[4] != 2 || head[5] !in {1, 2} || head[6] != 1 then None else
    var little := head[5] == 1;
    var kind, version := Field(head, 16, 2, little), Field(head, 20, 4, little);
    var phoff, shoff := Field(head, 32, 8, little), Field(head, 40, 8, little);
    var ehsize, phsize, phnum := Field(head, 52, 2, little), Field(head, 54, 2, little), Field(head, 56, 2, little);
    var shsize, shnum, names := Field(head, 58, 2, little), Field(head, 60, 2, little), Field(head, 62, 2, little);
    if kind !in {1, 2, 3} || version != 1 || ehsize != 64 || shsize != 64
       || !(0 < names < shnum < 0xFF00) || shoff < 64 || phnum == 0xFFFF
       || (phnum != 0 && (phsize != 56 || phoff < 64)) || (phnum == 0 && phoff != 0) then None
    else if !InFile(shoff, shsize * shnum, length) || !InFile(phoff, phsize * phnum, length) then None
    else Some(Header(little, phoff, phnum, shoff, shnum, names))
  }

  /** What every accepted header guarantees. */
  ghost predicate HeaderOk(h: Header, length: nat) {
    && 0 < h.names < h.shnum < 0xFF00
    && 64 <= length && 64 <= h.shoff && h.shoff + 64 * h.shnum <= length
    && (h.phnum > 0 ==> 64 <= h.phoff) && h.phoff + 56 * h.phnum <= length
  }

  lemma ParsedHeaderOk(head: seq<Byte>, length: nat)
    requires ParseHeader(head, length).Some? && |head| <= length
    ensures HeaderOk(ParseHeader(head, length).value, length)
  {
  }

  // ---------------------------------------------------------------- sections

  datatype Section = Section(name: nat, kind: nat, flags: nat, offset: nat, size: nat)

  function SectionAt(table: seq<Byte>, i: nat, little: bool): Section
    requires 64 * i + 64 <= |table|
  {
    var e := table[64 * i..64 * i + 64];
    Section(Field(e, 0, 4, little), Field(e, 4, 4, little), Field(e, 8, 8, little), Field(e, 24, 8, little),
        Field(e, 32, 8, little))
  }

  /** `struct.iter_unpack` of the section table. */
  function Unpack(table: seq<Byte>, n: nat, little: bool): (sections: seq<Section>)
    requires 64 * n <= |table|
    ensures |sections| == n && forall i :: 0 <= i < n ==> sections[i] == SectionAt(table, i, little)
  {
    seq(n, i requires 0 <= i < n && 64 * n <= |table| => SectionAt(table, i, little))
  }

  /** `raw_name.find(b"\0")`, from position `i` on: the first zero byte, or `|b|` when there
      is none. */
  function FindZero(b: seq<Byte>, i: nat): (k: nat)
    requires i <= |b|
    ensures i <= k <= |b| && (k < |b| ==> b[k] == 0) && forall j :: i <= j < k ==> b[j] != 0
    decreases |b| - i
  {
    if i == |b| || b[i] == 0 then i else FindZero(b, i + 1)
  }

  /** A section name: at most 256 bytes are read, and a zero must end it there. */
  function NameAt(names: seq<Byte>, name: nat): Option<seq<Byte>>
    requires name < |names|
  {
    var raw := names[name..name + Min(256, |names| - name)];
    var end := FindZero(raw, 0);
    if end == |raw| then None else Some(raw[..end])
  }

  // The names in ASCII.
  const DEBUG: seq<Byte> := [0x2e, 0x64, 0x65, 0x62, 0x75, 0x67]   // .debug
  const ZDEBUG: seq<Byte> := [0x2e, 0x7a, 0x64, 0x65, 0x62, 0x75, 0x67]   // .zdebug
  const COMMENT: seq<Byte> := [0x2e, 0x63, 0x6f, 0x6d, 0x6d, 0x65, 0x6e, 0x74]   // .comment
  const GNU_DEBUGLINK: seq<Byte> := [0x2e, 0x67, 0x6e, 0x75, 0x5f, 0x64, 0x65, 0x62, 0x75, 0x67, 0x6c, 0x69, 0x6e,
      0x6b]   // .gnu_debuglink
  const DEBUG_PREFIX: seq<Byte> := [0x2e, 0x64, 0x65, 0x62, 0x75, 0x67, 0x5f]   // .debug_
  const ZDEBUG_PREFIX: seq<Byte> := [0x2e, 0x7a, 0x64, 0x65, 0x62, 0x75, 0x67, 0x5f]   // .zdebug_

  const DEBUG_NAMES := [DEBUG, ZDEBUG, COMMENT, GNU_DEBUGLINK]
  const DEBUG_PREFIXES := [DEBUG_PREFIX, ZDEBUG_PREFIX]

  /** The names of sections that only a debugger reads. */
  datatype NameRule = NameRule(exact: seq<seq<Byte>>, prefixes: seq<seq<Byte>>)
  {
    predicate IsDebugName(name: seq<Byte>) {
      name in exact || StartsWithAny(prefixes, name)
    }
  }

  /** `name.startswith(prefixes)`. */
  predicate StartsWithAny(prefixes: seq<seq<Byte>>, name: seq<Byte>) {
    prefixes != [] && (prefixes[0] <= name || StartsWithAny(prefixes[1..], name))
  }

  /** What the section loop reads. */
  datatype Tables = Tables(h: Header, sections: seq<Section>, names: seq<Byte>, length: nat, rule: NameRule)
  {
    ghost predicate Ok() {
      && HeaderOk(h, length) && |sections| == h.shnum && |names| > 0
      && sections[h.names].kind == 3 && sections[h.names].size == |names|
      && InFile(sections[h.names].offset, sections[h.names].size, length)
    }
    ghost function NamesRange(): Range
      requires Ok()
    {
      (sections[h.names].offset, sections[h.names].offset + sections[h.names].size)
    }
    /** The ranges occupied before any section is looked at. */
    function Fixed(): seq<Range> {
      [(0, 64), (h.shoff, h.shoff + 64 * h.shnum)] + if h.phnum > 0 then [(h.phoff, h.phoff + 56 * h.phnum)] else []
    }
  }

  datatype Scan = Scan(occupied: seq<Range>, skipped: seq<Range>)

  /** The payload of section `i` may be skipped: debug information by name, plain
      program bits, at most compressed, not the name table, and not empty. */
  predicate IsSkippable(t: Tables, i: nat, s: Section, name: seq<Byte>) {
    t.rule.IsDebugName(name) && s.kind == 1 && (s.flags == 0 || s.flags == 0x800) && i != t.h.names && s.size > 0
  }

  /** One iteration of the section loop. */
  function ScanSection(t: Tables, acc: Scan, i: nat): Option<Scan>
    requires i < |t.sections|
  {
    var s := t.sections[i];
    if s.name >= |t.names| then None else
    match NameAt(t.names, s.name)
    case None => None
    case Some(name) =>
      if s.kind == 0 || s.kind == 8 then Some(acc)
      else if !InFile(s.offset, s.size, t.length) then None
      else
        var r := (s.offset, s.offset + s.size);
        Some(Scan(if s.size > 0 then acc.occupied + [r] else acc.occupied,
                  if IsSkippable(t, i, s, name) then acc.skipped + [r] else acc.skipped))
  }

  /** The section loop from section `i` on. */
  function ScanFrom(t: Tables, acc: Scan, i: nat): Option<Scan>
    requires i <= |t.sections|
    decreases |t.sections| - i
  {
    if i == |t.sections| then Some(acc)
    else match ScanSection(t, acc, i)
      case None => None
      case Some(next) => ScanFrom(t, next, i + 1)
  }

  /** The whole loop: section 0, the null section, is not looked at. */
  function ScanSections(t: Tables): Option<Scan>
    requires 0 < |t.sections|
  {
    ScanFrom(t, Scan(t.Fixed(), []), 1)
  }

  // ---------------------------------------------------------------- sorting and overlap

  predicate Before(a: Range, b: Range) {
    a.0 < b.0 || (a.0 == b.0 && a.1 <= b.1)
  }

  function Insert(x: Range, s: seq<Range>): (r: seq<Range>)
    ensures multiset(r) == multiset(s) + multiset{x}
  {
    if s == [] || Before(x, s[0]) then
      assert s == [] || s == [s[0]] + s[1..];
      [x] + s
    else
      assert s == [s[0]] + s[1..];
      [s[0]] + Insert(x, s[1..])
  }

  /** `list.sort()` on pairs. */
  function Sort(s: seq<Range>): (r: seq<Range>)
    ensures multiset(r) == multiset(s)
  {
    if s == [] then []
    else
      assert s == [s[0]] + s[1..];
      Insert(s[0], Sort(s[1..]))
  }

  ghost predicate Sorted(s: seq<Range>) {
    forall i, j :: 0 <= i < j < |s| ==> Before(s[i], s[j])
  }

  lemma {:induction false} InsertSorts(x: Range, s: seq<Range>)
    requires Sorted(s)
    ensures Sorted(Insert(x, s))
  {
    if s != [] && !Before(x, s[0]) {
      InsertSorts(x, s[1..]);
      var r := Insert(x, s[1..]);
      forall j | 0 <= j < |r|
        ensures Before(s[0], r[j])
      {
        assert r[j] in multiset(r);
        assert r[j] in multiset(s[1..]) || r[j] == x;
      }
    }
  }

  lemma {:induction false} SortSorts(s: seq<Range>)
    ensures Sorted(Sort(s))
  {
    if s != [] {
      SortSorts(s[1..]);
      InsertSorts(s[0], Sort(s[1..]));
    }
  }

  lemma SameMembers(s: seq<Range>, x: Range)
    ensures x in Sort(s) <==> x in s
  {
    assert x in Sort(s) <==> x in multiset(Sort(s));
    assert x in s <==> x in multiset(s);
  }

  /** No neighbours overlap: the check on the sorted list. */
  predicate NeighboursApart(s: seq<Range>) {
    forall i :: 0 <= i < |s| - 1 ==> s[i].1 <= s[i + 1].0
  }

  predicate Apart(a: Range, b: Range) {
    a.1 <= b.0 || b.1 <= a.0
  }

  ghost predicate AllApart(s: seq<Range>) {
    forall i, j :: 0 <= i < j < |s| ==> Apart(s[i], s[j])
  }

  ghost predicate NoneEmpty(s: seq<Range>) {
    forall i :: 0 <= i < |s| ==> s[i].0 < s[i].1
  }

  /** Among non-empty ranges in order, neighbours apart means all apart, in order. */
  lemma {:induction false} NeighboursToAll(s: seq<Range>, i: nat, j: nat)
    requires NeighboursApart(s) && NoneEmpty(s) && i < j < |s|
    ensures s[i].1 <= s[j].0
    decreases j
  {
    if i + 1 < j {
      NeighboursToAll(s, i, j - 1);
      assert s[j - 1].1 <= s[j - 1 + 1].0;
    }
  }

  lemma TailApart(s: seq<Range>)
    requires AllApart(s) && s != []
    ensures AllApart(s[1..]) && forall y :: y in s[1..] ==> Apart(s[0], y)
  {
  }

  lemma ConsApart(x: Range, s: seq<Range>)
    requires AllApart(s) && forall y :: y in s ==> Apart(x, y)
    ensures AllApart([x] + s)
  {
  }

  /** `x` was inserted behind `h`: what is known of `h` and of the rest joins up. */
  lemma BehindApart(x: Range, h: Range, rest: seq<Range>, t: seq<Range>)
    requires AllApart(rest) && (forall y :: y in rest ==> Apart(x, y))
    requires multiset(t) == multiset(rest) + multiset{x} && forall y :: y in t ==> Apart(h, y)
    ensures AllApart([h] + rest) && forall y :: y in [h] + rest ==> Apart(x, y)
  {
    assert x in multiset(t);
    forall y | y in rest
      ensures Apart(h, y)
    {
      assert y in multiset(t);
    }
    ConsApart(h, rest);
    forall y | y in [h] + rest
      ensures Apart(x, y)
    {
      if y !in rest {
        assert y == h && Apart(h, x);
      }
    }
  }

  lemma {:induction false} InsertApart(x: Range, s: seq<Range>)
    requires AllApart(Insert(x, s))
    ensures AllApart(s) && forall y :: y in s ==> Apart(x, y)
  {
    TailApart(Insert(x, s));
    if s == [] || Before(x, s[0]) {
      assert Insert(x, s)[1..] == s;
    } else {
      var t := Insert(x, s[1..]);
      assert Insert(x, s)[1..] == t;
      InsertApart(x, s[1..]);
      BehindApart(x, s[0], s[1..], t);
      assert s == [s[0]] + s[1..];
    }
  }

  /** The check on the sorted list is a check on the list as it was collected. */
  lemma {:induction false} SortedApart(s: seq<Range>)
    requires AllApart(Sort(s))
    ensures AllApart(s)
  {
    if s != [] {
      InsertApart(s[0], Sort(s[1..]));
      SortedApart(s[1..]);
      forall y | y in s[1..]
        ensures Apart(s[0], y)
      {
        SameMembers(s[1..], y);
      }
      ConsApart(s[0], s[1..]);
      assert s == [s[0]] + s[1..];
    }
  }

  // ---------------------------------------------------------------- segments

  /** Segment `p` lies in the file and, unless empty, touches none of the ranges. */
  predicate SegmentOk(phdrs: seq<Byte>, little: bool, p: nat, ranges: seq<Range>, length: nat)
    requires 56 * p + 56 <= |phdrs|
  {
    var e := phdrs[56 * p..56 * p + 56];
    var offset, size := Field(e, 8, 8, little), Field(e, 32, 8, little);
    && InFile(offset, size, length)
    && (size > 0 ==> forall r :: r in ranges ==> Apart((offset, offset + size), r))
  }

  predicate SegmentsOk(phdrs: seq<Byte>, little: bool, phnum: nat, ranges: seq<Range>, length: nat)
    requires 56 * phnum <= |phdrs|
  {
    forall p :: 0 <= p < phnum ==> SegmentOk(phdrs, little, p, ranges, length)
  }

  // ---------------------------------------------------------------- the analysis

  /** The section and program header part of the analysis: a function of four windows of
      the file and of its length. */
  function RangesOf(t: Tables, phdrs: seq<Byte>): Option<seq<Range>>
    requires 0 < t.h.shnum == |t.sections| && |phdrs| == 56 * t.h.phnum
  {
    match ScanSections(t)
    case None => None
    case Some(scan) =>
      if !NeighboursApart(Sort(scan.occupied)) then None
      else if !SegmentsOk(phdrs, t.h.little, t.h.phnum, Sort(scan.skipped), t.length) then None
      else Some(Sort(scan.skipped))
  }

  /** The windows the analysis looks at once the header is accepted, if the null section
      and the name-table section allow it. */
  function WindowsFor(f: seq<Byte>, h: Header): (r: Option<(Tables, seq<Byte>)>)
    requires HeaderOk(h, |f|)
    ensures r.Some? ==> r.value.0.h == h && |r.value.0.sections| == h.shnum && |r.value.1| == 56 * h.phnum
  {
    var table := f[h.shoff..h.shoff + 64 * h.shnum];
    if table[..64] != seq(64, _ => 0) then None else
    var sections := Unpack(table, h.shnum, h.little);
    var names := sections[h.names];
    if names.kind != 3 || names.size == 0 || !InFile(names.offset, names.size, |f|) then None else
    Some((Tables(h, sections, f[names.offset..names.offset + names.size], |f|, NameRule(DEBUG_NAMES, DEBUG_PREFIXES)),
        f[h.phoff..h.phoff + 56 * h.phnum]))
  }

  function HeaderOf(f: seq<Byte>): (r: Option<Header>)
    ensures r.Some? ==> HeaderOk(r.value, |f|)
  {
    if ParseHeader(f[..Min(64, |f|)], |f|).Some? then ParsedHeaderOk(f[..Min(64, |f|)], |f|);
      ParseHeader(f[..Min(64, |f|)], |f|)
    else None
  }

  function Windows(f: seq<Byte>): (r: Option<(Tables, seq<Byte>)>)
    ensures r.Some? ==> HeaderOf(f) == Some(r.value.0.h) && |r.value.0.sections| == r.value.0.h.shnum
                        && |r.value.1| == 56 * r.value.0.h.phnum
  {
    match HeaderOf(f)
    case None => None
    case Some(h) => WindowsFor(f, h)
  }

  /** `_elf_debug_ranges`: the skippable ranges in order, or None for whole-file hashing. */
  function DebugRanges(f: seq<Byte>): Option<seq<Range>> {
    match Windows(f)
    case None => None
    case Some((t, phdrs)) => RangesOf(t, phdrs)
  }
}
