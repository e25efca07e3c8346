/** The ELF64 files that `_elf_debug_ranges` of python/pypto/_identity.py accepts and the
    sections it skips, said of the bytes of the file at the offsets of the System V gABI; and
    that the analysis decides just this. */
module ElfSpec {
  import opened Options
  import opened Bytes
  import opened Elf
  import opened ElfDigest
  import opened ElfFiltering

  // ---------------------------------------------------------------- unsigned fields

  function At(f: seq<Byte>, p: nat): nat {
    if p < |f| then f[p] else 0
  }

  /** The unsigned number in the `n` bytes from `p` on, in either byte order. */
  function Number(f: seq<Byte>, p: nat, n: nat, little: bool): nat
    decreases n, |f|
  {
    if n == 0 then 0
    else if little then At(f, p) + 0x100 * Number(f, p + 1, n - 1, true)
    else 0x100 * Number(f, p, n - 1, false) + At(f, p + n - 1)
  }

  // ---------------------------------------------------------------- the header

  function Little(f: seq<Byte>): bool { At(f, 5) == 1 }
  function PhOff(f: seq<Byte>): nat { Number(f, 32, 8, Little(f)) }
  function ShOff(f: seq<Byte>): nat { Number(f, 40, 8, Little(f)) }
  function PhNum(f: seq<Byte>): nat { Number(f, 56, 2, Little(f)) }
  function ShNum(f: seq<Byte>): nat { Number(f, 60, 2, Little(f)) }
  function NamesIndex(f: seq<Byte>): nat { Number(f, 62, 2, Little(f)) }

  /** An ELF64 relocatable, executable or shared object, with a section table and, if there
      are any program headers, a program header table inside the file. */
  predicate HeaderFits(f: seq<Byte>) {
    && |f| >= 64 && f[0] == 0x7f && f[1] == 'E' as int && f[2] == 'L' as int && f[3] == 'F' as int
    && f[4] == 2 && (f[5] == 1 || f[5] == 2) && f[6] == 1
    && 1 <= Number(f, 16, 2, Little(f)) <= 3 && Number(f, 20, 4, Little(f)) == 1
    && Number(f, 52, 2, Little(f)) == 64 && Number(f, 58, 2, Little(f)) == 64
    && 0 < NamesIndex(f) < ShNum(f) < 0xFF00
    && 64 <= ShOff(f) && ShOff(f) + 64 * ShNum(f) <= |f|
    && PhNum(f) != 0xFFFF
    && (if PhNum(f) == 0 then PhOff(f) == 0
        else Number(f, 54, 2, Little(f)) == 56 && 64 <= PhOff(f) && PhOff(f) + 56 * PhNum(f) <= |f|)
  }

  // ---------------------------------------------------------------- sections

  function NameOf(f: seq<Byte>, i: nat): nat { Number(f, ShOff(f) + 64 * i, 4, Little(f)) }
  function TypeOf(f: seq<Byte>, i: nat): nat { Number(f, ShOff(f) + 64 * i + 4, 4, Little(f)) }
  function FlagsOf(f: seq<Byte>, i: nat): nat { Number(f, ShOff(f) + 64 * i + 8, 8, Little(f)) }
  function OffsetOf(f: seq<Byte>, i: nat): nat { Number(f, ShOff(f) + 64 * i + 24, 8, Little(f)) }
  function SizeOf(f: seq<Byte>, i: nat): nat { Number(f, ShOff(f) + 64 * i + 32, 8, Little(f)) }

  /** Where the name of section `i` starts in the file. */
  function NameStart(f: seq<Byte>, i: nat): nat { OffsetOf(f, NamesIndex(f)) + NameOf(f, i) }

  predicate Begins(f: seq<Byte>, p: nat, text: string) {
    forall j :: 0 <= j < |text| ==> At(f, p + j) == text[j] as int
  }

  /** `text` and the zero byte that ends it. */
  predicate Spells(f: seq<Byte>, p: nat, text: string) {
    Begins(f, p, text) && At(f, p + |text|) == 0
  }

  predicate NamedDebug(f: seq<Byte>, p: nat) {
    || Spells(f, p, ".debug") || Spells(f, p, ".zdebug") || Spells(f, p, ".comment") || Spells(f, p, ".gnu_debuglink")
    || Begins(f, p, ".debug_") || Begins(f, p, ".zdebug_")
  }

  /** A section that is skipped: debug information by name, of type PROGBITS, with no flag
      but SHF_COMPRESSED, not empty, and not the name table. */
  predicate DebugSection(f: seq<Byte>, i: nat) {
    && 0 < i < ShNum(f) && NamedDebug(f, NameStart(f, i))
    && TypeOf(f, i) == 1 && (FlagsOf(f, i) == 0 || FlagsOf(f, i) == 0x800)
    && SizeOf(f, i) > 0 && i != NamesIndex(f)
  }

  /** Types NULL and NOBITS occupy no bytes. */
  predicate HasBytes(f: seq<Byte>, i: nat) {
    TypeOf(f, i) != 0 && TypeOf(f, i) != 8
  }

  predicate EndsIn(f: seq<Byte>, p: nat, n: int) {
    exists k :: p <= k < p + n && At(f, k) == 0
  }

  /** The name of section `i` ends within 256 bytes inside the name table, and its contents,
      if any, lie in the file. */
  predicate SectionFits(f: seq<Byte>, i: nat) {
    && NameOf(f, i) < SizeOf(f, NamesIndex(f))
    && EndsIn(f, NameStart(f, i), Least(256, SizeOf(f, NamesIndex(f)) - NameOf(f, i)))
    && (HasBytes(f, i) ==> OffsetOf(f, i) + SizeOf(f, i) <= |f|)
  }

  function Least(a: int, b: int): int { if a < b then a else b }

  /** The bytes taken by the header, the section table, the program header table and the
      sections; (0, 0) for what takes none. */
  function Region(f: seq<Byte>, k: nat): Range {
    if k == 0 then (0, 64)
    else if k == 1 then (ShOff(f), ShOff(f) + 64 * ShNum(f))
    else if k == 2 then (if PhNum(f) > 0 then (PhOff(f), PhOff(f) + 56 * PhNum(f)) else (0, 0))
    else if k > 3 && HasBytes(f, k - 3) && SizeOf(f, k - 3) > 0
      then (OffsetOf(f, k - 3), OffsetOf(f, k - 3) + SizeOf(f, k - 3))
    else (0, 0)
  }

  predicate Disjoint(a: Range, b: Range) {
    a.1 <= b.0 || b.1 <= a.0
  }

  ghost predicate NoOverlap(f: seq<Byte>, n: nat) {
    forall j, k :: 0 <= j < k < n ==> Disjoint(Region(f, j), Region(f, k))
  }

  // ---------------------------------------------------------------- segments

  /** Bytes in the file that, unless there are none, touch no debug section. */
  ghost predicate FreeOfDebug(f: seq<Byte>, offset: nat, size: nat) {
    && offset + size <= |f|
    && (size > 0 ==> forall i :: DebugSection(f, i) ==>
          Disjoint((offset, offset + size), (OffsetOf(f, i), OffsetOf(f, i) + SizeOf(f, i))))
  }

  ghost predicate SegmentFits(f: seq<Byte>, p: nat) {
    var entry := PhOff(f) + 56 * p;
    FreeOfDebug(f, Number(f, entry + 8, 8, Little(f)), Number(f, entry + 32, 8, Little(f)))
  }

  // ---------------------------------------------------------------- the whole file

  ghost predicate TablesFit(f: seq<Byte>) {
    && (forall k :: ShOff(f) <= k < ShOff(f) + 64 ==> At(f, k) == 0)
    && TypeOf(f, NamesIndex(f)) == 3 && SizeOf(f, NamesIndex(f)) > 0
    && OffsetOf(f, NamesIndex(f)) + SizeOf(f, NamesIndex(f)) <= |f|
  }

  ghost predicate SectionsFit(f: seq<Byte>) {
    forall i :: 0 < i < ShNum(f) ==> SectionFits(f, i)
  }

  ghost predicate SegmentsFit(f: seq<Byte>) {
    forall p :: 0 <= p < PhNum(f) ==> SegmentFits(f, p)
  }

  /** The files whose debug sections are skipped; all others are hashed whole. */
  ghost predicate Accepted(f: seq<Byte>) {
    && HeaderFits(f) && TablesFit(f) && SectionsFit(f)
    && NoOverlap(f, ShNum(f) + 3) && SegmentsFit(f)
  }

  // ---------------------------------------------------------------- the fields agree

  lemma {:induction false} NumberIs(f: seq<Byte>, p: nat, n: nat, little: bool)
    requires p + n <= |f|
    ensures UInt(f[p..p + n], little) == Number(f, p, n, little)
    decreases n
  {
    if n > 0 {
      var b := f[p..p + n];
      if little {
        assert b[1..] == f[p + 1..p + 1 + (n - 1)];
        NumberIs(f, p + 1, n - 1, true);
      } else {
        assert b[..n - 1] == f[p..p + (n - 1)];
        NumberIs(f, p, n - 1, false);
      }
    }
  }

  /** A field of a window of the file. */
  lemma FieldIs(f: seq<Byte>, lo: nat, hi: nat, o: nat, n: nat, little: bool)
    requires lo + o + n <= hi <= |f|
    ensures Field(f[lo..hi], o, n, little) == Number(f, lo + o, n, little)
  {
    SliceOfSlice(f, lo, hi, o, o + n);
    NumberIs(f, lo + o, n, little);
  }

  // ---------------------------------------------------------------- the header is read so

  lemma HeadFields(f: seq<Byte>)
    requires |f| >= 64
    ensures var head, le := f[..64], Little(f);
            && Field(head, 16, 2, le) == Number(f, 16, 2, le) && Field(head, 20, 4, le) == Number(f, 20, 4, le)
            && Field(head, 32, 8, le) == PhOff(f) && Field(head, 40, 8, le) == ShOff(f)
            && Field(head, 52, 2, le) == Number(f, 52, 2, le) && Field(head, 54, 2, le) == Number(f, 54, 2, le)
            && Field(head, 56, 2, le) == PhNum(f) && Field(head, 58, 2, le) == Number(f, 58, 2, le)
            && Field(head, 60, 2, le) == ShNum(f) && Field(head, 62, 2, le) == NamesIndex(f)
  {
    var le := Little(f);
    assert f[..64] == f[0..64];
    FieldIs(f, 0, 64, 16, 2, le);
    FieldIs(f, 0, 64, 20, 4, le);
    FieldIs(f, 0, 64, 32, 8, le);
    FieldIs(f, 0, 64, 40, 8, le);
    FieldIs(f, 0, 64, 52, 2, le);
    FieldIs(f, 0, 64, 54, 2, le);
    FieldIs(f, 0, 64, 56, 2, le);
    FieldIs(f, 0, 64, 58, 2, le);
    FieldIs(f, 0, 64, 60, 2, le);
    FieldIs(f, 0, 64, 62, 2, le);
  }

  lemma MagicIs(f: seq<Byte>)
    requires |f| >= 64
    ensures f[..64][..4] == MAGIC <==> f[0] == 0x7f && f[1] == 'E' as int && f[2] == 'L' as int && f[3] == 'F' as int
  {
    assert f[..64][..4] == [f[0], f[1], f[2], f[3]];
  }

  /** The header is accepted exactly when it fits, and read as it stands. */
  lemma HeaderExactly(f: seq<Byte>)
    ensures HeaderOf(f).Some? <==> HeaderFits(f)
    ensures HeaderFits(f) ==>
              HeaderOf(f) == Some(Header(Little(f), PhOff(f), PhNum(f), ShOff(f), ShNum(f), NamesIndex(f)))
  {
    if |f| >= 64 {
      HeadFields(f);
      MagicIs(f);
      assert f[..64][4] == f[4] && f[..64][5] == f[5] && f[..64][6] == f[6];
    }
  }

  // ---------------------------------------------------------------- the tables are read so

  lemma EntryIs(f: seq<Byte>, p: nat, le: bool)
    requires p + 64 <= |f|
    ensures var e := f[p..p + 64];
            && Field(e, 0, 4, le) == Number(f, p, 4, le) && Field(e, 4, 4, le) == Number(f, p + 4, 4, le)
            && Field(e, 8, 8, le) == Number(f, p + 8, 8, le) && Field(e, 24, 8, le) == Number(f, p + 24, 8, le)
            && Field(e, 32, 8, le) == Number(f, p + 32, 8, le)
  {
    FieldIs(f, p, p + 64, 0, 4, le);
    FieldIs(f, p, p + 64, 4, 4, le);
    FieldIs(f, p, p + 64, 8, 8, le);
    FieldIs(f, p, p + 64, 24, 8, le);
    FieldIs(f, p, p + 64, 32, 8, le);
  }

  function SectionOf(f: seq<Byte>, i: nat): Section {
    Section(NameOf(f, i), TypeOf(f, i), FlagsOf(f, i), OffsetOf(f, i), SizeOf(f, i))
  }

  /** Section `i` as the analysis has it. */
  lemma SectionIs(f: seq<Byte>, lo: nat, n: nat, i: nat, le: bool)
    requires lo == ShOff(f) && le == Little(f) && i < n && lo + 64 * n <= |f|
    ensures SectionAt(f[lo..lo + 64 * n], i, le) == SectionOf(f, i)
  {
    SliceOfSlice(f, lo, lo + 64 * n, 64 * i, 64 * i + 64);
    EntryIs(f, lo + 64 * i, le);
  }

  lemma NullIs(f: seq<Byte>, lo: nat, hi: nat)
    requires lo + 64 <= hi <= |f|
    ensures f[lo..hi][..64] == seq(64, _ => 0) <==> forall k :: lo <= k < lo + 64 ==> At(f, k) == 0
  {
    SliceOfSlice(f, lo, hi, 0, 64);
    assert f[lo..hi][..64] == f[lo..lo + 64];
    if f[lo..lo + 64] == seq(64, _ => 0) {
      forall k | lo <= k < lo + 64
        ensures At(f, k) == 0
      {
        assert f[lo..lo + 64][k - lo] == f[k];
      }
    } else {
      var k :| 0 <= k < 64 && f[lo..lo + 64][k] != 0;
      assert At(f, lo + k) != 0;
    }
  }

  /** What the analysis sees of a file whose header fits. */
  ghost predicate Shows(f: seq<Byte>, t: Tables, phdrs: seq<Byte>) {
    && HeaderFits(f) && TablesFit(f) && HeaderOk(t.h, |f|)
    && t.h == Header(Little(f), PhOff(f), PhNum(f), ShOff(f), ShNum(f), NamesIndex(f))
    && t.length == |f| && |t.sections| == t.h.shnum && t.rule == NameRule(DEBUG_NAMES, DEBUG_PREFIXES)
    && SectionsShown(f, t.sections)
    && var names := t.sections[t.h.names];
      && names.offset + names.size <= |f| && t.names == f[names.offset..names.offset + names.size]
      && phdrs == f[t.h.phoff..t.h.phoff + 56 * t.h.phnum]
  }

  ghost predicate SectionsShown(f: seq<Byte>, sections: seq<Section>) {
    forall i :: 0 <= i < |sections| ==> sections[i] == SectionOf(f, i)
  }

  lemma SectionsAre(f: seq<Byte>, lo: nat, n: nat, le: bool, sections: seq<Section>)
    requires lo == ShOff(f) && le == Little(f) && lo + 64 * n <= |f| && sections == Unpack(f[lo..lo + 64 * n], n, le)
    ensures SectionsShown(f, sections)
  {
    forall i | 0 <= i < n
      ensures sections[i] == SectionOf(f, i)
    {
      SectionIs(f, lo, n, i, le);
    }
  }

  lemma WindowsForIs(f: seq<Byte>, h: Header, sections: seq<Section>)
    requires HeaderOk(h, |f|) && sections == Unpack(f[h.shoff..h.shoff + 64 * h.shnum], h.shnum, h.little)
    ensures var names := sections[h.names];
            && (WindowsFor(f, h).Some? <==>
                  && f[h.shoff..h.shoff + 64 * h.shnum][..64] == seq(64, _ => 0)
                  && names.kind == 3 && names.size > 0 && names.offset + names.size <= |f|)
            && (WindowsFor(f, h).Some? ==>
                  && WindowsFor(f, h).value.0 == Tables(h, sections, f[names.offset..names.offset + names.size], |f|,
                                                        NameRule(DEBUG_NAMES, DEBUG_PREFIXES))
                  && WindowsFor(f, h).value.1 == f[h.phoff..h.phoff + 56 * h.phnum])
  {
  }

  lemma WindowsFit(f: seq<Byte>, h: Header)
    requires HeaderFits(f) && HeaderOk(h, |f|)
    requires h == Header(Little(f), PhOff(f), PhNum(f), ShOff(f), ShNum(f), NamesIndex(f))
    ensures WindowsFor(f, h).Some? <==> TablesFit(f)
  {
    var lo, n := h.shoff, h.shnum;
    NullIs(f, lo, lo + 64 * n);
    var sections := Unpack(f[lo..lo + 64 * n], n, h.little);
    SectionsAre(f, lo, n, h.little, sections);
    WindowsForIs(f, h, sections);
    assert sections[h.names] == SectionOf(f, NamesIndex(f));
  }

  lemma WindowsShow(f: seq<Byte>, h: Header, t: Tables, phdrs: seq<Byte>)
    requires HeaderFits(f) && HeaderOk(h, |f|) && TablesFit(f) && WindowsFor(f, h) == Some((t, phdrs))
    requires h == Header(Little(f), PhOff(f), PhNum(f), ShOff(f), ShNum(f), NamesIndex(f))
    ensures Shows(f, t, phdrs)
  {
    WindowsForIs(f, h, Unpack(f[h.shoff..h.shoff + 64 * h.shnum], h.shnum, h.little));
    SectionsAre(f, h.shoff, h.shnum, h.little, t.sections);
  }

  /** What the analysis sees exists exactly when the tables fit. */
  lemma WindowsExactly(f: seq<Byte>)
    ensures Windows(f).Some? <==> HeaderFits(f) && TablesFit(f)
    ensures Windows(f).Some? ==> Shows(f, Windows(f).value.0, Windows(f).value.1)
  {
    HeaderExactly(f);
    if HeaderFits(f) {
      WindowsFit(f, HeaderOf(f).value);
      if TablesFit(f) { WindowsShow(f, HeaderOf(f).value, Windows(f).value.0, Windows(f).value.1); }
    }
  }

  // ---------------------------------------------------------------- names are read so

  lemma PrefixesAre(name: seq<Byte>)
    ensures StartsWithAny(DEBUG_PREFIXES, name) <==> DEBUG_PREFIX <= name || ZDEBUG_PREFIX <= name
  {
    var rest := DEBUG_PREFIXES[1..];
    assert rest == [ZDEBUG_PREFIX] && rest[1..] == [];
    assert StartsWithAny(rest, name) <==> ZDEBUG_PREFIX <= name || StartsWithAny(rest[1..], name);
  }

  /** The bytes of a text. */
  predicate BytesOf(b: seq<Byte>, text: string) {
    |b| == |text| && forall j :: 0 <= j < |b| ==> b[j] == text[j] as int && b[j] != 0
  }

  lemma DebugNamesSpelled()
    ensures BytesOf(DEBUG, ".debug") && BytesOf(ZDEBUG, ".zdebug") && BytesOf(COMMENT, ".comment")
    ensures BytesOf(GNU_DEBUGLINK, ".gnu_debuglink")
    ensures BytesOf(DEBUG_PREFIX, ".debug_") && BytesOf(ZDEBUG_PREFIX, ".zdebug_")
  {
  }

  /** A name of `n` bytes at `p`, none of them zero, and the zero behind it. */
  predicate NameLies(f: seq<Byte>, p: nat, n: nat, name: seq<Byte>) {
    && |name| == n && p + n < |f| && f[p + n] == 0
    && forall j :: 0 <= j < n ==> name[j] == At(f, p + j) && name[j] != 0
  }

  lemma IsPrefix(f: seq<Byte>, p: nat, n: nat, name: seq<Byte>, b: seq<Byte>, text: string)
    requires NameLies(f, p, n, name) && BytesOf(b, text)
    ensures b <= name <==> Begins(f, p, text)
  {
    if n < |text| {
      assert b[n] == text[n] as int;
      assert At(f, p + n) != text[n] as int;
    } else if Begins(f, p, text) {
      forall j | 0 <= j < |b|
        ensures b[j] == name[j]
      {
        assert At(f, p + j) == text[j] as int;
      }
      assert b == name[..|b|];
    }
  }

  lemma IsName(f: seq<Byte>, p: nat, n: nat, name: seq<Byte>, b: seq<Byte>, text: string)
    requires NameLies(f, p, n, name) && BytesOf(b, text)
    ensures b == name <==> Spells(f, p, text)
  {
    IsPrefix(f, p, n, name, b, text);
    if |text| < n {
      assert name[|text|] == At(f, p + |text|);
    }
  }

  lemma DebugNameIs(f: seq<Byte>, p: nat, n: nat, name: seq<Byte>)
    requires NameLies(f, p, n, name)
    ensures NameRule(DEBUG_NAMES, DEBUG_PREFIXES).IsDebugName(name) <==> NamedDebug(f, p)
  {
    PrefixesAre(name);
    DebugNamesSpelled();
    IsName(f, p, n, name, DEBUG, ".debug");
    IsName(f, p, n, name, ZDEBUG, ".zdebug");
    IsName(f, p, n, name, COMMENT, ".comment");
    IsName(f, p, n, name, GNU_DEBUGLINK, ".gnu_debuglink");
    IsPrefix(f, p, n, name, DEBUG_PREFIX, ".debug_");
    IsPrefix(f, p, n, name, ZDEBUG_PREFIX, ".zdebug_");
  }

  /** The name is found exactly when it ends in time. */
  lemma NameAtIs(f: seq<Byte>, lo: nat, hi: nat, o: nat)
    requires lo + o < hi <= |f|
    ensures NameAt(f[lo..hi], o).Some? <==> EndsIn(f, lo + o, Least(256, hi - lo - o))
    ensures NameAt(f[lo..hi], o).Some? ==>
              NameLies(f, lo + o, |NameAt(f[lo..hi], o).value|, NameAt(f[lo..hi], o).value)
  {
    var n := Least(256, hi - lo - o);
    SliceOfSlice(f, lo, hi, o, o + n);
    var p := lo + o;
    var raw := f[p..p + n];
    assert f[lo..hi][o..o + n] == raw;
    var end := FindZero(raw, 0);
    if end < n {
      assert At(f, p + end) == raw[end] == 0;
      forall j | 0 <= j < end
        ensures raw[..end][j] == At(f, p + j) && raw[j] != 0
      {
      }
    } else {
      forall k | p <= k < p + n
        ensures At(f, k) != 0
      {
        assert raw[k - p] != 0;
      }
    }
  }

  // ---------------------------------------------------------------- the section loop

  /** The ranges `region(0), .., region(n - 1)` without the empty ones. */
  ghost function Filled(region: nat -> Range, n: nat): seq<Range> {
    if n == 0 then [] else Filled(region, n - 1) + NonEmpty(region(n - 1))
  }

  function NonEmpty(r: Range): seq<Range> {
    if r.0 < r.1 then [r] else []
  }

  function RangeOf(f: seq<Byte>, i: nat): Range {
    (OffsetOf(f, i), OffsetOf(f, i) + SizeOf(f, i))
  }

  /** The range of section `i` if it is skipped. */
  function SkipOf(f: seq<Byte>, i: nat): Range {
    if DebugSection(f, i) then RangeOf(f, i) else (0, 0)
  }

  function Regions(f: seq<Byte>): nat -> Range { (k: nat) => Region(f, k) }
  function SkipsOf(f: seq<Byte>): nat -> Range { (i: nat) => SkipOf(f, i) }
  function Fits(f: seq<Byte>): nat -> bool { (i: nat) => SectionFits(f, i) }

  /** The loop's lists before section `i`. */
  ghost function Lists(region: nat -> Range, skip: nat -> Range, i: nat): Scan {
    Scan(Filled(region, i + 3), Filled(skip, i))
  }

  /** What the loop finds of the name of section `i`. */
  predicate Naming(t: Tables, i: nat, ends: bool, debug: bool)
    requires i < |t.sections|
  {
    t.sections[i].name < |t.names| ==>
      && NameAt(t.names, t.sections[i].name).Some? == ends
      && (ends ==> t.rule.IsDebugName(NameAt(t.names, t.sections[i].name).value) == debug)
  }

  /** What that makes of the lists. */
  function Next(t: Tables, acc: Scan, i: nat, ends: bool, debug: bool): Option<Scan>
    requires i < |t.sections|
  {
    var s := t.sections[i];
    var r := (s.offset, s.offset + s.size);
    if s.name >= |t.names| || !ends then None
    else if s.kind == 0 || s.kind == 8 then Some(acc)
    else if s.offset + s.size > t.length then None
    else
      var plain := s.kind == 1 && (s.flags == 0 || s.flags == 0x800) && i != t.h.names;
      Some(Scan(acc.occupied + NonEmpty(r), acc.skipped + if debug && plain then NonEmpty(r) else []))
  }

  lemma ScanNext(t: Tables, acc: Scan, i: nat, ends: bool, debug: bool)
    requires i < |t.sections| && Naming(t, i, ends, debug)
    ensures ScanSection(t, acc, i) == Next(t, acc, i, ends, debug)
  {
    assert acc.occupied + [] == acc.occupied && acc.skipped + [] == acc.skipped;
  }

  /** The name of section `i`, told from its entry `s` and that of the name table. */
  lemma NameTold(f: seq<Byte>, t: Tables, i: nat, s: Section, names: Section)
    requires i < |t.sections| && t.sections[i] == s && t.rule == NameRule(DEBUG_NAMES, DEBUG_PREFIXES)
    requires names.offset + names.size <= |f| && t.names == f[names.offset..names.offset + names.size]
    ensures Naming(t, i, EndsIn(f, names.offset + s.name, Least(256, names.size - s.name)),
                   NamedDebug(f, names.offset + s.name))
  {
    if s.name < names.size {
      NameAtIs(f, names.offset, names.offset + names.size, s.name);
      match NameAt(t.names, s.name)
      case Some(name) => DebugNameIs(f, names.offset + s.name, |name|, name);
      case None =>
    }
  }

  /** The verdict on section `i` and its two ranges, told from the same entries. */
  ghost predicate Told(i: nat, s: Section, names: Section, namesIndex: nat, length: nat, ends: bool, debug: bool,
      fits: bool, region: Range, skip: Range)
  {
    var r := (s.offset, s.offset + s.size);
    var held := s.kind != 0 && s.kind != 8;
    var plain := s.kind == 1 && (s.flags == 0 || s.flags == 0x800) && i != namesIndex;
    && (fits <==> s.name < names.size && ends && (held ==> s.offset + s.size <= length))
    && region == (if held && s.size > 0 then r else (0, 0))
    && skip == (if debug && plain && s.size > 0 then r else (0, 0))
  }

  lemma FitsTold(f: seq<Byte>, i: nat, s: Section, names: Section)
    requires s == SectionOf(f, i) && names == SectionOf(f, NamesIndex(f))
    ensures SectionFits(f, i)
       <==> && s.name < names.size && EndsIn(f, names.offset + s.name, Least(256, names.size - s.name))
            && (s.kind != 0 && s.kind != 8 ==> s.offset + s.size <= |f|)
  {
  }

  lemma RegionTold(f: seq<Byte>, i: nat, s: Section)
    requires 0 < i && s == SectionOf(f, i)
    ensures Region(f, i + 3)
         == if s.kind != 0 && s.kind != 8 && s.size > 0 then (s.offset, s.offset + s.size) else (0, 0)
  {
  }

  lemma SkipTold(f: seq<Byte>, i: nat, s: Section, names: Section)
    requires 0 < i < ShNum(f) && s == SectionOf(f, i) && names == SectionOf(f, NamesIndex(f))
    ensures SkipOf(f, i)
         == if && NamedDebug(f, names.offset + s.name) && s.kind == 1 && (s.flags == 0 || s.flags == 0x800)
               && i != NamesIndex(f) && s.size > 0 then (s.offset, s.offset + s.size) else (0, 0)
  {
  }

  lemma EntryTells(f: seq<Byte>, i: nat, s: Section, names: Section, namesIndex: nat)
    requires 0 < i < ShNum(f) && s == SectionOf(f, i) && names == SectionOf(f, namesIndex)
    requires namesIndex == NamesIndex(f)
    ensures Told(i, s, names, namesIndex, |f|, EndsIn(f, names.offset + s.name, Least(256, names.size - s.name)),
                 NamedDebug(f, names.offset + s.name), SectionFits(f, i), Region(f, i + 3), SkipOf(f, i))
  {
    FitsTold(f, i, s, names);
    RegionTold(f, i, s);
    SkipTold(f, i, s, names);
  }

  ghost predicate StepAs(t: Tables, lists: nat -> Scan, fits: nat -> bool, i: nat)
    requires i < |t.sections|
  {
    ScanSection(t, lists(i), i) == if fits(i) then Some(lists(i + 1)) else None
  }

  lemma ScanStep(t: Tables, i: nat, names: Section, ends: bool, debug: bool, region: nat -> Range, skip: nat -> Range,
      fits: nat -> bool)
    requires i < |t.sections| && Naming(t, i, ends, debug) && |t.names| == names.size
    requires Told(i, t.sections[i], names, t.h.names, t.length, ends, debug, fits(i), region(i + 3), skip(i))
    ensures ScanSection(t, Lists(region, skip, i), i) == if fits(i) then Some(Lists(region, skip, i + 1)) else None
  {
    var acc := Lists(region, skip, i);
    ScanNext(t, acc, i, ends, debug);
    assert acc.occupied + [] == acc.occupied && acc.skipped + [] == acc.skipped;
    assert Filled(region, i + 4) == Filled(region, i + 3) + NonEmpty(region(i + 3));
  }

  lemma {:induction false} ScanRest(t: Tables, lists: nat -> Scan, fits: nat -> bool, i: nat)
    requires 0 < i <= |t.sections| && forall j :: 0 < j < |t.sections| ==> StepAs(t, lists, fits, j)
    ensures ScanFrom(t, lists(i), i)
         == if forall j :: i <= j < |t.sections| ==> fits(j) then Some(lists(|t.sections|)) else None
    decreases |t.sections| - i
  {
    if i < |t.sections| {
      assert StepAs(t, lists, fits, i);
      ScanRest(t, lists, fits, i + 1);
    }
  }

  lemma FixedIs(f: seq<Byte>, t: Tables)
    requires HeaderFits(f) && t.h == Header(Little(f), PhOff(f), PhNum(f), ShOff(f), ShNum(f), NamesIndex(f))
    ensures Scan(t.Fixed(), []) == Lists(Regions(f), SkipsOf(f), 1)
  {
    var region, skip := Regions(f), SkipsOf(f);
    assert Filled(region, 0) == [] == Filled(skip, 0) && skip(0) == (0, 0);
    assert Filled(region, 1) == [Region(f, 0)];
    assert Filled(region, 2) == [Region(f, 0), Region(f, 1)];
    assert Filled(region, 3) == t.Fixed();
    assert Filled(region, 4) == Filled(region, 3) + NonEmpty(region(3));
    assert Filled(skip, 1) == Filled(skip, 0) + NonEmpty(skip(0));
  }

  ghost predicate AllFit(fits: nat -> bool, n: nat) {
    forall i :: 1 <= i < n ==> fits(i)
  }

  ghost function ListsOf(f: seq<Byte>): nat -> Scan { (i: nat) => Lists(Regions(f), SkipsOf(f), i) }

  /** The section loop gives up exactly when some section does not fit, and collects the
      occupied ranges and the debug sections. */
  lemma ScanExactly(f: seq<Byte>, t: Tables, phdrs: seq<Byte>, n: nat)
    requires Shows(f, t, phdrs) && n == t.h.shnum
    ensures ScanSections(t) == if AllFit(Fits(f), n) then Some(ListsOf(f)(n)) else None
  {
    var lists, fits := ListsOf(f), Fits(f);
    forall i | 0 < i < n
      ensures StepAs(t, lists, fits, i)
    {
      StepShown(f, t, phdrs, i);
    }
    FixedIs(f, t);
    ScanRest(t, lists, fits, 1);
  }

  lemma StepTold(f: seq<Byte>, t: Tables, i: nat, s: Section, names: Section, region: nat -> Range, skip: nat -> Range,
      fits: nat -> bool)
    requires 0 < i < |t.sections| == ShNum(f) && t.sections[i] == s == SectionOf(f, i)
    requires names == SectionOf(f, t.h.names) && t.h.names == NamesIndex(f) && t.length == |f|
    requires t.rule == NameRule(DEBUG_NAMES, DEBUG_PREFIXES)
    requires names.offset + names.size <= |f| && t.names == f[names.offset..names.offset + names.size]
    requires fits(i) == SectionFits(f, i) && region(i + 3) == Region(f, i + 3) && skip(i) == SkipOf(f, i)
    ensures ScanSection(t, Lists(region, skip, i), i) == if fits(i) then Some(Lists(region, skip, i + 1)) else None
  {
    NameTold(f, t, i, s, names);
    EntryTells(f, i, s, names, t.h.names);
    ScanStep(t, i, names, EndsIn(f, names.offset + s.name, Least(256, names.size - s.name)),
             NamedDebug(f, names.offset + s.name), region, skip, fits);
  }

  lemma StepShown(f: seq<Byte>, t: Tables, phdrs: seq<Byte>, i: nat)
    requires Shows(f, t, phdrs) && 0 < i < |t.sections|
    ensures ScanSection(t, Lists(Regions(f), SkipsOf(f), i), i)
         == if Fits(f)(i) then Some(Lists(Regions(f), SkipsOf(f), i + 1)) else None
  {
    StepTold(f, t, i, t.sections[i], t.sections[t.h.names], Regions(f), SkipsOf(f), Fits(f));
  }

  // ---------------------------------------------------------------- overlaps and segments

  lemma {:induction false} FilledMembers(region: nat -> Range, n: nat, r: Range)
    ensures r in Filled(region, n) <==> r.0 < r.1 && exists k :: 0 <= k < n && region(k) == r
  {
    if n > 0 {
      FilledMembers(region, n - 1, r);
    }
  }

  ghost predicate Formed(region: nat -> Range, n: nat) {
    forall k :: 0 <= k < n ==> region(k).0 < region(k).1 || region(k) == (0, 0)
  }

  ghost predicate Separate(region: nat -> Range, n: nat) {
    forall j, k :: 0 <= j < k < n ==> Disjoint(region(j), region(k))
  }

  lemma SeparateStep(region: nat -> Range, n: nat)
    requires Formed(region, n + 1)
    requires Separate(region, n) && AllApart(Filled(region, n))
    ensures AllApart(Filled(region, n + 1)) <==> Separate(region, n + 1)
  {
    var s, x := Filled(region, n), region(n);
    if x == (0, 0) {
      assert s + [] == s;
    } else {
      if AllApart(s + [x]) {
        PrefixApart(s, x);
        forall j | 0 <= j < n
          ensures Disjoint(region(j), x)
        {
          FilledMembers(region, n, region(j));
        }
      }
      if Separate(region, n + 1) {
        forall y | y in s
          ensures Apart(y, x)
        {
          FilledMembers(region, n, y);
        }
        SnocApart(s, x);
      }
    }
  }

  /** What takes no bytes overlaps nothing. */
  lemma {:induction false} FilledApart(region: nat -> Range, n: nat)
    requires Formed(region, n)
    ensures NoneEmpty(Filled(region, n))
    ensures AllApart(Filled(region, n)) <==> Separate(region, n)
  {
    if n > 0 {
      FilledApart(region, n - 1);
      var s, x := Filled(region, n - 1), region(n - 1);
      if AllApart(s) {
        SeparateStep(region, n - 1);
      } else if x.0 < x.1 {
        if AllApart(s + [x]) { PrefixApart(s, x); }
      } else {
        assert s + [] == s;
      }
    }
  }

  lemma RegionsFormed(f: seq<Byte>)
    requires HeaderFits(f)
    ensures forall k :: 0 <= k < ShNum(f) + 3 ==> Regions(f)(k).0 < Regions(f)(k).1 || Regions(f)(k) == (0, 0)
  {
    forall k: nat | k < ShNum(f) + 3
      ensures Regions(f)(k).0 < Regions(f)(k).1 || Regions(f)(k) == (0, 0)
    {
      if k > 3 && HasBytes(f, k - 3) && SizeOf(f, k - 3) > 0 {
        RegionTold(f, k - 3, SectionOf(f, k - 3));
      }
    }
  }

  /** The debug sections, as ranges. */
  ghost predicate DebugRangesAre(f: seq<Byte>, rs: seq<Range>) {
    forall r :: r in rs <==> exists i :: DebugSection(f, i) && r == RangeOf(f, i)
  }

  lemma SkipsHold(f: seq<Byte>, n: nat, skip: nat -> Range, r: Range)
    requires n == ShNum(f) && forall i: nat :: skip(i) == SkipOf(f, i)
    ensures r in Filled(skip, n) <==> exists i :: DebugSection(f, i) && r == RangeOf(f, i)
  {
    FilledMembers(skip, n, r);
    if r in Filled(skip, n) {
      var i :| 0 <= i < n && skip(i) == r && r.0 < r.1;
      assert DebugSection(f, i);
    }
    if i :| DebugSection(f, i) && r == RangeOf(f, i) {
      assert skip(i) == r && r.0 < r.1;
    }
  }

  lemma SkipsAre(f: seq<Byte>, n: nat, rs: seq<Range>)
    requires n == ShNum(f) && rs == Sort(Filled(SkipsOf(f), n))
    ensures DebugRangesAre(f, rs)
  {
    forall r
      ensures r in rs <==> exists i :: DebugSection(f, i) && r == RangeOf(f, i)
    {
      SameMembers(Filled(SkipsOf(f), n), r);
      SkipsHold(f, n, SkipsOf(f), r);
    }
  }

  lemma SegmentApart(f: seq<Byte>, rs: seq<Range>, offset: nat, size: nat)
    requires DebugRangesAre(f, rs) && offset + size <= |f|
    ensures (size > 0 ==> forall r :: r in rs ==> Apart((offset, offset + size), r)) <==> FreeOfDebug(f, offset, size)
  {
    var seg := (offset, offset + size);
    if forall r :: r in rs ==> Apart(seg, r) {
      forall i | DebugSection(f, i)
        ensures Disjoint(seg, RangeOf(f, i))
      {
        assert RangeOf(f, i) in rs;
      }
    }
  }

  lemma SegmentTold(f: seq<Byte>, phdrs: seq<Byte>, p: nat, le: bool, rs: seq<Range>, offset: nat, size: nat)
    requires 56 * p + 56 <= |phdrs| && DebugRangesAre(f, rs)
    requires Field(phdrs[56 * p..56 * p + 56], 8, 8, le) == offset
    requires Field(phdrs[56 * p..56 * p + 56], 32, 8, le) == size
    ensures SegmentOk(phdrs, le, p, rs, |f|) <==> FreeOfDebug(f, offset, size)
  {
    if offset + size <= |f| {
      SegmentApart(f, rs, offset, size);
    }
  }

  lemma SegmentFields(f: seq<Byte>, at: nat, le: bool)
    requires at + 56 <= |f|
    ensures Field(f[at..at + 56], 8, 8, le) == Number(f, at + 8, 8, le)
    ensures Field(f[at..at + 56], 32, 8, le) == Number(f, at + 32, 8, le)
  {
    FieldIs(f, at, at + 56, 8, 8, le);
    FieldIs(f, at, at + 56, 32, 8, le);
  }

  lemma SegmentIs(f: seq<Byte>, phdrs: seq<Byte>, lo: nat, n: nat, p: nat, le: bool, rs: seq<Range>,
      offset: nat, size: nat)
    requires lo + 56 * n <= |f| && phdrs == f[lo..lo + 56 * n] && p < n && DebugRangesAre(f, rs)
    requires offset == Number(f, lo + 56 * p + 8, 8, le) && size == Number(f, lo + 56 * p + 32, 8, le)
    ensures SegmentOk(phdrs, le, p, rs, |f|) <==> FreeOfDebug(f, offset, size)
  {
    SliceOfSlice(f, lo, lo + 56 * n, 56 * p, 56 * p + 56);
    SegmentFields(f, lo + 56 * p, le);
    SegmentTold(f, phdrs, p, le, rs, offset, size);
  }

  lemma SegmentFitsIs(f: seq<Byte>, p: nat, lo: nat, le: bool)
    requires lo == PhOff(f) && le == Little(f)
    ensures SegmentFits(f, p) == FreeOfDebug(f, Number(f, lo + 56 * p + 8, 8, le), Number(f, lo + 56 * p + 32, 8, le))
  {
  }

  ghost function SegmentsOf(f: seq<Byte>): nat -> bool { (p: nat) => SegmentFits(f, p) }

  lemma EachSegment(phdrs: seq<Byte>, le: bool, n: nat, rs: seq<Range>, length: nat, free: nat -> bool)
    requires 56 * n <= |phdrs| && forall p :: 0 <= p < n ==> SegmentOk(phdrs, le, p, rs, length) == free(p)
    ensures SegmentsOk(phdrs, le, n, rs, length) <==> forall p :: 0 <= p < n ==> free(p)
  {
  }

  lemma SegmentsExactly(f: seq<Byte>, phdrs: seq<Byte>, lo: nat, n: nat, le: bool, rs: seq<Range>)
    requires lo == PhOff(f) && n == PhNum(f) && le == Little(f) && DebugRangesAre(f, rs)
    requires lo + 56 * n <= |f| && phdrs == f[lo..lo + 56 * n]
    ensures SegmentsOk(phdrs, le, n, rs, |f|) <==> SegmentsFit(f)
  {
    forall p | 0 <= p < n
      ensures SegmentOk(phdrs, le, p, rs, |f|) == SegmentsOf(f)(p)
    {
      SegmentIs(f, phdrs, lo, n, p, le, rs, Number(f, lo + 56 * p + 8, 8, le), Number(f, lo + 56 * p + 32, 8, le));
      SegmentFitsIs(f, p, lo, le);
    }
    EachSegment(phdrs, le, n, rs, |f|, SegmentsOf(f));
    assert forall p: nat :: SegmentsOf(f)(p) == SegmentFits(f, p);
  }

  lemma NoOverlapIs(f: seq<Byte>, n: nat)
    ensures NoOverlap(f, n) <==> Separate(Regions(f), n)
  {
    assert forall k: nat :: Regions(f)(k) == Region(f, k);
  }

  lemma SectionsFitIs(f: seq<Byte>, n: nat)
    requires n == ShNum(f)
    ensures SectionsFit(f) <==> AllFit(Fits(f), n)
  {
    assert forall i: nat :: Fits(f)(i) == SectionFits(f, i);
  }

  /** What the analysis of the windows says of the lists. */
  lemma RangesTold(t: Tables, phdrs: seq<Byte>, occupied: seq<Range>, skipped: seq<Range>)
    requires 0 < t.h.shnum == |t.sections| && |phdrs| == 56 * t.h.phnum
    requires ScanSections(t) == Some(Scan(occupied, skipped)) && NoneEmpty(occupied)
    ensures RangesOf(t, phdrs)
         == if AllApart(occupied) && SegmentsOk(phdrs, t.h.little, t.h.phnum, Sort(skipped), t.length)
            then Some(Sort(skipped)) else None
  {
    OverlapCheckDecides(occupied);
  }

  lemma ListsAre(f: seq<Byte>, n: nat, region: nat -> Range, skip: nat -> Range)
    requires region == Regions(f) && skip == SkipsOf(f)
    ensures ListsOf(f)(n) == Scan(Filled(region, n + 3), Filled(skip, n))
  {
  }

  lemma ScanLists(f: seq<Byte>, t: Tables, phdrs: seq<Byte>, n: nat) returns (region: nat -> Range, skip: nat -> Range)
    requires Shows(f, t, phdrs) && n == t.h.shnum && AllFit(Fits(f), n)
    ensures ScanSections(t) == Some(Scan(Filled(region, n + 3), Filled(skip, n)))
    ensures region == Regions(f) && skip == SkipsOf(f)
  {
    region, skip := Regions(f), SkipsOf(f);
    ScanExactly(f, t, phdrs, n);
    ListsAre(f, n, region, skip);
  }

  lemma RegionsTell(f: seq<Byte>, n: nat, region: nat -> Range)
    requires HeaderFits(f) && n == ShNum(f) && region == Regions(f)
    ensures Formed(region, n + 3)
    ensures Separate(region, n + 3) <==> NoOverlap(f, n + 3)
  {
    RegionsFormed(f);
    NoOverlapIs(f, n + 3);
  }

  /** What the loop leaves of a file all of whose sections fit. */
  lemma ScanGives(f: seq<Byte>, t: Tables, phdrs: seq<Byte>, n: nat) returns (occupied: seq<Range>, skipped: seq<Range>)
    requires Shows(f, t, phdrs) && n == t.h.shnum && AllFit(Fits(f), n)
    ensures ScanSections(t) == Some(Scan(occupied, skipped)) && NoneEmpty(occupied)
    ensures AllApart(occupied) <==> NoOverlap(f, n + 3)
    ensures DebugRangesAre(f, Sort(skipped))
  {
    var region, skip := ScanLists(f, t, phdrs, n);
    RegionsTell(f, n, region);
    occupied, skipped := Filled(region, n + 3), Filled(skip, n);
    FilledApart(region, n + 3);
    SkipsAre(f, n, Sort(skipped));
  }

  lemma RangesFound(f: seq<Byte>, t: Tables, phdrs: seq<Byte>, lo: nat, m: nat, le: bool)
    requires Shows(f, t, phdrs) && |phdrs| == 56 * m && t.h.phoff == lo && t.h.phnum == m && t.h.little == le
    requires AllFit(Fits(f), t.h.shnum)
    ensures RangesOf(t, phdrs).Some? <==> NoOverlap(f, t.h.shnum + 3) && SegmentsFit(f)
    ensures RangesOf(t, phdrs).Some? ==> DebugRangesAre(f, RangesOf(t, phdrs).value)
  {
    var occupied, skipped := ScanGives(f, t, phdrs, t.h.shnum);
    RangesTold(t, phdrs, occupied, skipped);
    SegmentsExactly(f, phdrs, lo, m, le, Sort(skipped));
  }

  lemma RangesExactly(f: seq<Byte>, t: Tables, phdrs: seq<Byte>)
    requires Shows(f, t, phdrs) && |phdrs| == 56 * t.h.phnum
    ensures RangesOf(t, phdrs).Some? <==> SectionsFit(f) && NoOverlap(f, t.h.shnum + 3) && SegmentsFit(f)
    ensures RangesOf(t, phdrs).Some? ==> DebugRangesAre(f, RangesOf(t, phdrs).value)
  {
    SectionsFitIs(f, t.h.shnum);
    if AllFit(Fits(f), t.h.shnum) {
      RangesFound(f, t, phdrs, t.h.phoff, t.h.phnum, t.h.little);
    } else {
      ScanExactly(f, t, phdrs, t.h.shnum);
    }
  }

  /** A file has its debug sections skipped exactly when it is accepted, and what is skipped
      is then exactly its debug sections, in order. */
  lemma DebugRangesExactly(f: seq<Byte>)
    ensures DebugRanges(f).Some? <==> Accepted(f)
    ensures Accepted(f) ==>
              var rs := DebugRanges(f).value;
              && (forall i, j :: 0 <= i < j < |rs| ==> rs[i].0 < rs[i].1 <= rs[j].0 < rs[j].1)
              && forall r :: r in rs <==>
                   exists i :: DebugSection(f, i) && r == (OffsetOf(f, i), OffsetOf(f, i) + SizeOf(f, i))
  {
    WindowsExactly(f);
    if Windows(f).Some? {
      var t, phdrs := AcceptedWindows(f);
      RangesExactly(f, t, phdrs);
      if RangesOf(t, phdrs).Some? {
        AcceptedRanges(t, phdrs);
      }
    }
  }

  // ---------------------------------------------------------------- what is hashed

  lemma PackedAt(v: nat, s: seq<Byte>, p: nat)
    requires v < Pow256(8) && p + 8 <= |s| && s[p..p + 8] == BigEndian(v, 8)
    ensures Number(s, p, 8, false) == v
  {
    BigEndianInverse(v, 8);
    NumberIs(s, p, 8, false);
  }

  lemma StreamParts(f: seq<Byte>, skipped: seq<Range>, lo: nat, hi: nat, rest: seq<Byte>)
    requires Tiled(skipped, |f|) && lo <= hi <= |f| && (skipped != [] ==> lo <= skipped[0].0)
    requires hi == if skipped == [] then |f| else skipped[0].0
    requires rest == if skipped == [] then [] else Stream(f, skipped[1..], skipped[0].1)
    ensures Stream(f, skipped, lo) == BigEndian(lo, 8) + BigEndian(hi - lo, 8) + f[lo..hi] + rest
  {
    if skipped == [] {
      assert Frame(f, lo, hi) + [] == Frame(f, lo, hi);
    }
  }

  lemma PartsRead(s: seq<Byte>, v: nat, w: nat, bytes: seq<Byte>, rest: seq<Byte>)
    requires v < Pow256(8) && w < Pow256(8) && s == BigEndian(v, 8) + BigEndian(w, 8) + bytes + rest && |bytes| == w
    ensures |s| >= 16 + w && Number(s, 0, 8, false) == v && Number(s, 8, 8, false) == w
    ensures s[16..16 + w] == bytes && s[16 + w..] == rest
  {
    Parts(BigEndian(v, 8), BigEndian(w, 8), bytes, rest, s);
    PackedAt(v, s, 0);
    PackedAt(w, s, 8);
  }

  /** The stream that is hashed, from the kept span at `lo` on: where the span starts and how
      long it is, as big-endian numbers of eight bytes, then its bytes, then the next span,
      which starts where the skipped range ends. */
  lemma StreamHolds(f: seq<Byte>, skipped: seq<Range>, lo: nat, hi: nat)
    requires Tiled(skipped, |f|) && lo <= hi <= |f| < Pow256(8) && (skipped != [] ==> lo <= skipped[0].0)
    requires hi == if skipped == [] then |f| else skipped[0].0
    ensures var s := Stream(f, skipped, lo);
            && |s| >= 16 + (hi - lo)
            && Number(s, 0, 8, false) == lo && Number(s, 8, 8, false) == hi - lo && s[16..16 + (hi - lo)] == f[lo..hi]
            && s[16 + (hi - lo)..] == if skipped == [] then [] else Stream(f, skipped[1..], skipped[0].1)
  {
    var rest := if skipped == [] then [] else Stream(f, skipped[1..], skipped[0].1);
    StreamParts(f, skipped, lo, hi, rest);
    PartsRead(Stream(f, skipped, lo), lo, hi - lo, f[lo..hi], rest);
  }
}
