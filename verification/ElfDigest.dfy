/** The loops of python/pypto/_identity.py over an ELF file, and the byte stream they feed
    to the hash. The hash itself is modelled by that stream. */
module ElfDigest {
  import opened Arithmetic
  import opened Options
  import opened Bytes
  import opened Elf
  import opened ElfFiltering

  // ---------------------------------------------------------------- segments

  /** `bisect_right`: how many of the ascending `ends` are at most `x`. */
  method BisectRight(ends: seq<nat>, x: nat) returns (k: nat)
    requires forall i, j :: 0 <= i < j < |ends| ==> ends[i] < ends[j]
    ensures k <= |ends|
    ensures forall i :: 0 <= i < k ==> ends[i] <= x
    ensures forall i :: k <= i < |ends| ==> x < ends[i]
  {
    var lo, hi := 0, |ends|;
    while lo < hi
      invariant lo <= hi <= |ends|
      invariant forall i :: 0 <= i < lo ==> ends[i] <= x
      invariant forall i :: hi <= i < |ends| ==> x < ends[i]
    {
      var mid := (lo + hi) / 2;
      if x < ends[mid] { hi := mid; } else { lo := mid + 1; }
    }
    k := lo;
  }

  /** Only the first range that ends after a segment starts can touch the segment. */
  lemma OneCandidate(rs: seq<Range>, length: nat, seg: Range, k: nat)
    requires Tiled(rs, length) && seg.0 < seg.1 && k <= |rs|
    requires forall i :: 0 <= i < k ==> rs[i].1 <= seg.0
    requires forall i :: k <= i < |rs| ==> seg.0 < rs[i].1
    ensures (forall r :: r in rs ==> Apart(seg, r)) <==> !(k < |rs| && rs[k].0 < seg.1)
  {
    if k < |rs| && rs[k].0 < seg.1 {
      assert rs[k] in rs && !Apart(seg, rs[k]);
    } else {
      forall r | r in rs
        ensures Apart(seg, r)
      {
        var i :| 0 <= i < |rs| && rs[i] == r;
      }
    }
  }

  /** `_elf_segments_avoid_ranges`: the one-candidate search per segment decides what the
      full comparison of every segment with every range would. */
  method SegmentsAvoidRanges(f: seq<Byte>, little: bool, phoff: nat, phnum: nat, ranges: seq<Range>) returns (ok: bool)
    requires phoff + 56 * phnum <= |f| && Tiled(ranges, |f|)
    ensures ok == SegmentsOk(f[phoff..phoff + 56 * phnum], little, phnum, ranges, |f|)
  {
    var phdrs := f[phoff..phoff + 56 * phnum];
    var ends := seq(|ranges|, i requires 0 <= i < |ranges| => ranges[i].1);
    for index := 0 to phnum
      invariant forall p :: 0 <= p < index ==> SegmentOk(phdrs, little, p, ranges, |f|)
    {
      var entry := f[phoff + index * 56..phoff + index * 56 + 56];
      SliceOfSlice(f, phoff, phoff + 56 * phnum, 56 * index, 56 * index + 56);
      assert entry == phdrs[56 * index..56 * index + 56];
      var offset, size := Field(entry, 8, 8, little), Field(entry, 32, 8, little);
      if offset > |f| || size > |f| - offset {
        assert !SegmentOk(phdrs, little, index, ranges, |f|);
        return false;
      }
      var candidate := BisectRight(ends, offset);
      if size > 0 {
        assert forall i :: 0 <= i < |ranges| ==> ranges[i].1 == ends[i];
        OneCandidate(ranges, |f|, (offset, offset + size), candidate);
      }
      if size != 0 && candidate < |ranges| && ranges[candidate].0 < offset + size {
        assert !SegmentOk(phdrs, little, index, ranges, |f|);
        return false;
      }
    }
    return true;
  }

  // ---------------------------------------------------------------- the section loop

  /** The body of the section loop: what it appends, or None to give up. */
  method ScanOne(t: Tables, occupied: seq<Range>, skipped: seq<Range>, index: nat) returns (r: Option<Scan>)
    requires index < |t.sections|
    ensures r == ScanSection(t, Scan(occupied, skipped), index)
  {
    var s := t.sections[index];
    if s.name >= |t.names| {
      return None;
    }
    var rawName := t.names[s.name..s.name + Min(256, |t.names| - s.name)];
    var end := FindZero(rawName, 0);
    if end == |rawName| {
      return None;
    }
    var sectionName := rawName[..end];
    if s.kind == 0 || s.kind == 8 {
      return Some(Scan(occupied, skipped));
    }
    if !InFile(s.offset, s.size, t.length) {
      return None;
    }
    var occupied', skipped' := occupied, skipped;
    if s.size > 0 {
      occupied' := occupied' + [(s.offset, s.offset + s.size)];
    }
    var debug := t.rule.IsDebugName(sectionName);
    if debug && s.kind == 1 && (s.flags == 0 || s.flags == 0x800) && index != t.h.names && s.size > 0 {
      skipped' := skipped' + [(s.offset, s.offset + s.size)];
    }
    return Some(Scan(occupied', skipped'));
  }

  /** The loop over the sections, appending to `occupied` and `skipped`. */
  method ScanLoop(t: Tables) returns (r: Option<Scan>)
    requires 0 < t.h.shnum == |t.sections|
    ensures r == ScanSections(t)
  {
    var occupied: seq<Range> := [(0, 64), (t.h.shoff, t.h.shoff + 64 * t.h.shnum)];
    if t.h.phnum > 0 {
      occupied := occupied + [(t.h.phoff, t.h.phoff + 56 * t.h.phnum)];
    }
    var skipped: seq<Range> := [];
    assert occupied == t.Fixed();
    for index := 1 to t.h.shnum
      invariant ScanFrom(t, Scan(occupied, skipped), index) == ScanSections(t)
    {
      var next := ScanOne(t, occupied, skipped, index);
      if next.None? {
        return None;
      }
      occupied, skipped := next.value.occupied, next.value.skipped;
    }
    return Some(Scan(occupied, skipped));
  }

  /** `any(left[1] > right[0] for left, right in zip(occupied, occupied[1:]))`, negated. */
  method NoOverlap(occupied: seq<Range>) returns (ok: bool)
    ensures ok == NeighboursApart(occupied)
  {
    var i := 0;
    while i + 1 < |occupied|
      invariant forall j :: 0 <= j < i && j + 1 < |occupied| ==> occupied[j].1 <= occupied[j + 1].0
    {
      if occupied[i].1 > occupied[i + 1].0 {
        return false;
      }
      i := i + 1;
    }
    return true;
  }

  lemma WindowsOk(f: seq<Byte>, t: Tables, phdrs: seq<Byte>)
    requires Windows(f) == Some((t, phdrs))
    ensures t.Ok() && t.length == |f| && |phdrs| == 56 * t.h.phnum
    ensures t.h.phoff + 56 * t.h.phnum <= |f| && phdrs == f[t.h.phoff..t.h.phoff + 56 * t.h.phnum]
  {
  }

  /** Before the segments are looked at, the sorted skipped ranges already tile. */
  lemma SkippedTile(t: Tables)
    requires t.Ok() && ScanSections(t).Some?
    requires NeighboursApart(Sort(ScanSections(t).value.occupied))
    ensures Tiled(Sort(ScanSections(t).value.skipped), t.length)
  {
    SkippedFacts(t);
  }

  /** The section loop, the overlap check and the segment check. */
  method RangesFromTables(f: seq<Byte>, t: Tables, phdrs: seq<Byte>) returns (r: Option<seq<Range>>)
    requires t.Ok() && t.length == |f| && t.h.phoff + 56 * t.h.phnum <= |f|
      && phdrs == f[t.h.phoff..t.h.phoff + 56 * t.h.phnum]
    ensures r == RangesOf(t, phdrs)
  {
    var scan := ScanLoop(t);
    if scan.None? {
      return None;
    }
    var occupied := Sort(scan.value.occupied);
    var apart := NoOverlap(occupied);
    if !apart {
      return None;
    }
    var skipped := Sort(scan.value.skipped);
    SkippedTile(t);
    var avoid := SegmentsAvoidRanges(f, t.h.little, t.h.phoff, t.h.phnum, skipped);
    return if avoid then Some(skipped) else None;
  }

  /** `_elf_debug_ranges`. */
  method ElfDebugRanges(f: seq<Byte>) returns (r: Option<seq<Range>>)
    ensures r == DebugRanges(f)
  {
    var windows := Windows(f);
    if windows.None? {
      return None;
    }
    WindowsOk(f, windows.value.0, windows.value.1);
    r := RangesFromTables(f, windows.value.0, windows.value.1);
  }

  // ---------------------------------------------------------------- the stream

  /** `struct.pack(">QQ", offset, size)` and the bytes, for every kept span from `offset` on. */
  function Stream(f: seq<Byte>, skipped: seq<Range>, offset: nat): seq<Byte>
    requires Tiled(skipped, |f|) && offset <= |f| && (skipped != [] ==> offset <= skipped[0].0)
    decreases |skipped|
  {
    if skipped == [] then Frame(f, offset, |f|)
    else
      assert forall i, j :: 0 <= i < j < |skipped| - 1 ==> skipped[1..][i].1 <= skipped[1..][j].0;
      Frame(f, offset, skipped[0].0) + Stream(f, skipped[1..], skipped[0].1)
  }

  function Frame(f: seq<Byte>, lo: nat, hi: nat): (b: seq<Byte>)
    requires lo <= hi <= |f|
    ensures |b| == 16 + hi - lo
  {
    BigEndian(lo, 8) + BigEndian(hi - lo, 8) + f[lo..hi]
  }

  /** Bytes kept by the stream. */
  function Kept(skipped: seq<Range>, offset: nat, length: nat): nat
    requires Tiled(skipped, length) && offset <= length && (skipped != [] ==> offset <= skipped[0].0)
    decreases |skipped|
  {
    if skipped == [] then length - offset
    else
      assert forall i, j :: 0 <= i < j < |skipped| - 1 ==> skipped[1..][i].1 <= skipped[1..][j].0;
      skipped[0].0 - offset + Kept(skipped[1..], skipped[0].1, length)
  }

  function Total(rs: seq<Range>): int {
    if rs == [] then 0 else rs[0].1 - rs[0].0 + Total(rs[1..])
  }

  /** The bytes kept and the bytes skipped are all the bytes. */
  lemma {:induction false} KeptAndSkipped(skipped: seq<Range>, offset: nat, length: nat)
    requires Tiled(skipped, length) && offset <= length && (skipped != [] ==> offset <= skipped[0].0)
    ensures Kept(skipped, offset, length) + Total(skipped) == length - offset
    decreases |skipped|
  {
    if skipped != [] {
      TailTiled(skipped, length);
      KeptAndSkipped(skipped[1..], skipped[0].1, length);
    }
  }

  lemma TailTiled(rs: seq<Range>, length: nat)
    requires Tiled(rs, length) && rs != []
    ensures Tiled(rs[1..], length) && (rs[1..] != [] ==> rs[0].1 <= rs[1..][0].0)
  {
  }

  lemma DropTiled(rs: seq<Range>, k: nat, length: nat)
    requires Tiled(rs, length) && k < |rs|
    ensures Tiled(rs[k..], length) && rs[k..][0] == rs[k] && rs[k..][1..] == rs[k + 1..]
    ensures Tiled(rs[k + 1..], length) && (rs[k + 1..] != [] ==> rs[k].1 <= rs[k + 1..][0].0)
  {
    assert forall i, j :: 0 <= i < j < |rs| - k ==> rs[k..][i].1 <= rs[k..][j].0;
    TailTiled(rs[k..], length);
  }

  /** `_executable_digest`: the bytes kept and the stream that is hashed. Spans are read
      in chunks of at most 1 MiB; the span sizes never go negative and the reads never
      run dry, so neither of its errors is raised on a file that does not change. */
  method ExecutableDigest(f: seq<Byte>) returns (r: Option<(nat, seq<Byte>)>)
    ensures r.None? <==> DebugRanges(f).None?
    ensures r.Some? ==> Tiled(DebugRanges(f).value, |f|)
    ensures r.Some? ==> r.value == (Kept(DebugRanges(f).value, 0, |f|), Stream(f, DebugRanges(f).value, 0))
  {
    var ranges := ElfDebugRanges(f);
    if ranges.None? {
      return None;
    }
    var t, phdrs := Inert(f);
    r := HashSpans(f, ranges.value);
  }

  lemma Inert(f: seq<Byte>) returns (t: Tables, phdrs: seq<Byte>)
    requires DebugRanges(f).Some?
    ensures Tiled(DebugRanges(f).value, |f|)
  {
    t, phdrs := SkippedIsInert(f);
  }

  method HashSpans(f: seq<Byte>, skipped: seq<Range>) returns (r: Option<(nat, seq<Byte>)>)
    requires Tiled(skipped, |f|)
    ensures r == Some((Kept(skipped, 0, |f|), Stream(f, skipped, 0)))
  {
    var covered: nat, offset: nat, digest: seq<Byte> := 0, 0, [];
    assert skipped[0..] == skipped;
    for k := 0 to |skipped|
      invariant SpansLeft(f, skipped, skipped[k..], covered, offset, digest)
    {
      covered, digest := HashSpan(f, skipped, k, covered, offset, digest, skipped[k].0, skipped[k].1);
      offset := skipped[k].1;
    }
    var last := ReadSpan(f, offset, |f|);
    return Some((covered + (|f| - offset), digest + last));
  }

  /** What is hashed and what is left make up the whole. */
  ghost predicate SpansLeft(f: seq<Byte>, skipped: seq<Range>, left: seq<Range>, covered: nat, offset: nat,
      digest: seq<Byte>) {
    && Tiled(skipped, |f|) && Tiled(left, |f|) && offset <= |f| && (left != [] ==> offset <= left[0].0)
    && covered + Kept(left, offset, |f|) == Kept(skipped, 0, |f|)
    && digest + Stream(f, left, offset) == Stream(f, skipped, 0)
  }

  /** One iteration of the hashing loop. */
  method HashSpan(f: seq<Byte>, ghost skipped: seq<Range>, ghost k: nat, covered: nat, offset: nat, digest: seq<Byte>,
      start: nat, end: nat) returns (covered': nat, digest': seq<Byte>)
    requires Tiled(skipped, |f|) && k < |skipped| && skipped[k] == (start, end) && Tiled(skipped[k..], |f|)
      && offset <= start
    ensures Tiled(skipped[k + 1..], |f|) && end <= |f| && (k + 1 < |skipped| ==> end <= skipped[k + 1].0)
    ensures covered' + Kept(skipped[k + 1..], end, |f|) == covered + Kept(skipped[k..], offset, |f|)
    ensures digest' + Stream(f, skipped[k + 1..], end) == digest + Stream(f, skipped[k..], offset)
  {
    SpanStep(f, skipped, k, offset, digest);
    var frame := ReadSpan(f, offset, start);
    covered', digest' := covered + (start - offset), digest + frame;
  }

  /** What one span takes off the front of the work left. */
  lemma SpanStep(f: seq<Byte>, skipped: seq<Range>, k: nat, offset: nat, digest: seq<Byte>)
    requires Tiled(skipped, |f|) && k < |skipped| && offset <= |f|
    requires Tiled(skipped[k..], |f|) && offset <= skipped[k].0
    ensures Tiled(skipped[k + 1..], |f|) && (k + 1 < |skipped| ==> skipped[k].1 <= skipped[k + 1].0)
    ensures Kept(skipped[k..], offset, |f|) == skipped[k].0 - offset + Kept(skipped[k + 1..], skipped[k].1, |f|)
    ensures digest + Stream(f, skipped[k..], offset)
         == (digest + Frame(f, offset, skipped[k].0)) + Stream(f, skipped[k + 1..], skipped[k].1)
  {
  }

  /** One span: the frame header, then the bytes chunk by chunk. */
  method ReadSpan(f: seq<Byte>, offset: nat, start: nat) returns (update: seq<Byte>)
    requires offset <= start <= |f|
    ensures update == Frame(f, offset, start)
  {
    var size := start - offset;
    update := BigEndian(offset, 8) + BigEndian(size, 8);
    var remaining, at := size, offset;
    while remaining > 0
      invariant at + remaining == start && offset <= at <= start
      invariant update == BigEndian(offset, 8) + BigEndian(size, 8) + f[offset..at]
    {
      var chunk := f[at..at + Min(remaining, 1024 * 1024)];
      assert f[offset..at] + chunk == f[offset..at + |chunk|];
      update := update + chunk;
      at, remaining := at + |chunk|, remaining - |chunk|;
    }
  }

  // ---------------------------------------------------------------- what the stream determines

  lemma BigEndianInjective(v: nat, w: nat, n: nat)
    requires v < Pow256(n) && w < Pow256(n) && BigEndian(v, n) == BigEndian(w, n)
    ensures v == w
  {
    BigEndianInverse(v, n);
    BigEndianInverse(w, n);
  }

  lemma FrameSplit(f: seq<Byte>, lo: nat, hi: nat, rest: seq<Byte>)
    requires lo <= hi <= |f|
    ensures Frame(f, lo, hi) + rest == BigEndian(lo, 8) + (BigEndian(hi - lo, 8) + (f[lo..hi] + rest))
  {
  }

  lemma FrameDecodes(f: seq<Byte>, lo: nat, hi: nat, g: seq<Byte>, lo': nat, hi': nat, rest: seq<Byte>,
      rest': seq<Byte>)
    requires lo <= hi <= |f| < Pow256(8) && lo' <= hi' <= |g| < Pow256(8)
    requires Frame(f, lo, hi) + rest == Frame(g, lo', hi') + rest'
    ensures lo == lo' && hi == hi' && f[lo..hi] == g[lo..hi] && rest == rest'
  {
    var x, x' := f[lo..hi] + rest, g[lo'..hi'] + rest';
    FrameSplit(f, lo, hi, rest);
    FrameSplit(g, lo', hi', rest');
    SplitEqual(BigEndian(lo, 8), BigEndian(lo', 8), BigEndian(hi - lo, 8) + x, BigEndian(hi' - lo', 8) + x');
    SplitEqual(BigEndian(hi - lo, 8), BigEndian(hi' - lo', 8), x, x');
    BigEndianInjective(lo, lo', 8);
    BigEndianInjective(hi - lo, hi' - lo', 8);
    SplitEqual(f[lo..hi], g[lo'..hi'], rest, rest');
  }

  /** Equal streams come from equal spans: the frames cannot be read any other way. */
  lemma {:induction false} StreamDecodes(f: seq<Byte>, rs: seq<Range>, g: seq<Byte>, rs': seq<Range>, lo: nat)
    requires |f| < Pow256(8) && |g| < Pow256(8)
    requires Tiled(rs, |f|) && lo <= |f| && (rs != [] ==> lo <= rs[0].0)
    requires Tiled(rs', |g|) && lo <= |g| && (rs' != [] ==> lo <= rs'[0].0)
    requires Stream(f, rs, lo) == Stream(g, rs', lo)
    ensures |f| == |g| && rs == rs'
    ensures forall p :: lo <= p < |f| && !Covered(rs, p) ==> f[p] == g[p]
    decreases |rs|
  {
    if rs == [] && rs' == [] {
      FrameDecodes(f, lo, |f|, g, lo, |g|, [], []);
      SpanAgrees(f, g, lo, |f|);
    } else if rs == [] {
      TailTiled(rs', |g|);
      StreamNotEmpty(g, rs'[1..], rs'[0].1);
      FrameDecodes(f, lo, |f|, g, lo, rs'[0].0, [], Stream(g, rs'[1..], rs'[0].1));
      assert false;
    } else if rs' == [] {
      TailTiled(rs, |f|);
      StreamNotEmpty(f, rs[1..], rs[0].1);
      FrameDecodes(f, lo, rs[0].0, g, lo, |g|, Stream(f, rs[1..], rs[0].1), []);
      assert false;
    } else {
      StreamStep(f, rs, g, rs', lo);
    }
  }

  lemma StreamNotEmpty(f: seq<Byte>, rs: seq<Range>, lo: nat)
    requires Tiled(rs, |f|) && lo <= |f| && (rs != [] ==> lo <= rs[0].0)
    ensures |Stream(f, rs, lo)| >= 16 && Stream(f, rs, lo)[..8] == BigEndian(lo, 8)
  {
  }

  lemma SpanAgrees(f: seq<Byte>, g: seq<Byte>, lo: nat, hi: nat)
    requires lo <= hi <= |f| && hi <= |g| && f[lo..hi] == g[lo..hi]
    ensures forall p :: lo <= p < hi ==> f[p] == g[p]
  {
  }

  lemma {:induction false} StreamStep(f: seq<Byte>, rs: seq<Range>, g: seq<Byte>, rs': seq<Range>, lo: nat)
    requires |f| < Pow256(8) && |g| < Pow256(8) && rs != [] && rs' != []
    requires Tiled(rs, |f|) && lo <= rs[0].0 && Tiled(rs', |g|) && lo <= rs'[0].0
    requires Stream(f, rs, lo) == Stream(g, rs', lo)
    ensures |f| == |g| && rs == rs'
    ensures forall p :: lo <= p < |f| && !Covered(rs, p) ==> f[p] == g[p]
    decreases |rs|, 0
  {
    var tail, tail' := rs[1..], rs'[1..];
    TailTiled(rs, |f|);
    TailTiled(rs', |g|);
    FrameDecodes(f, lo, rs[0].0, g, lo, rs'[0].0, Stream(f, tail, rs[0].1), Stream(g, tail', rs'[0].1));
    StreamNotEmpty(f, tail, rs[0].1);
    StreamNotEmpty(g, tail', rs'[0].1);
    BigEndianInverse(rs[0].1, 8);
    BigEndianInverse(rs'[0].1, 8);
    StreamDecodes(f, tail, g, tail', rs[0].1);
    assert rs == [rs[0]] + tail && rs' == [rs'[0]] + tail';
    SpanAgrees(f, g, lo, rs[0].0);
    forall p | lo <= p < |f| && !Covered(rs, p)
      ensures f[p] == g[p]
    {
      assert !(rs[0].0 <= p < rs[0].1);
      if p >= rs[0].1 {
        UncoveredTail(rs, p);
      }
    }
  }

  lemma UncoveredTail(rs: seq<Range>, p: nat)
    requires rs != [] && !Covered(rs, p)
    ensures !Covered(rs[1..], p)
  {
  }

  /** A kept span lies between two neighbouring skipped ranges. */
  lemma GapAgrees(f: seq<Byte>, g: seq<Byte>, all: seq<Range>, k: nat, lo: nat, hi: nat)
    requires Tiled(all, |f|) && AgreeOutside(f, g, all) && k <= |all| && lo <= hi <= |f|
    requires lo == (if k == 0 then 0 else all[k - 1].1) && hi == (if k == |all| then |f| else all[k].0)
    ensures f[lo..hi] == g[lo..hi]
  {
  }

  /** The other direction: files that agree outside the ranges feed the hash the same. */
  lemma {:induction false} SameStream(f: seq<Byte>, g: seq<Byte>, all: seq<Range>, k: nat, lo: nat)
    requires Tiled(all, |f|) && AgreeOutside(f, g, all) && k <= |all|
    requires lo == (if k == 0 then 0 else all[k - 1].1) && lo <= |f|
    requires Tiled(all[k..], |f|) && (k < |all| ==> lo <= all[k].0)
    ensures Stream(f, all[k..], lo) == Stream(g, all[k..], lo)
    decreases |all| - k
  {
    GapAgrees(f, g, all, k, lo, if k == |all| then |f| else all[k].0);
    if k < |all| {
      DropTiled(all, k, |f|);
      SameStream(f, g, all, k + 1, all[k].1);
    }
  }

  /** Two accepted files feed the hash the same bytes exactly when they have the same
      length, the same skipped ranges, and the same bytes everywhere outside them. */
  lemma FilteredIdentity(f: seq<Byte>, g: seq<Byte>)
    requires |f| < Pow256(8) && |g| < Pow256(8)
    requires DebugRanges(f).Some? && DebugRanges(g).Some?
    ensures Tiled(DebugRanges(f).value, |f|) && Tiled(DebugRanges(g).value, |g|)
    ensures Stream(f, DebugRanges(f).value, 0) == Stream(g, DebugRanges(g).value, 0) <==>
              DebugRanges(f) == DebugRanges(g) && AgreeOutside(f, g, DebugRanges(f).value)
  {
    var t, phdrs := Inert(f);
    var t', phdrs' := Inert(g);
    FilteredIdentityOf(f, g, DebugRanges(f).value, DebugRanges(g).value);
  }

  lemma FilteredIdentityOf(f: seq<Byte>, g: seq<Byte>, rs: seq<Range>, rs': seq<Range>)
    requires |f| < Pow256(8) && |g| < Pow256(8) && Tiled(rs, |f|) && Tiled(rs', |g|)
    ensures Stream(f, rs, 0) == Stream(g, rs', 0) <==> rs == rs' && AgreeOutside(f, g, rs)
  {
    if Stream(f, rs, 0) == Stream(g, rs', 0) {
      StreamDecodes(f, rs, g, rs', 0);
    }
    if rs == rs' && AgreeOutside(f, g, rs) {
      assert rs[0..] == rs;
      SameStream(f, g, rs, 0, 0);
    }
  }

  /** Editing only skipped bytes of an accepted file leaves its identity as it is. */
  lemma DebugEditsKeepIdentity(f: seq<Byte>, g: seq<Byte>)
    requires DebugRanges(f).Some? && AgreeOutside(f, g, DebugRanges(f).value)
    ensures DebugRanges(g) == DebugRanges(f) && Tiled(DebugRanges(f).value, |f|)
    ensures Stream(g, DebugRanges(g).value, 0) == Stream(f, DebugRanges(f).value, 0)
  {
    DebugBytesDoNotMatter(f, g);
    var t, phdrs := Inert(f);
    var rs := DebugRanges(f).value;
    assert rs[0..] == rs;
    SameStream(f, g, rs, 0, 0);
  }
}
