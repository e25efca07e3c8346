/** What the analysis of python/pypto/_identity.py guarantees: the skipped ranges hold
    nothing the analysis reads, and what lies in them cannot change its verdict. */
module ElfFiltering {
  import opened Options
  import opened Bytes
  import opened Elf

  // ---------------------------------------------------------------- the section loop

  ghost predicate AllFrom(rs: seq<Range>, pool: seq<Range>) {
    forall k :: 0 <= k < |rs| ==> rs[k] in pool
  }

  ghost predicate InBounds(rs: seq<Range>, length: nat) {
    forall k :: 0 <= k < |rs| ==> rs[k].1 <= length
  }

  /** Facts about the loop's lists that hold whether or not anything overlaps. */
  ghost predicate ScanOk(t: Tables, acc: Scan, n: nat)
    requires t.Ok()
  {
    && |t.Fixed()| <= |acc.occupied| && acc.occupied[..|t.Fixed()|] == t.Fixed()
    && NoneEmpty(acc.occupied) && NoneEmpty(acc.skipped)
    && InBounds(acc.skipped, t.length)
    && AllFrom(acc.skipped, acc.occupied[|t.Fixed()|..])
    && (t.h.names < n ==> t.NamesRange() in acc.occupied[|t.Fixed()|..])
  }

  /** What one iteration does to the lists, the section's details left out. */
  ghost predicate StepRel(t: Tables, acc: Scan, next: Scan, i: nat, x: Range)
    requires t.Ok()
  {
    && x.0 <= x.1 <= t.length
    && (next.occupied == acc.occupied || (x.0 < x.1 && next.occupied == acc.occupied + [x]))
    && (next.skipped == acc.skipped || (i != t.h.names && next.occupied == acc.occupied + [x]
        && next.skipped == acc.skipped + [x]))
    && (i == t.h.names ==> x == t.NamesRange() && next.occupied == acc.occupied + [x])
  }

  lemma StepHasRel(t: Tables, acc: Scan, next: Scan, i: nat) returns (x: Range)
    requires t.Ok() && i < t.h.shnum && ScanSection(t, acc, i) == Some(next)
    ensures StepRel(t, acc, next, i, x)
  {
    var s := t.sections[i];
    x := if s.kind == 0 || s.kind == 8 then (0, 0) else (s.offset, s.offset + s.size);
    if i == t.h.names {
      assert x == t.NamesRange();
    }
    match NameAt(t.names, s.name)
    case Some(name) =>
      if s.kind != 0 && s.kind != 8 {
        assert next.occupied == if s.size > 0 then acc.occupied + [x] else acc.occupied;
        assert next.skipped == if IsSkippable(t, i, s, name) then acc.skipped + [x] else acc.skipped;
      }
  }

  lemma ScanStepOk(t: Tables, acc: Scan, next: Scan, i: nat, x: Range)
    requires t.Ok() && ScanOk(t, acc, i) && StepRel(t, acc, next, i, x)
    ensures ScanOk(t, next, i + 1)
  {
    var k := |t.Fixed()|;
    if next.occupied != acc.occupied {
      assert next.occupied[..k] == acc.occupied[..k];
      assert next.occupied[k..] == acc.occupied[k..] + [x];
    }
  }

  ghost predicate ApartFromAll(rs: seq<Range>, r: Range) {
    forall k :: 0 <= k < |rs| ==> Apart(rs[k], r)
  }

  /** When nothing overlaps, a skipped range is apart from everything fixed, from the
      name table, and from every other skipped range. */
  ghost predicate SkippedApart(t: Tables, acc: Scan, n: nat)
    requires t.Ok()
  {
    && AllApart(acc.skipped)
    && (forall b :: b in t.Fixed() ==> ApartFromAll(acc.skipped, b))
    && (t.h.names < n ==> ApartFromAll(acc.skipped, t.NamesRange()))
  }

  lemma PrefixApart(s: seq<Range>, x: Range)
    requires AllApart(s + [x])
    ensures AllApart(s) && forall y :: y in s ==> Apart(y, x)
  {
    var r := s + [x];
    forall i, j | 0 <= i < j < |s|
      ensures Apart(s[i], s[j])
    {
      assert Apart(r[i], r[j]);
    }
    forall y | y in s
      ensures Apart(y, x)
    {
      var i :| 0 <= i < |s| && s[i] == y;
      assert Apart(r[i], r[|s|]);
    }
  }

  lemma SnocApart(s: seq<Range>, x: Range)
    requires AllApart(s) && forall k :: 0 <= k < |s| ==> Apart(s[k], x)
    ensures AllApart(s + [x])
  {
  }

  lemma ScanStepApart(t: Tables, acc: Scan, next: Scan, i: nat, x: Range)
    requires t.Ok() && ScanOk(t, acc, i) && StepRel(t, acc, next, i, x)
    requires AllApart(next.occupied)
    requires AllApart(acc.occupied) ==> SkippedApart(t, acc, i)
    ensures SkippedApart(t, next, i + 1)
  {
    if next.occupied != acc.occupied {
      PrefixApart(acc.occupied, x);
      forall b | b in t.Fixed()
        ensures b in acc.occupied
      {
        assert b in acc.occupied[..|t.Fixed()|];
      }
      forall j | 0 <= j < |acc.skipped|
        ensures acc.skipped[j] in acc.occupied
      {
        assert acc.skipped[j] in acc.occupied[|t.Fixed()|..];
      }
      if next.skipped != acc.skipped {
        SnocApart(acc.skipped, x);
      }
      forall b | b in t.Fixed()
        ensures ApartFromAll(next.skipped, b)
      {
        assert ApartFromAll(acc.skipped, b) && Apart(b, x);
      }
      if t.h.names < i {
        assert t.NamesRange() in acc.occupied[|t.Fixed()|..];
        assert ApartFromAll(acc.skipped, t.NamesRange()) && Apart(t.NamesRange(), x);
      }
    } else {
      assert next.skipped == acc.skipped;
    }
  }

  /** The loop invariant: the lists are as they should be, and if nothing overlaps so
      far, the skipped ranges are apart from everything seen. */
  ghost predicate ScanInv(t: Tables, acc: Scan, i: nat)
    requires t.Ok()
  {
    ScanOk(t, acc, i) && (AllApart(acc.occupied) ==> SkippedApart(t, acc, i))
  }

  lemma ScanStepInv(t: Tables, acc: Scan, next: Scan, i: nat)
    requires t.Ok() && i < t.h.shnum && ScanInv(t, acc, i) && ScanSection(t, acc, i) == Some(next)
    ensures ScanInv(t, next, i + 1)
  {
    var x := StepHasRel(t, acc, next, i);
    ScanStepOk(t, acc, next, i, x);
    if AllApart(next.occupied) {
      ScanStepApart(t, acc, next, i, x);
    }
  }

  lemma ScanBaseInv(t: Tables)
    requires t.Ok()
    ensures ScanInv(t, Scan(t.Fixed(), []), 1)
  {
  }

  lemma ScanFromStep(t: Tables, acc: Scan, i: nat, done: Scan) returns (next: Scan)
    requires t.Ok() && i < t.h.shnum && ScanInv(t, acc, i) && ScanFrom(t, acc, i) == Some(done)
    ensures ScanInv(t, next, i + 1) && ScanFrom(t, next, i + 1) == Some(done)
  {
    next := ScanSection(t, acc, i).value;
    ScanStepInv(t, acc, next, i);
  }

  /** Before section `i` the loop holds its invariant and is on the way to `done`. */
  ghost predicate OnTheWay(t: Tables, i: nat, done: Scan)
    requires t.Ok() && i <= t.h.shnum
  {
    exists acc :: ScanInv(t, acc, i) && ScanFrom(t, acc, i) == Some(done)
  }

  lemma OneSection(t: Tables, i: nat, done: Scan)
    requires t.Ok() && i < t.h.shnum && OnTheWay(t, i, done)
    ensures OnTheWay(t, i + 1, done)
  {
    var acc :| ScanInv(t, acc, i) && ScanFrom(t, acc, i) == Some(done);
    var next := ScanFromStep(t, acc, i, done);
  }

  lemma {:induction false} AllSections(t: Tables, i: nat, done: Scan)
    requires t.Ok() && i <= t.h.shnum && OnTheWay(t, i, done)
    ensures OnTheWay(t, t.h.shnum, done)
    decreases t.h.shnum - i
  {
    if i < t.h.shnum {
      OneSection(t, i, done);
      AllSections(t, i + 1, done);
    }
  }

  lemma ScanFromInv(t: Tables, start: Scan, done: Scan)
    requires t.Ok() && ScanInv(t, start, 1) && ScanFrom(t, start, 1) == Some(done)
    ensures ScanInv(t, done, t.h.shnum)
  {
    assert OnTheWay(t, 1, done);
    AllSections(t, 1, done);
    var acc :| ScanInv(t, acc, t.h.shnum) && ScanFrom(t, acc, t.h.shnum) == Some(done);
    assert acc == done;
  }

  // ---------------------------------------------------------------- the skipped ranges

  /** Ranges in order, none empty, none touching another, all inside the file. */
  ghost predicate Tiled(rs: seq<Range>, length: nat) {
    && NoneEmpty(rs) && InBounds(rs, length)
    && forall i, j :: 0 <= i < j < |rs| ==> rs[i].1 <= rs[j].0
  }

  lemma SortKeeps(s: seq<Range>, length: nat)
    requires NoneEmpty(s) && InBounds(s, length)
    ensures NoneEmpty(Sort(s)) && InBounds(Sort(s), length)
  {
    forall k | 0 <= k < |Sort(s)|
      ensures Sort(s)[k].0 < Sort(s)[k].1 <= length
    {
      SameMembers(s, Sort(s)[k]);
    }
  }

  lemma SortNonEmpty(s: seq<Range>)
    requires NoneEmpty(s)
    ensures NoneEmpty(Sort(s))
  {
    forall k | 0 <= k < |Sort(s)|
      ensures Sort(s)[k].0 < Sort(s)[k].1
    {
      SameMembers(s, Sort(s)[k]);
    }
  }

  /** Insertion keeps ranges apart, so sorting does. */
  lemma {:induction false} InsertKeepsApart(x: Range, s: seq<Range>)
    requires AllApart(s) && forall y :: y in s ==> Apart(x, y)
    ensures AllApart(Insert(x, s))
  {
    if s == [] || Before(x, s[0]) {
      ConsApart(x, s);
    } else {
      TailApart(s);
      InsertKeepsApart(x, s[1..]);
      var r := Insert(x, s[1..]);
      forall y | y in r
        ensures Apart(s[0], y)
      {
        assert y in multiset(r);
        assert y in s[1..] || y == x;
        assert s[0] in s && Apart(x, s[0]);
      }
      ConsApart(s[0], r);
    }
  }

  lemma {:induction false} SortKeepsApart(s: seq<Range>)
    requires AllApart(s)
    ensures AllApart(Sort(s))
  {
    if s != [] {
      TailApart(s);
      SortKeepsApart(s[1..]);
      forall y | y in Sort(s[1..])
        ensures Apart(s[0], y)
      {
        SameMembers(s[1..], y);
      }
      InsertKeepsApart(s[0], Sort(s[1..]));
    }
  }

  /** What the loop and the overlap check mean for the ranges: in order, apart from one
      another, and apart from everything the analysis reads. */
  lemma SkippedFacts(t: Tables)
    requires t.Ok() && ScanSections(t).Some?
    requires NeighboursApart(Sort(ScanSections(t).value.occupied))
    ensures var rs := Sort(ScanSections(t).value.skipped);
            && Tiled(rs, t.length)
            && (forall b :: b in t.Fixed() ==> ApartFromAll(rs, b))
            && ApartFromAll(rs, t.NamesRange())
  {
    var scan := ScanSections(t).value;
    ScanBaseInv(t);
    ScanFromInv(t, Scan(t.Fixed(), []), ScanSections(t).value);
    OverlapCheckDecides(scan.occupied);
    SortedSkipped(t, scan);
  }

  /** The check on the neighbours of the sorted list decides whether any two of the
      collected ranges, none of them empty, overlap. */
  lemma OverlapCheckDecides(occupied: seq<Range>)
    requires NoneEmpty(occupied)
    ensures NeighboursApart(Sort(occupied)) <==> AllApart(occupied)
  {
    SortNonEmpty(occupied);
    SortSorts(occupied);
    var all := Sort(occupied);
    if NeighboursApart(all) {
      forall i, j | 0 <= i < j < |all|
        ensures Apart(all[i], all[j])
      {
        NeighboursToAll(all, i, j);
      }
      SortedApart(occupied);
    }
    if AllApart(occupied) {
      SortKeepsApart(occupied);
      forall i | 0 <= i < |all| - 1
        ensures all[i].1 <= all[i + 1].0
      {
        assert Apart(all[i], all[i + 1]) && Before(all[i], all[i + 1]);
      }
    }
  }

  lemma SortedSkipped(t: Tables, scan: Scan)
    requires t.Ok() && ScanOk(t, scan, t.h.shnum) && SkippedApart(t, scan, t.h.shnum)
    ensures var rs := Sort(scan.skipped);
            && Tiled(rs, t.length)
            && (forall b :: b in t.Fixed() ==> ApartFromAll(rs, b))
            && ApartFromAll(rs, t.NamesRange())
  {
    var rs := Sort(scan.skipped);
    SortKeeps(scan.skipped, t.length);
    SortSorts(scan.skipped);
    SortKeepsApart(scan.skipped);
    forall i, j | 0 <= i < j < |rs|
      ensures rs[i].1 <= rs[j].0
    {
      assert Before(rs[i], rs[j]) && Apart(rs[i], rs[j]);
    }
    forall k | 0 <= k < |rs|
      ensures (forall b :: b in t.Fixed() ==> Apart(rs[k], b)) && Apart(rs[k], t.NamesRange())
    {
      SameMembers(scan.skipped, rs[k]);
      var j :| 0 <= j < |scan.skipped| && scan.skipped[j] == rs[k];
      forall b | b in t.Fixed()
        ensures Apart(rs[k], b)
      {
        assert ApartFromAll(scan.skipped, b);
      }
    }
  }

  lemma AcceptedRanges(t: Tables, phdrs: seq<Byte>)
    requires t.Ok() && |phdrs| == 56 * t.h.phnum && RangesOf(t, phdrs).Some?
    ensures var rs := RangesOf(t, phdrs).value;
            && Tiled(rs, t.length)
            && (forall b :: b in t.Fixed() ==> ApartFromAll(rs, b))
            && ApartFromAll(rs, t.NamesRange())
  {
    SkippedFacts(t);
  }

  // ---------------------------------------------------------------- invariance

  ghost predicate Covered(rs: seq<Range>, p: nat) {
    exists k :: 0 <= k < |rs| && rs[k].0 <= p < rs[k].1
  }

  /** Two files of one length that agree outside the ranges. */
  ghost predicate AgreeOutside(f: seq<Byte>, g: seq<Byte>, rs: seq<Range>) {
    |f| == |g| && forall p :: 0 <= p < |f| && !Covered(rs, p) ==> f[p] == g[p]
  }

  /** A window apart from all the ranges is the same in both files. */
  lemma WindowAgrees(f: seq<Byte>, g: seq<Byte>, rs: seq<Range>, lo: nat, hi: nat)
    requires AgreeOutside(f, g, rs) && lo <= hi <= |f| && ApartFromAll(rs, (lo, hi))
    ensures f[lo..hi] == g[lo..hi]
  {
  }

  /** The windows an accepted file shows the analysis, and where they lie. */
  lemma AcceptedWindows(f: seq<Byte>) returns (t: Tables, phdrs: seq<Byte>)
    requires Windows(f).Some?
    ensures Windows(f) == Some((t, phdrs)) && t.Ok() && t.length == |f| && |phdrs| == 56 * t.h.phnum
    ensures phdrs == f[t.h.phoff..t.h.phoff + 56 * t.h.phnum]
    ensures t.NamesRange().1 <= |f| && t.names == f[t.NamesRange().0..t.NamesRange().1]
  {
    t, phdrs := Windows(f).value.0, Windows(f).value.1;
  }

  /** A file that shows the analysis the same bytes in the same places shows it the same windows. */
  lemma SameWindows(f: seq<Byte>, g: seq<Byte>, t: Tables, phdrs: seq<Byte>)
    requires |f| == |g| && HeaderOk(t.h, |f|) && WindowsFor(f, t.h) == Some((t, phdrs)) && t.Ok()
    requires f[t.h.shoff..t.h.shoff + 64 * t.h.shnum] == g[t.h.shoff..t.h.shoff + 64 * t.h.shnum]
    requires t.NamesRange().1 <= |f| && f[t.NamesRange().0..t.NamesRange().1] == g[t.NamesRange().0..t.NamesRange().1]
    requires f[t.h.phoff..t.h.phoff + 56 * t.h.phnum] == g[t.h.phoff..t.h.phoff + 56 * t.h.phnum]
    ensures WindowsFor(g, t.h) == WindowsFor(f, t.h)
  {
  }

  lemma SameHeader(f: seq<Byte>, g: seq<Byte>)
    requires |f| == |g| && 64 <= |f| && f[0..64] == g[0..64]
    ensures HeaderOf(f) == HeaderOf(g)
  {
  }

  /** The ranges are apart from everything the analysis of `f` reads. */
  ghost predicate ReadsApart(f: seq<Byte>, t: Tables, rs: seq<Range>) {
    && t.Ok() && HeaderOk(t.h, |f|) && t.NamesRange().1 <= |f|
    && ApartFromAll(rs, (0, 64)) && ApartFromAll(rs, (t.h.shoff, t.h.shoff + 64 * t.h.shnum))
    && ApartFromAll(rs, t.NamesRange())
    && (t.h.phnum > 0 ==> ApartFromAll(rs, (t.h.phoff, t.h.phoff + 56 * t.h.phnum)))
  }

  lemma AcceptedReadsApart(f: seq<Byte>, t: Tables, phdrs: seq<Byte>, rs: seq<Range>)
    requires Windows(f) == Some((t, phdrs)) && t.Ok() && t.length == |f| && RangesOf(t, phdrs) == Some(rs)
    ensures ReadsApart(f, t, rs)
  {
    AcceptedRanges(t, phdrs);
    assert t.Fixed()[0] in t.Fixed() && t.Fixed()[1] in t.Fixed();
    if t.h.phnum > 0 {
      assert t.Fixed()[2] in t.Fixed();
    }
  }

  lemma ReadBytesAgree(f: seq<Byte>, g: seq<Byte>, t: Tables, phdrs: seq<Byte>, rs: seq<Range>)
    requires ReadsApart(f, t, rs) && AgreeOutside(f, g, rs) && Windows(f) == Some((t, phdrs))
    ensures Windows(g) == Windows(f)
  {
    WindowAgrees(f, g, rs, 0, 64);
    WindowAgrees(f, g, rs, t.h.shoff, t.h.shoff + 64 * t.h.shnum);
    WindowAgrees(f, g, rs, t.NamesRange().0, t.NamesRange().1);
    if t.h.phnum > 0 {
      WindowAgrees(f, g, rs, t.h.phoff, t.h.phoff + 56 * t.h.phnum);
    }
    SameWindows(f, g, t, phdrs);
    SameHeader(f, g);
  }

  /** Every skipped range lies in the file, apart from the others, from the ELF header,
      the section table, the name table and the program headers, and no segment with
      file contents touches it. */
  lemma SkippedIsInert(f: seq<Byte>) returns (t: Tables, phdrs: seq<Byte>)
    requires DebugRanges(f).Some?
    ensures Windows(f) == Some((t, phdrs))
    ensures Tiled(DebugRanges(f).value, |f|) && ReadsApart(f, t, DebugRanges(f).value)
    ensures SegmentsOk(phdrs, t.h.little, t.h.phnum, DebugRanges(f).value, |f|)
  {
    t, phdrs := AcceptedWindows(f);
    AcceptedRanges(t, phdrs);
    AcceptedReadsApart(f, t, phdrs, DebugRanges(f).value);
  }

  lemma SameRanges(f: seq<Byte>, g: seq<Byte>)
    requires Windows(f) == Windows(g)
    ensures DebugRanges(f) == DebugRanges(g)
  {
  }

  /** Changing an accepted file inside its skipped ranges only changes nothing: the
      other file is accepted, with the same ranges. */
  lemma DebugBytesDoNotMatter(f: seq<Byte>, g: seq<Byte>)
    requires DebugRanges(f).Some? && AgreeOutside(f, g, DebugRanges(f).value)
    ensures DebugRanges(g) == DebugRanges(f)
  {
    var t, phdrs := AcceptedWindows(f);
    AcceptedReadsApart(f, t, phdrs, DebugRanges(f).value);
    ReadBytesAgree(f, g, t, phdrs, DebugRanges(f).value);
    SameRanges(f, g);
  }
}
