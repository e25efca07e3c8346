/** `collect_external_source_files` of python/pypto/_external_source.py: the sources and,
    depth first, every file they include, each once. */
module SourceClosure {
  import opened Options
  import opened Bytes

  type Path = string

  /** An include directive: quoted ones look beside the including file first. */
  datatype Include = Include(quoted: bool, text: string)

  /** A file as the collector sees it; `includes` are the directives found in its text. */
  datatype File = File(name: seq<Byte>, content: seq<Byte>, includes: seq<Include>)

  /** `files` is keyed by resolved paths. `resolve` follows links, `beside(p, t)` is
      `p.parent / t`, `within(d, t)` is `d / t`. */
  datatype FileSystem = FileSystem(files: map<Path, File>, resolve: Path -> Path,
                                   beside: (Path, string) -> Path, within: (Path, string) -> Path)
  {
    predicate IsFile(p: Path) { resolve(p) in files }
    ghost predicate Ok() { forall p :: p in files ==> resolve(p) == p }
  }

  function Candidates(fs: FileSystem, dirs: seq<Path>, file: Path, inc: Include): seq<Path> {
    (if inc.quoted then [fs.beside(file, inc.text)] else []) + Within(fs, dirs, inc.text)
  }

  function Within(fs: FileSystem, dirs: seq<Path>, text: string): seq<Path> {
    if dirs == [] then [] else [fs.within(dirs[0], text)] + Within(fs, dirs[1..], text)
  }

  /** The first candidate that is a file. */
  function FirstFile(fs: FileSystem, candidates: seq<Path>): (r: Option<Path>)
    ensures r.Some? ==> fs.IsFile(r.value)
  {
    if candidates == [] then None
    else if fs.IsFile(candidates[0]) then Some(candidates[0])
    else FirstFile(fs, candidates[1..])
  }

  /** The resolved files that include directives `incs` of `file` lead to. */
  function Dependencies(fs: FileSystem, dirs: seq<Path>, file: Path, incs: seq<Include>): (deps: seq<Path>)
    ensures forall d :: d in deps ==> d in fs.files
  {
    if incs == [] then []
    else match FirstFile(fs, Candidates(fs, dirs, file, incs[0]))
      case Some(c) => [fs.resolve(c)] + Dependencies(fs, dirs, file, incs[1..])
      case None => Dependencies(fs, dirs, file, incs[1..])
  }

  function Deps(fs: FileSystem, dirs: seq<Path>, file: Path): (deps: seq<Path>)
    requires file in fs.files
    ensures forall d :: d in deps ==> d in fs.files
  {
    Dependencies(fs, dirs, file, fs.files[file].includes)
  }

  // ---------------------------------------------------------------- what a directive means

  /** The file that directive `inc` of `file` brings in: of a quoted one the file beside
      `file`, if there is one; otherwise the file in the first directory that has one. */
  ghost predicate Brings(fs: FileSystem, dirs: seq<Path>, file: Path, inc: Include, d: Path) {
    if inc.quoted && fs.IsFile(fs.beside(file, inc.text)) then d == fs.resolve(fs.beside(file, inc.text))
    else exists i :: 0 <= i < |dirs| && IsFirst(fs, dirs, inc.text, i) && d == fs.resolve(fs.within(dirs[i], inc.text))
  }

  /** Directory `i` has the file, and none before it. */
  ghost predicate IsFirst(fs: FileSystem, dirs: seq<Path>, text: string, i: nat)
    requires i < |dirs|
  {
    fs.IsFile(fs.within(dirs[i], text)) && forall j :: 0 <= j < i ==> !fs.IsFile(fs.within(dirs[j], text))
  }

  lemma {:induction false} FirstWithin(fs: FileSystem, dirs: seq<Path>, text: string, c: Path)
    ensures FirstFile(fs, Within(fs, dirs, text)) == Some(c)
        ==> exists i :: 0 <= i < |dirs| && IsFirst(fs, dirs, text, i) && c == fs.within(dirs[i], text)
    ensures FirstFile(fs, Within(fs, dirs, text)) == None ==>
              forall i :: 0 <= i < |dirs| ==> !fs.IsFile(fs.within(dirs[i], text))
  {
    if dirs != [] {
      FirstWithin(fs, dirs[1..], text, c);
      if fs.IsFile(fs.within(dirs[0], text)) {
        assert IsFirst(fs, dirs, text, 0);
      } else if FirstFile(fs, Within(fs, dirs, text)) == Some(c) {
        var i :| 0 <= i < |dirs[1..]| && IsFirst(fs, dirs[1..], text, i) && c == fs.within(dirs[1..][i], text);
        forall j | 0 <= j < i + 1
          ensures !fs.IsFile(fs.within(dirs[j], text))
        {
          if j > 0 { assert dirs[j] == dirs[1..][j - 1]; }
        }
        assert IsFirst(fs, dirs, text, i + 1);
      } else if FirstFile(fs, Within(fs, dirs, text)) == None {
        forall i | 0 <= i < |dirs|
          ensures !fs.IsFile(fs.within(dirs[i], text))
        {
          if i > 0 { assert dirs[i] == dirs[1..][i - 1]; }
        }
      }
    }
  }

  /** A directive brings in at most one file, the first candidate's. */
  lemma BringsExactly(fs: FileSystem, dirs: seq<Path>, file: Path, inc: Include, d: Path)
    ensures var first := FirstFile(fs, Candidates(fs, dirs, file, inc));
            Brings(fs, dirs, file, inc, d) <==> first.Some? && fs.resolve(first.value) == d
  {
    var within := Within(fs, dirs, inc.text);
    var all := Candidates(fs, dirs, file, inc);
    if inc.quoted {
      assert all[0] == fs.beside(file, inc.text) && all[1..] == within;
    } else {
      assert all == within;
    }
    if !(inc.quoted && fs.IsFile(fs.beside(file, inc.text))) {
      var first := FirstFile(fs, within);
      FirstWithin(fs, dirs, inc.text, if first.Some? then first.value else d);
      if Brings(fs, dirs, file, inc, d) {
        var i :| 0 <= i < |dirs| && IsFirst(fs, dirs, inc.text, i) && d == fs.resolve(fs.within(dirs[i], inc.text));
        assert first.Some?;
        var k :| 0 <= k < |dirs| && IsFirst(fs, dirs, inc.text, k) && first.value == fs.within(dirs[k], inc.text);
        assert k == i;
      }
    }
  }

  /** The dependencies of a file, in the order of its directives: one more directive adds the
      file it brings in, if there is one. */
  lemma {:induction false} DependenciesInOrder(fs: FileSystem, dirs: seq<Path>, file: Path, incs: seq<Include>,
      inc: Include)
    ensures Dependencies(fs, dirs, file, []) == []
    ensures forall d :: Brings(fs, dirs, file, inc, d) ==>
              Dependencies(fs, dirs, file, incs + [inc]) == Dependencies(fs, dirs, file, incs) + [d]
    ensures !(exists d :: Brings(fs, dirs, file, inc, d)) ==>
              Dependencies(fs, dirs, file, incs + [inc]) == Dependencies(fs, dirs, file, incs)
  {
    if incs == [] {
      assert ([] + [inc])[0] == inc && ([] + [inc])[1..] == [];
      var first := FirstFile(fs, Candidates(fs, dirs, file, inc));
      forall d
        ensures Brings(fs, dirs, file, inc, d) <==> first.Some? && fs.resolve(first.value) == d
      {
        BringsExactly(fs, dirs, file, inc, d);
      }
      if first.Some? { assert Brings(fs, dirs, file, inc, fs.resolve(first.value)); }
    } else {
      assert (incs + [inc])[0] == incs[0] && (incs + [inc])[1..] == incs[1..] + [inc];
      DependenciesInOrder(fs, dirs, file, incs[1..], inc);
    }
  }

  /** `file` includes `d` by some directive. */
  ghost predicate IncludesFile(fs: FileSystem, dirs: seq<Path>, file: Path, d: Path)
    requires file in fs.files
  {
    exists k :: 0 <= k < |fs.files[file].includes| && Brings(fs, dirs, file, fs.files[file].includes[k], d)
  }

  lemma {:induction false} DependsBySome(fs: FileSystem, dirs: seq<Path>, file: Path, incs: seq<Include>, d: Path)
    ensures d in Dependencies(fs, dirs, file, incs)
       <==> exists k :: 0 <= k < |incs| && Brings(fs, dirs, file, incs[k], d)
  {
    if incs != [] {
      BringsExactly(fs, dirs, file, incs[0], d);
      DependsBySome(fs, dirs, file, incs[1..], d);
      if k :| 0 < k < |incs| && Brings(fs, dirs, file, incs[k], d) {
        assert incs[1..][k - 1] == incs[k];
      }
      if k :| 0 <= k < |incs[1..]| && Brings(fs, dirs, file, incs[1..][k], d) {
        assert incs[k + 1] == incs[1..][k];
      }
    }
  }

  lemma DepsExactly(fs: FileSystem, dirs: seq<Path>, file: Path, d: Path)
    requires file in fs.files
    ensures d in Deps(fs, dirs, file) <==> IncludesFile(fs, dirs, file, d)
  {
    DependsBySome(fs, dirs, file, fs.files[file].includes, d);
  }

  // ---------------------------------------------------------------- the order, as a function

  ghost predicate Known(fs: FileSystem, ps: seq<Path>) {
    forall p :: p in ps ==> p in fs.files
  }

  ghost function Unseen(fs: FileSystem, ordered: seq<Path>): set<Path> {
    set p | p in fs.files && p !in ordered
  }

  lemma UnseenShrinks(fs: FileSystem, a: seq<Path>, b: seq<Path>)
    requires forall p :: p in a ==> p in b
    ensures |Unseen(fs, b)| <= |Unseen(fs, a)|
    ensures (exists p :: p in fs.files && p in b && p !in a) ==> |Unseen(fs, b)| < |Unseen(fs, a)|
  {
    Subset(Unseen(fs, b), Unseen(fs, a));
    if p :| p in fs.files && p in b && p !in a {
      Subset(Unseen(fs, b), Unseen(fs, a) - {p});
    }
  }

  lemma {:induction false} Subset(a: set<Path>, b: set<Path>)
    requires a <= b
    ensures |a| <= |b|
    decreases a
  {
    if x :| x in a {
      Subset(a - {x}, b - {x});
    }
  }

  /** Depth-first order: visit `todo` from left to right after `ordered` has been seen. */
  ghost function Order(fs: FileSystem, dirs: seq<Path>, todo: seq<Path>, ordered: seq<Path>): (r: seq<Path>)
    requires Known(fs, todo)
    ensures ordered <= r
    decreases |Unseen(fs, ordered)|, |todo|
  {
    if todo == [] then ordered
    else if todo[0] in ordered then Order(fs, dirs, todo[1..], ordered)
    else
      UnseenShrinks(fs, ordered, ordered + [todo[0]]);
      assert todo[0] in fs.files && todo[0] in ordered + [todo[0]];
      var inner := Order(fs, dirs, Deps(fs, dirs, todo[0]), ordered + [todo[0]]);
      UnseenShrinks(fs, ordered, inner);
      Order(fs, dirs, todo[1..], inner)
  }

  lemma {:induction false} OrderAppend(fs: FileSystem, dirs: seq<Path>, a: seq<Path>, b: seq<Path>, ordered: seq<Path>)
    requires Known(fs, a) && Known(fs, b)
    ensures Known(fs, a + b)
    ensures Order(fs, dirs, a + b, ordered) == Order(fs, dirs, b, Order(fs, dirs, a, ordered))
    decreases |Unseen(fs, ordered)|, |a|
  {
    if a == [] {
      assert a + b == b;
    } else {
      assert (a + b)[1..] == a[1..] + b && (a + b)[0] == a[0];
      if a[0] in ordered {
        OrderAppend(fs, dirs, a[1..], b, ordered);
      } else {
        UnseenShrinks(fs, ordered, ordered + [a[0]]);
        assert a[0] in fs.files && a[0] in ordered + [a[0]];
        var inner := Order(fs, dirs, Deps(fs, dirs, a[0]), ordered + [a[0]]);
        UnseenShrinks(fs, ordered, inner);
        OrderAppend(fs, dirs, a[1..], b, inner);
      }
    }
  }

  /** A file comes before all that it includes, directly behind what was seen before it. */
  lemma FileComesFirst(fs: FileSystem, dirs: seq<Path>, todo: seq<Path>, ordered: seq<Path>)
    requires Known(fs, todo) && todo != [] && todo[0] !in ordered
    ensures ordered + [todo[0]] <= Order(fs, dirs, todo, ordered)
  {
    UnseenShrinks(fs, ordered, ordered + [todo[0]]);
    assert todo[0] in fs.files && todo[0] in ordered + [todo[0]];
  }

  // ---------------------------------------------------------------- the collector

  /** The nested function `visit` and the two collections it updates. */
  class Collector {
    const fs: FileSystem
    const searchDirs: seq<Path>
    var ordered: seq<Path>
    var visited: set<Path>

    ghost predicate Valid()
      reads this
    {
      visited == (set p | p in ordered) && fs.Ok() && Known(fs, ordered)
    }

    constructor (fs: FileSystem, includeDirs: seq<Path>)
      requires fs.Ok()
      ensures Valid() && ordered == [] && this.fs == fs && this.searchDirs == includeDirs
    {
      this.fs, searchDirs := fs, includeDirs;
      ordered, visited := [], {};
    }

    /** Visits one path; false where the source raises FileNotFoundError. */
    method Visit(path: Path) returns (ok: bool)
      requires Valid()
      modifies this
      ensures Valid() && ok == fs.IsFile(path)
      ensures ok ==> ordered == Order(fs, searchDirs, [fs.resolve(path)], old(ordered))
      ensures !ok ==> ordered == old(ordered)
      decreases |Unseen(fs, ordered)|, 1
    {
      var resolved := fs.resolve(path);
      if resolved in visited {
        return true;
      }
      if resolved !in fs.files {
        return false;
      }
      UnseenShrinks(fs, ordered, ordered + [resolved]);
      assert resolved in ordered + [resolved];
      visited := visited + {resolved};
      ordered := ordered + [resolved];
      VisitIncludes(resolved);
      assert [resolved][1..] == [];
      return true;
    }

    /** The loop over the include directives of one file. */
    method VisitIncludes(file: Path)
      requires Valid() && file in fs.files
      modifies this
      ensures Valid() && ordered == Order(fs, searchDirs, Deps(fs, searchDirs, file), old(ordered))
      decreases |Unseen(fs, ordered)|, 2
    {
      var incs := fs.files[file].includes;
      ghost var start := ordered;
      var i := 0;
      while i < |incs|
        invariant i <= |incs| && Valid() && start <= ordered
        invariant Order(fs, searchDirs, Dependencies(fs, searchDirs, file, incs[i..]), ordered)
               == Order(fs, searchDirs, Deps(fs, searchDirs, file), start)
      {
        var dependency := FirstExisting(Candidates(fs, searchDirs, file, incs[i]));
        assert incs[i..][1..] == incs[i + 1..];
        if dependency.Some? {
          ghost var rest := Dependencies(fs, searchDirs, file, incs[i + 1..]);
          OrderAppend(fs, searchDirs, [fs.resolve(dependency.value)], rest, ordered);
          UnseenShrinks(fs, start, ordered);
          var found := Visit(dependency.value);
        }
        i := i + 1;
      }
    }

    /** `next((c for c in candidates if c.is_file()), None)`. */
    method FirstExisting(candidates: seq<Path>) returns (r: Option<Path>)
      ensures r == FirstFile(fs, candidates)
    {
      for k := 0 to |candidates|
        invariant FirstFile(fs, candidates[k..]) == FirstFile(fs, candidates)
      {
        if fs.IsFile(candidates[k]) {
          return Some(candidates[k]);
        }
        assert candidates[k..][1..] == candidates[k + 1..];
      }
      return None;
    }
  }

  ghost function Roots(fs: FileSystem, sources: seq<Path>): (roots: seq<Path>)
    ensures |roots| == |sources| && forall i :: 0 <= i < |sources| ==> roots[i] == fs.resolve(sources[i])
  {
    seq(|sources|, i requires 0 <= i < |sources| => fs.resolve(sources[i]))
  }

  /** `collect_external_source_files`; None where it raises, which is exactly when some
      source is not a file: an include never is the cause. */
  method Collect(fs: FileSystem, sources: seq<Path>, includeDirs: seq<Path>) returns (r: Option<seq<Path>>)
    requires fs.Ok()
    ensures r.Some? <==> forall i :: 0 <= i < |sources| ==> fs.IsFile(sources[i])
    ensures r.Some? ==> Known(fs, Roots(fs, sources)) && r.value == Order(fs, includeDirs, Roots(fs, sources), [])
  {
    var collector := new Collector(fs, includeDirs);
    for i := 0 to |sources|
      invariant collector.Valid() && collector.fs == fs && collector.searchDirs == includeDirs
      invariant forall j :: 0 <= j < i ==> fs.IsFile(sources[j])
      invariant Known(fs, Roots(fs, sources)[..i])
      invariant collector.ordered == Order(fs, includeDirs, Roots(fs, sources)[..i], [])
    {
      var ok := collector.Visit(sources[i]);
      if !ok {
        return None;
      }
      OrderAppend(fs, includeDirs, Roots(fs, sources)[..i], [fs.resolve(sources[i])], []);
      assert Roots(fs, sources)[..i + 1] == Roots(fs, sources)[..i] + [fs.resolve(sources[i])];
    }
    assert Roots(fs, sources)[..|sources|] == Roots(fs, sources);
    return Some(collector.ordered);
  }

  // ---------------------------------------------------------------- exactly the reachable files

  /** Each file of the chain includes the next. */
  ghost predicate IsChain(fs: FileSystem, dirs: seq<Path>, chain: seq<Path>) {
    && Known(fs, chain)
    && forall i :: 0 <= i < |chain| - 1 ==> chain[i] in fs.files && IncludesFile(fs, dirs, chain[i], chain[i + 1])
  }

  ghost predicate Reachable(fs: FileSystem, dirs: seq<Path>, roots: seq<Path>, x: Path) {
    exists chain :: IsChain(fs, dirs, chain) && chain != [] && chain[0] in roots && chain[|chain| - 1] == x
  }

  ghost predicate NoRepeats(s: seq<Path>) {
    forall i, j :: 0 <= i < j < |s| ==> s[i] != s[j]
  }

  ghost predicate Inside(a: seq<Path>, b: seq<Path>) {
    forall d :: d in a ==> d in b
  }

  /** What the files of `r` other than those of `ordered` include is in `r`. */
  ghost predicate Closed(fs: FileSystem, dirs: seq<Path>, r: seq<Path>, ordered: seq<Path>) {
    forall p :: p in r && p !in ordered && p in fs.files ==> Inside(Deps(fs, dirs, p), r)
  }

  lemma ClosedGrows(fs: FileSystem, dirs: seq<Path>, t: Path, ordered: seq<Path>, inner: seq<Path>, r: seq<Path>)
    requires inner <= r && t in fs.files && Inside(Deps(fs, dirs, t), inner)
    requires Closed(fs, dirs, inner, ordered + [t]) && Closed(fs, dirs, r, inner)
    ensures Closed(fs, dirs, r, ordered)
  {
  }

  /** The order repeats nothing, visits everything asked for, and closes what it adds. */
  lemma {:induction false} OrderCloses(fs: FileSystem, dirs: seq<Path>, todo: seq<Path>, ordered: seq<Path>)
    requires Known(fs, todo) && Known(fs, ordered) && NoRepeats(ordered)
    ensures var r := Order(fs, dirs, todo, ordered);
            Known(fs, r) && NoRepeats(r) && Inside(todo, r) && Closed(fs, dirs, r, ordered)
    decreases |Unseen(fs, ordered)|, |todo|
  {
    if todo != [] {
      var t := todo[0];
      if t in ordered {
        OrderCloses(fs, dirs, todo[1..], ordered);
      } else {
        UnseenShrinks(fs, ordered, ordered + [t]);
        assert t in fs.files && t in ordered + [t];
        OrderCloses(fs, dirs, Deps(fs, dirs, t), ordered + [t]);
        var inner := Order(fs, dirs, Deps(fs, dirs, t), ordered + [t]);
        UnseenShrinks(fs, ordered, inner);
        OrderCloses(fs, dirs, todo[1..], inner);
        ClosedGrows(fs, dirs, t, ordered, inner, Order(fs, dirs, todo, ordered));
      }
    }
  }

  lemma ChainExtends(fs: FileSystem, dirs: seq<Path>, roots: seq<Path>, x: Path, d: Path)
    requires x in fs.files && Reachable(fs, dirs, roots, x) && d in Deps(fs, dirs, x)
    ensures Reachable(fs, dirs, roots, d)
  {
    var chain :| IsChain(fs, dirs, chain) && chain != [] && chain[0] in roots && chain[|chain| - 1] == x;
    var longer := chain + [d];
    DepsExactly(fs, dirs, x, d);
    assert IsChain(fs, dirs, longer);
    assert longer[0] in roots && longer[|longer| - 1] == d;
  }

  /** Nothing is visited that is not reachable. */
  lemma {:induction false} OrderReaches(fs: FileSystem, dirs: seq<Path>, roots: seq<Path>, todo: seq<Path>,
      ordered: seq<Path>)
    requires Known(fs, todo)
    requires forall p :: p in todo ==> Reachable(fs, dirs, roots, p)
    requires forall p :: p in ordered ==> Reachable(fs, dirs, roots, p)
    ensures forall p :: p in Order(fs, dirs, todo, ordered) ==> Reachable(fs, dirs, roots, p)
    decreases |Unseen(fs, ordered)|, |todo|
  {
    if todo != [] {
      var t := todo[0];
      if t in ordered {
        OrderReaches(fs, dirs, roots, todo[1..], ordered);
      } else {
        UnseenShrinks(fs, ordered, ordered + [t]);
        assert t in fs.files && t in ordered + [t];
        forall d | d in Deps(fs, dirs, t)
          ensures Reachable(fs, dirs, roots, d)
        {
          ChainExtends(fs, dirs, roots, t, d);
        }
        OrderReaches(fs, dirs, roots, Deps(fs, dirs, t), ordered + [t]);
        var inner := Order(fs, dirs, Deps(fs, dirs, t), ordered + [t]);
        UnseenShrinks(fs, ordered, inner);
        OrderReaches(fs, dirs, roots, todo[1..], inner);
      }
    }
  }

  lemma {:induction false} ChainStaysIn(fs: FileSystem, dirs: seq<Path>, chain: seq<Path>, closed: seq<Path>)
    requires IsChain(fs, dirs, chain) && chain != [] && chain[0] in closed && Known(fs, closed)
    requires Closed(fs, dirs, closed, [])
    ensures chain[|chain| - 1] in closed
  {
    if |chain| > 1 {
      assert IncludesFile(fs, dirs, chain[0], chain[0 + 1]);
      DepsExactly(fs, dirs, chain[0], chain[1]);
      assert IsChain(fs, dirs, chain[1..]) by {
        forall i | 0 <= i < |chain[1..]| - 1
          ensures chain[1..][i] in fs.files && IncludesFile(fs, dirs, chain[1..][i], chain[1..][i + 1])
        {
          assert chain[1..][i] == chain[i + 1] && chain[1..][i + 1] == chain[(i + 1) + 1];
        }
      }
      ChainStaysIn(fs, dirs, chain[1..], closed);
    }
  }

  /** The collected files are, each exactly once, the files reachable from the sources by
      what include directives bring in, on any include graph, cyclic ones included. */
  lemma CollectsExactlyReachable(fs: FileSystem, dirs: seq<Path>, roots: seq<Path>)
    requires Known(fs, roots)
    ensures NoRepeats(Order(fs, dirs, roots, []))
    ensures forall x :: x in Order(fs, dirs, roots, []) <==> Reachable(fs, dirs, roots, x)
  {
    var r := Order(fs, dirs, roots, []);
    OrderCloses(fs, dirs, roots, []);
    forall p | p in roots
      ensures Reachable(fs, dirs, roots, p)
    {
      assert IsChain(fs, dirs, [p]);
      assert [p][0] in roots && [p][|[p]| - 1] == p;
    }
    OrderReaches(fs, dirs, roots, roots, []);
    forall x | Reachable(fs, dirs, roots, x)
      ensures x in r
    {
      var chain :| IsChain(fs, dirs, chain) && chain != [] && chain[0] in roots && chain[|chain| - 1] == x;
      ChainStaysIn(fs, dirs, chain, r);
    }
  }
}
