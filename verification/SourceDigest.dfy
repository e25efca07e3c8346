/** `external_source_digest` of python/pypto/_external_source.py, by the byte stream it
    feeds to the hash: metadata first, then name and content of every collected file. */
module SourceDigest {
  import opened Options
  import opened Bytes
  import opened SourceClosure

  datatype Item = Metadata(text: seq<Byte>) | Name(name: seq<Byte>) | Content(content: seq<Byte>)
  {
    function Label(): seq<Byte> {
      match this
      case Metadata(_) => [0x6d, 0x65, 0x74, 0x61, 0x64, 0x61, 0x74, 0x61]   // metadata
      case Name(_) => [0x6e, 0x61, 0x6d, 0x65]                              // name
      case Content(_) => [0x63, 0x6f, 0x6e, 0x74, 0x65, 0x6e, 0x74]         // content
    }
    function Payload(): seq<Byte> {
      match this
      case Metadata(t) => t
      case Name(n) => n
      case Content(c) => c
    }
  }

  /** `update(label, payload)`. */
  function Framed(item: Item): seq<Byte> {
    item.Label() + LittleEndian(|item.Payload()|, 8) + item.Payload()
  }

  function StreamOf(items: seq<Item>): seq<Byte> {
    if items == [] then [] else Framed(items[0]) + StreamOf(items[1..])
  }

  function MetadataItems(metadata: seq<seq<Byte>>): (items: seq<Item>)
    ensures |items| == |metadata| && forall i :: 0 <= i < |items| ==> items[i] == Metadata(metadata[i])
  {
    seq(|metadata|, i requires 0 <= i < |metadata| => Metadata(metadata[i]))
  }

  /** Name and content of every file, in order; the path itself stays out. */
  function FileItems(fs: FileSystem, paths: seq<Path>): (items: seq<Item>)
    requires Known(fs, paths)
    ensures |items| == 2 * |paths|
  {
    if paths == [] then []
    else
      var f := fs.files[paths[0]];
      [Name(f.name), Content(f.content)] + FileItems(fs, paths[1..])
  }

  /** Payload lengths fit the eight-byte field. */
  ghost predicate Sized(items: seq<Item>) {
    forall i :: 0 <= i < |items| ==> |items[i].Payload()| < Pow256(8)
  }

  /** The label of an item as text. */
  function LabelText(item: Item): string {
    if item.Metadata? then "metadata" else if item.Name? then "name" else "content"
  }

  lemma LabelSpelled(item: Item)
    ensures |item.Label()| == |LabelText(item)|
    ensures forall i :: 0 <= i < |item.Label()| ==> item.Label()[i] == LabelText(item)[i] as int
  {
  }

  /** What is fed to the hash for one item: its label in ASCII, the length of its payload as
      a little-endian number of eight bytes, the payload, and then the next item. */
  lemma StreamHolds(items: seq<Item>, n: nat, size: nat)
    requires items != [] && n == |LabelText(items[0])| && size == |items[0].Payload()| < Pow256(8)
    ensures var s := StreamOf(items);
            && |s| >= n + 8 + size && (forall i :: 0 <= i < n ==> s[i] == LabelText(items[0])[i] as int)
            && FromLittleEndian(s[n..n + 8]) == size && s[n + 8..n + 8 + size] == items[0].Payload()
            && s[n + 8 + size..] == StreamOf(items[1..])
  {
    var item, s := items[0], StreamOf(items);
    LabelSpelled(item);
    LittleEndianInverse(size, 8);
    Parts(item.Label(), LittleEndian(size, 8), item.Payload(), StreamOf(items[1..]), s);
    forall i | 0 <= i < n
      ensures s[i] == LabelText(item)[i] as int
    {
      assert s[..n][i] == item.Label()[i];
    }
  }

  /** Name, then content, of every file in the order of the paths. */
  lemma {:induction false} FilesInOrder(fs: FileSystem, paths: seq<Path>, k: nat)
    requires Known(fs, paths) && k < |paths|
    ensures FileItems(fs, paths)[2 * k] == Name(fs.files[paths[k]].name)
    ensures FileItems(fs, paths)[2 * k + 1] == Content(fs.files[paths[k]].content)
  {
    if k > 0 {
      FilesInOrder(fs, paths[1..], k - 1);
    }
  }

  lemma LabelsApart(a: Item, b: Item, x: seq<Byte>, y: seq<Byte>)
    requires a.Label() + x == b.Label() + y
    ensures a.Label() == b.Label() && x == y
  {
    assert (a.Label() + x)[0] == a.Label()[0] && (b.Label() + y)[0] == b.Label()[0];
    SplitEqual(a.Label(), b.Label(), x, y);
  }

  lemma SizesApart(n: nat, m: nat, x: seq<Byte>, y: seq<Byte>)
    requires n < Pow256(8) && m < Pow256(8)
    requires LittleEndian(n, 8) + x == LittleEndian(m, 8) + y
    ensures n == m && x == y
  {
    SplitEqual(LittleEndian(n, 8), LittleEndian(m, 8), x, y);
    LittleEndianInverse(n, 8);
    LittleEndianInverse(m, 8);
  }

  lemma FrameParts(item: Item, rest: seq<Byte>)
    ensures Framed(item) + rest == item.Label() + (LittleEndian(|item.Payload()|, 8) + (item.Payload() + rest))
  {
  }

  /** One frame decodes uniquely off the front of a stream. */
  lemma FrameDecodes(a: Item, b: Item, x: seq<Byte>, y: seq<Byte>)
    requires |a.Payload()| < Pow256(8) && |b.Payload()| < Pow256(8)
    requires Framed(a) + x == Framed(b) + y
    ensures a == b && x == y
  {
    FrameParts(a, x);
    FrameParts(b, y);
    LabelsApart(a, b, LittleEndian(|a.Payload()|, 8) + (a.Payload() + x),
        LittleEndian(|b.Payload()|, 8) + (b.Payload() + y));
    SizesApart(|a.Payload()|, |b.Payload()|, a.Payload() + x, b.Payload() + y);
    SplitEqual(a.Payload(), b.Payload(), x, y);
    assert a.Label()[0] == b.Label()[0];
  }

  lemma NonemptyStream(items: seq<Item>)
    ensures StreamOf(items) == [] <==> items == []
  {
  }

  /** The label, length, payload stream has one reading. */
  lemma {:induction false} StreamDecodes(a: seq<Item>, b: seq<Item>)
    requires Sized(a) && Sized(b) && StreamOf(a) == StreamOf(b)
    ensures a == b
  {
    NonemptyStream(a);
    NonemptyStream(b);
    if a != [] && b != [] {
      FrameDecodes(a[0], b[0], StreamOf(a[1..]), StreamOf(b[1..]));
      StreamDecodes(a[1..], b[1..]);
      assert a == [a[0]] + a[1..] && b == [b[0]] + b[1..];
    }
  }

  lemma Regroup(a: seq<Byte>, b: seq<Byte>, c: seq<Byte>)
    ensures a + b + c == a + (b + c)
  {
  }

  lemma HeadTail(a: seq<Item>, b: seq<Item>)
    requires a != []
    ensures (a + b)[0] == a[0] && (a + b)[1..] == a[1..] + b
  {
  }

  lemma StreamStep(items: seq<Item>)
    requires items != []
    ensures StreamOf(items) == Framed(items[0]) + StreamOf(items[1..])
  {
  }

  lemma {:induction false} StreamAppend(a: seq<Item>, b: seq<Item>)
    ensures StreamOf(a + b) == StreamOf(a) + StreamOf(b)
  {
    if a == [] {
      assert a + b == b;
    } else {
      StreamAppend(a[1..], b);
      HeadTail(a, b);
      StreamStep(a + b);
      StreamStep(a);
      Regroup(Framed(a[0]), StreamOf(a[1..]), StreamOf(b));
    }
  }

  lemma OneItem(item: Item)
    ensures StreamOf([item]) == Framed(item)
  {
  }

  /** `external_source_digest`: the stream, or None where collecting raises. */
  method ExternalSourceStream(fs: FileSystem, sources: seq<Path>, metadata: seq<seq<Byte>>, includeDirs: seq<Path>)
      returns (r: Option<seq<Byte>>)
    requires fs.Ok()
    ensures r.Some? <==> forall i :: 0 <= i < |sources| ==> fs.IsFile(sources[i])
    ensures r.Some? ==> Known(fs, Roots(fs, sources)) && Known(fs, Order(fs, includeDirs, Roots(fs, sources), []))
    ensures r.Some? ==>
      r.value == StreamOf(MetadataItems(metadata) + FileItems(fs, Order(fs, includeDirs, Roots(fs, sources), [])))
  {
    var digest := [];
    for i := 0 to |metadata|
      invariant digest == StreamOf(MetadataItems(metadata)[..i])
    {
      digest := digest + Framed(Metadata(metadata[i]));
      ghost var items := MetadataItems(metadata);
      assert items[..i + 1] == items[..i] + [items[i]];
      StreamAppend(items[..i], [items[i]]);
      OneItem(items[i]);
    }
    assert MetadataItems(metadata)[..|metadata|] == MetadataItems(metadata);
    var paths := Collect(fs, sources, includeDirs);
    if paths.None? {
      return None;
    }
    OrderCloses(fs, includeDirs, Roots(fs, sources), []);
    var files := FilesStream(fs, paths.value);
    StreamAppend(MetadataItems(metadata), FileItems(fs, paths.value));
    return Some(digest + files);
  }

  /** The loop over the collected files. */
  method FilesStream(fs: FileSystem, paths: seq<Path>) returns (digest: seq<Byte>)
    requires Known(fs, paths)
    ensures digest == StreamOf(FileItems(fs, paths))
  {
    digest := [];
    for i := 0 to |paths|
      invariant digest + StreamOf(FileItems(fs, paths[i..])) == StreamOf(FileItems(fs, paths))
    {
      var f := fs.files[paths[i]];
      FilesStreamStep(fs, paths[i..]);
      assert paths[i..][1..] == paths[i + 1..];
      Regroup(digest, Framed(Name(f.name)) + Framed(Content(f.content)), StreamOf(FileItems(fs, paths[i + 1..])));
      Regroup(digest, Framed(Name(f.name)), Framed(Content(f.content)));
      digest := digest + Framed(Name(f.name));
      digest := digest + Framed(Content(f.content));
    }
  }

  lemma FilesStreamStep(fs: FileSystem, paths: seq<Path>)
    requires Known(fs, paths) && paths != []
    ensures var f := fs.files[paths[0]];
            StreamOf(FileItems(fs, paths)) == Framed(Name(f.name)) + Framed(Content(f.content))
                + StreamOf(FileItems(fs, paths[1..]))
  {
  }

  // ---------------------------------------------------------------- what the digest identifies

  lemma {:induction false} FileItemsAreFiles(fs: FileSystem, paths: seq<Path>)
    requires Known(fs, paths)
    ensures forall i :: 0 <= i < |FileItems(fs, paths)| ==> !FileItems(fs, paths)[i].Metadata?
  {
    if paths != [] {
      FileItemsAreFiles(fs, paths[1..]);
    }
  }

  lemma NoShorter(m: seq<seq<Byte>>, f: seq<Item>, m': seq<seq<Byte>>, f': seq<Item>)
    requires MetadataItems(m) + f == MetadataItems(m') + f'
    requires forall i :: 0 <= i < |f| ==> !f[i].Metadata?
    ensures |m| >= |m'|
  {
    var a, b := MetadataItems(m) + f, MetadataItems(m') + f';
    var k := if |m| < |a| then |m| else 0;
    assert k < |a| && |m| <= k ==> a[k] == f[k - |m|];
    assert k < |m'| ==> b[k] == Metadata(m'[k]);
  }

  /** Metadata items stop where file items start. */
  lemma MetadataApart(m: seq<seq<Byte>>, f: seq<Item>, m': seq<seq<Byte>>, f': seq<Item>)
    requires MetadataItems(m) + f == MetadataItems(m') + f'
    requires forall i :: 0 <= i < |f| ==> !f[i].Metadata?
    requires forall i :: 0 <= i < |f'| ==> !f'[i].Metadata?
    ensures m == m' && f == f'
  {
    var a, b := MetadataItems(m) + f, MetadataItems(m') + f';
    NoShorter(m, f, m', f');
    NoShorter(m', f', m, f);
    forall i | 0 <= i < |m|
      ensures m[i] == m'[i]
    {
      assert a[i] == b[i];
    }
    assert f == a[|m|..] && f' == b[|m'|..];
  }

  /** The files carry, position by position, the same name and content. */
  ghost predicate SameFiles(fs: FileSystem, paths: seq<Path>, fs': FileSystem, paths': seq<Path>)
    requires Known(fs, paths) && Known(fs', paths')
  {
    && |paths| == |paths'|
    && forall i :: 0 <= i < |paths| ==>
         && fs.files[paths[i]].name == fs'.files[paths'[i]].name
         && fs.files[paths[i]].content == fs'.files[paths'[i]].content
  }

  lemma {:induction false} FileItemsIdentify(fs: FileSystem, paths: seq<Path>, fs': FileSystem, paths': seq<Path>)
    requires Known(fs, paths) && Known(fs', paths')
    ensures FileItems(fs, paths) == FileItems(fs', paths') <==> SameFiles(fs, paths, fs', paths')
  {
    if |paths| == |paths'| && paths != [] {
      FileItemsIdentify(fs, paths[1..], fs', paths'[1..]);
      var f, g := fs.files[paths[0]], fs'.files[paths'[0]];
      TwoThenRest(Name(f.name), Content(f.content), FileItems(fs, paths[1..]), Name(g.name), Content(g.content),
          FileItems(fs', paths'[1..]));
      if SameFiles(fs, paths[1..], fs', paths'[1..]) && f.name == g.name && f.content == g.content {
        forall i | 0 <= i < |paths|
          ensures fs.files[paths[i]].name == fs'.files[paths'[i]].name
            && fs.files[paths[i]].content == fs'.files[paths'[i]].content
        {
          if i > 0 { assert paths[i] == paths[1..][i - 1] && paths'[i] == paths'[1..][i - 1]; }
        }
      }
      if SameFiles(fs, paths, fs', paths') {
        assert SameFiles(fs, paths[1..], fs', paths'[1..]);
      }
    }
  }

  lemma TwoThenRest(a: Item, b: Item, x: seq<Item>, a': Item, b': Item, x': seq<Item>)
    ensures [a, b] + x == [a', b'] + x' <==> a == a' && b == b' && x == x'
  {
    if [a, b] + x == [a', b'] + x' {
      assert ([a, b] + x)[0] == a && ([a, b] + x)[1] == b && ([a, b] + x)[2..] == x;
      assert ([a', b'] + x')[0] == a' && ([a', b'] + x')[1] == b' && ([a', b'] + x')[2..] == x';
    }
  }

  /** Equal streams mean equal metadata and the same names and contents in the same order,
      and nothing else. */
  lemma StreamIdentifies(fs: FileSystem, paths: seq<Path>, m: seq<seq<Byte>>, fs': FileSystem, paths': seq<Path>,
      m': seq<seq<Byte>>)
    requires Known(fs, paths) && Known(fs', paths')
    requires Sized(MetadataItems(m) + FileItems(fs, paths)) && Sized(MetadataItems(m') + FileItems(fs', paths'))
    ensures StreamOf(MetadataItems(m) + FileItems(fs, paths)) == StreamOf(MetadataItems(m') + FileItems(fs', paths'))
       <==> m == m' && SameFiles(fs, paths, fs', paths')
  {
    var a, b := MetadataItems(m) + FileItems(fs, paths), MetadataItems(m') + FileItems(fs', paths');
    FileItemsIdentify(fs, paths, fs', paths');
    if StreamOf(a) == StreamOf(b) {
      StreamDecodes(a, b);
      FileItemsAreFiles(fs, paths);
      FileItemsAreFiles(fs', paths');
      MetadataApart(m, FileItems(fs, paths), m', FileItems(fs', paths'));
    }
  }

  // ---------------------------------------------------------------- relocation

  function Moved(h: Path -> Path, ps: seq<Path>): (qs: seq<Path>)
    ensures |qs| == |ps| && forall i :: 0 <= i < |ps| ==> qs[i] == h(ps[i])
  {
    seq(|ps|, i requires 0 <= i < |ps| => h(ps[i]))
  }

  /** A path of one tree and a path of the other: both are files, and links lead to
      corresponding files, or neither is. */
  predicate Corresponds(fs: FileSystem, fs': FileSystem, h: Path -> Path, p: Path, p': Path) {
    fs.IsFile(p) == fs'.IsFile(p') && (fs.IsFile(p) ==> fs'.resolve(p') == h(fs.resolve(p)))
  }

  /** The candidates of an include directive of `file` correspond one by one. */
  ghost predicate CandidatesMove(fs: FileSystem, dirs: seq<Path>, fs': FileSystem, dirs': seq<Path>, h: Path -> Path,
      file: Path, inc: Include)
  {
    && |dirs| == |dirs'|
    && (inc.quoted ==> Corresponds(fs, fs', h, fs.beside(file, inc.text), fs'.beside(h(file), inc.text)))
    && forall i :: 0 <= i < |dirs| ==>
        Corresponds(fs, fs', h, fs.within(dirs[i], inc.text), fs'.within(dirs'[i], inc.text))
  }

  /** File `p` and its counterpart: the same name, content and include directives, whose
      candidates correspond. */
  ghost predicate FileMoves(fs: FileSystem, dirs: seq<Path>, fs': FileSystem, dirs': seq<Path>, h: Path -> Path,
      p: Path)
    requires p in fs.files
  {
    && h(p) in fs'.files && fs'.files[h(p)] == fs.files[p]
    && forall inc :: inc in fs.files[p].includes ==> CandidatesMove(fs, dirs, fs', dirs', h, p, inc)
  }

  /** `fs'` is `fs` at other paths. */
  ghost predicate Relocated(fs: FileSystem, dirs: seq<Path>, fs': FileSystem, dirs': seq<Path>, h: Path -> Path) {
    && (forall p, q :: p in fs.files && q in fs.files && h(p) == h(q) ==> p == q)
    && (forall p :: p in fs.files ==> FileMoves(fs, dirs, fs', dirs', h, p))
  }

  /** Of two corresponding lists of candidates the first files correspond. */
  lemma {:induction false} FirstFileMoves(fs: FileSystem, fs': FileSystem, h: Path -> Path, cs: seq<Path>,
      cs': seq<Path>)
    requires |cs| == |cs'| && forall i :: 0 <= i < |cs| ==> Corresponds(fs, fs', h, cs[i], cs'[i])
    ensures FirstFile(fs, cs).Some? == FirstFile(fs', cs').Some?
    ensures FirstFile(fs, cs).Some? ==> fs'.resolve(FirstFile(fs', cs').value) == h(fs.resolve(FirstFile(fs, cs).value))
  {
    if cs != [] {
      assert Corresponds(fs, fs', h, cs[0], cs'[0]);
      FirstFileMoves(fs, fs', h, cs[1..], cs'[1..]);
    }
  }

  lemma {:induction false} WithinAt(fs: FileSystem, dirs: seq<Path>, text: string)
    ensures |Within(fs, dirs, text)| == |dirs|
    ensures forall i :: 0 <= i < |dirs| ==> Within(fs, dirs, text)[i] == fs.within(dirs[i], text)
  {
    if dirs != [] { WithinAt(fs, dirs[1..], text); }
  }

  lemma DirectiveMoves(fs: FileSystem, dirs: seq<Path>, fs': FileSystem, dirs': seq<Path>, h: Path -> Path, file: Path,
      inc: Include)
    requires CandidatesMove(fs, dirs, fs', dirs', h, file, inc)
    ensures var c, c' := FirstFile(fs, Candidates(fs, dirs, file, inc)),
      FirstFile(fs', Candidates(fs', dirs', h(file), inc));
            c.Some? == c'.Some? && (c.Some? ==> fs'.resolve(c'.value) == h(fs.resolve(c.value)))
  {
    WithinAt(fs, dirs, inc.text);
    WithinAt(fs', dirs', inc.text);
    FirstFileMoves(fs, fs', h, Candidates(fs, dirs, file, inc), Candidates(fs', dirs', h(file), inc));
  }

  lemma {:induction false} DependenciesMove(fs: FileSystem, dirs: seq<Path>, fs': FileSystem, dirs': seq<Path>,
      h: Path -> Path, file: Path, incs: seq<Include>)
    requires forall inc :: inc in incs ==> CandidatesMove(fs, dirs, fs', dirs', h, file, inc)
    ensures Dependencies(fs', dirs', h(file), incs) == Moved(h, Dependencies(fs, dirs, file, incs))
  {
    if incs != [] {
      DirectiveMoves(fs, dirs, fs', dirs', h, file, incs[0]);
      DependenciesMove(fs, dirs, fs', dirs', h, file, incs[1..]);
    }
  }

  /** So a moved file includes the moved files. */
  lemma DepsMove(fs: FileSystem, dirs: seq<Path>, fs': FileSystem, dirs': seq<Path>, h: Path -> Path, p: Path)
    requires Relocated(fs, dirs, fs', dirs', h) && p in fs.files
    ensures h(p) in fs'.files && Deps(fs', dirs', h(p)) == Moved(h, Deps(fs, dirs, p))
  {
    assert FileMoves(fs, dirs, fs', dirs', h, p);
    DependenciesMove(fs, dirs, fs', dirs', h, p, fs.files[p].includes);
  }

  lemma MovedIn(fs: FileSystem, dirs: seq<Path>, fs': FileSystem, dirs': seq<Path>, h: Path -> Path, p: Path,
      ps: seq<Path>)
    requires Relocated(fs, dirs, fs', dirs', h) && p in fs.files && Known(fs, ps)
    ensures h(p) in Moved(h, ps) <==> p in ps
  {
  }

  lemma MovedKnown(fs: FileSystem, dirs: seq<Path>, fs': FileSystem, dirs': seq<Path>, h: Path -> Path, ps: seq<Path>)
    requires Relocated(fs, dirs, fs', dirs', h) && Known(fs, ps)
    ensures Known(fs', Moved(h, ps))
  {
  }

  /** One visit of a file not seen before, with the visit of its includes named. */
  lemma OrderVisits(fs: FileSystem, dirs: seq<Path>, todo: seq<Path>, ordered: seq<Path>, inner: seq<Path>)
    requires Known(fs, todo) && todo != [] && todo[0] !in ordered
    requires inner == Order(fs, dirs, Deps(fs, dirs, todo[0]), ordered + [todo[0]])
    ensures Order(fs, dirs, todo, ordered) == Order(fs, dirs, todo[1..], inner)
  {
  }

  /** The order of visits moves with the files. */
  lemma {:induction false} OrderMoves(fs: FileSystem, dirs: seq<Path>, fs': FileSystem, dirs': seq<Path>,
      h: Path -> Path, todo: seq<Path>, ordered: seq<Path>)
    requires Relocated(fs, dirs, fs', dirs', h) && Known(fs, todo) && Known(fs, ordered) && NoRepeats(ordered)
    ensures Known(fs', Moved(h, todo))
    ensures Order(fs', dirs', Moved(h, todo), Moved(h, ordered)) == Moved(h, Order(fs, dirs, todo, ordered))
    decreases |Unseen(fs, ordered)|, |todo|
  {
    MovedKnown(fs, dirs, fs', dirs', h, todo);
    if todo != [] {
      var t := todo[0];
      MovedIn(fs, dirs, fs', dirs', h, t, ordered);
      assert Moved(h, todo)[1..] == Moved(h, todo[1..]);
      if t in ordered {
        OrderMoves(fs, dirs, fs', dirs', h, todo[1..], ordered);
      } else {
        UnseenShrinks(fs, ordered, ordered + [t]);
        assert t in fs.files && t in ordered + [t];
        OrderCloses(fs, dirs, Deps(fs, dirs, t), ordered + [t]);
        DepsMove(fs, dirs, fs', dirs', h, t);
        OrderMoves(fs, dirs, fs', dirs', h, Deps(fs, dirs, t), ordered + [t]);
        assert Moved(h, ordered + [t]) == Moved(h, ordered) + [h(t)];
        var inner := Order(fs, dirs, Deps(fs, dirs, t), ordered + [t]);
        UnseenShrinks(fs, ordered, inner);
        OrderMoves(fs, dirs, fs', dirs', h, todo[1..], inner);
        OrderVisits(fs, dirs, todo, ordered, inner);
        OrderVisits(fs', dirs', Moved(h, todo), Moved(h, ordered), Moved(h, inner));
      }
    }
  }

  lemma {:induction false} FileItemsMove(fs: FileSystem, dirs: seq<Path>, fs': FileSystem, dirs': seq<Path>,
      h: Path -> Path, ps: seq<Path>)
    requires Relocated(fs, dirs, fs', dirs', h) && Known(fs, ps)
    ensures Known(fs', Moved(h, ps)) && FileItems(fs', Moved(h, ps)) == FileItems(fs, ps)
  {
    MovedKnown(fs, dirs, fs', dirs', h, ps);
    if ps != [] {
      FileItemsMove(fs, dirs, fs', dirs', h, ps[1..]);
      assert Moved(h, ps)[1..] == Moved(h, ps[1..]);
      assert ps[0] in ps;
    }
  }

  /** A moved source tree has the same digest stream. */
  lemma DigestIsRelocatable(fs: FileSystem, dirs: seq<Path>, fs': FileSystem, dirs': seq<Path>, h: Path -> Path,
      roots: seq<Path>)
    requires Relocated(fs, dirs, fs', dirs', h) && Known(fs, roots)
    ensures Known(fs', Moved(h, roots)) && Known(fs, Order(fs, dirs, roots, []))
      && Known(fs', Order(fs', dirs', Moved(h, roots), []))
    ensures FileItems(fs', Order(fs', dirs', Moved(h, roots), [])) == FileItems(fs, Order(fs, dirs, roots, []))
  {
    OrderCloses(fs, dirs, roots, []);
    OrderMoves(fs, dirs, fs', dirs', h, roots, []);
    assert Moved(h, []) == [];
    FileItemsMove(fs, dirs, fs', dirs', h, Order(fs, dirs, roots, []));
  }
}
