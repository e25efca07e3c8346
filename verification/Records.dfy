/** `_typed_record` and `encode_record` of python/pypto/_identity.py: typed, canonical
    records, with the decoder that shows nothing is lost but insertion order. */
module Records {
  import opened Options
  import opened Bytes
  import opened Text
  import opened Json

  type Str = seq<CodePoint>

  /** The protocol values. A dictionary keeps its insertion order, as Python's do.
      `Unsupported` is anything `_typed_record` refuses: another type, a dictionary with
      a key that is not a string, or a cycle. */
  datatype Value =
    | NoneValue
    | Bool(b: bool)
    | Int(i: int)
    | Float(bits: seq<Byte>)                   // the eight IEEE-754 bytes, big-endian
    | String(s: Str)
    | Bytes(bytes: seq<Byte>)
    | List(items: seq<Value>)
    | Tuple(items: seq<Value>)
    | Dict(entries: seq<Entry>)
    | Unsupported

  datatype Entry = Entry(key: Str, value: Value)

  /** What Python guarantees of a value: floats are eight bytes, keys are unique. */
  ghost predicate Ok(v: Value) {
    match v
    case Float(bits) => |bits| == 8
    case List(items) => forall k :: 0 <= k < |items| ==> Ok(items[k])
    case Tuple(items) => forall k :: 0 <= k < |items| ==> Ok(items[k])
    case Dict(entries) =>
      && (forall i, j :: 0 <= i < j < |entries| ==> entries[i].key != entries[j].key)
      && (forall k :: 0 <= k < |entries| ==> Ok(entries[k].value))
    case _ => true
  }

  ghost predicate UniqueKeys<T>(entries: seq<(Str, T)>) {
    forall i, j :: 0 <= i < j < |entries| ==> entries[i].0 != entries[j].0
  }

  // ---------------------------------------------------------------- sorting by key

  /** Python's order on strings: by code point, the shorter first. */
  predicate Below(a: Str, b: Str) {
    b != [] && (a == [] || a[0] < b[0] || (a[0] == b[0] && Below(a[1..], b[1..])))
  }

  lemma {:induction false} BelowTotal(a: Str, b: Str)
    ensures a == b || Below(a, b) || Below(b, a)
    ensures !(Below(a, b) && Below(b, a)) && (a == b ==> !Below(a, b))
  {
    if a != [] && b != [] && a[0] == b[0] {
      BelowTotal(a[1..], b[1..]);
      assert a == [a[0]] + a[1..] && b == [b[0]] + b[1..];
    }
  }

  lemma {:induction false} BelowTransitive(a: Str, b: Str, c: Str)
    requires Below(a, b) && Below(b, c)
    ensures Below(a, c)
  {
    if a != [] && a[0] == b[0] && b[0] == c[0] {
      BelowTransitive(a[1..], b[1..], c[1..]);
    }
  }

  /** Key and value pairs as dictionary entries. */
  function Entries(es: seq<(Str, Value)>): (r: seq<Entry>)
    ensures |r| == |es| && forall k :: 0 <= k < |es| ==> r[k] == Entry(es[k].0, es[k].1)
  {
    seq(|es|, k requires 0 <= k < |es| => Entry(es[k].0, es[k].1))
  }

  function Insert<T(!new)>(e: (Str, T), s: seq<(Str, T)>): (r: seq<(Str, T)>)
    ensures |r| == |s| + 1
    ensures forall x :: x in r <==> x == e || x in s
  {
    if s == [] || Below(e.0, s[0].0) then [e] + s
    else
      assert s == [s[0]] + s[1..];
      [s[0]] + Insert(e, s[1..])
  }

  /** `sorted(mapping)`, with the values carried along. */
  function SortEntries<T(!new)>(s: seq<(Str, T)>): (r: seq<(Str, T)>)
    ensures |r| == |s|
    ensures forall x :: x in r <==> x in s
  {
    if s == [] then []
    else
      assert s == [s[0]] + s[1..];
      Insert(s[0], SortEntries(s[1..]))
  }

  ghost predicate Ascending<T>(s: seq<(Str, T)>) {
    forall i, j :: 0 <= i < j < |s| ==> Below(s[i].0, s[j].0)
  }

  lemma {:induction false} InsertAscends<T(!new)>(e: (Str, T), s: seq<(Str, T)>)
    requires Ascending(s) && forall x :: x in s ==> x.0 != e.0
    ensures Ascending(Insert(e, s))
  {
    var r := Insert(e, s);
    if s == [] {
    } else if Below(e.0, s[0].0) {
      forall j | 1 <= j < |r|
        ensures Below(e.0, r[j].0)
      {
        if j > 1 { BelowTransitive(e.0, s[0].0, s[j - 1].0); }
      }
    } else {
      var t := Insert(e, s[1..]);
      InsertAscends(e, s[1..]);
      BelowTotal(e.0, s[0].0);
      assert s[0] in s;
      forall j | 0 <= j < |t|
        ensures Below(s[0].0, t[j].0)
      {
        assert t[j] in t;
        if t[j] != e {
          var k :| 0 <= k < |s[1..]| && s[1..][k] == t[j];
          assert s[k + 1] == t[j];
        }
      }
    }
  }

  lemma {:induction false} SortAscends<T(!new)>(s: seq<(Str, T)>)
    requires UniqueKeys(s)
    ensures Ascending(SortEntries(s))
  {
    if s != [] {
      assert forall i, j :: 0 <= i < j < |s| - 1 ==> s[1..][i].0 != s[1..][j].0;
      SortAscends(s[1..]);
      forall x | x in SortEntries(s[1..])
        ensures x.0 != s[0].0
      {
        var k :| 0 <= k < |s[1..]| && s[1..][k] == x;
        assert s[k + 1] == x;
      }
      InsertAscends(s[0], SortEntries(s[1..]));
    }
  }

  /** Lists with unique keys and the same members sort to the same list. */
  lemma SortDetermined<T(!new)>(x: seq<(Str, T)>, y: seq<(Str, T)>)
    requires UniqueKeys(x) && UniqueKeys(y) && forall e :: e in x <==> e in y
    ensures SortEntries(x) == SortEntries(y)
  {
    SortAscends(x);
    SortAscends(y);
    AscendingDetermined(SortEntries(x), SortEntries(y));
  }

  /** Ascending lists are determined by their members. */
  lemma {:induction false} AscendingDetermined<T(!new)>(a: seq<(Str, T)>, b: seq<(Str, T)>)
    requires Ascending(a) && Ascending(b) && forall x :: x in a <==> x in b
    ensures a == b
  {
    assert |a| > 0 ==> a[0] in a;
    assert |b| > 0 ==> b[0] in b;
    if a != [] {
      HeadIsLeast(a, b[0]);
      HeadIsLeast(b, a[0]);
      BelowTotal(a[0].0, b[0].0);
      assert a[0] == b[0];
      TailMembers(a);
      TailMembers(b);
      AscendingDetermined(a[1..], b[1..]);
      assert a == [a[0]] + a[1..] && b == [b[0]] + b[1..];
    }
  }

  lemma HeadIsLeast<T(!new)>(a: seq<(Str, T)>, x: (Str, T))
    requires Ascending(a) && x in a
    ensures x == a[0] || Below(a[0].0, x.0)
  {
  }

  lemma TailMembers<T(!new)>(a: seq<(Str, T)>)
    requires Ascending(a) && a != []
    ensures Ascending(a[1..]) && forall x :: x in a[1..] <==> x in a && x != a[0]
  {
    forall x | x in a[1..]
      ensures x in a && x != a[0]
    {
      var k :| 0 <= k < |a[1..]| && a[1..][k] == x;
      assert a[k + 1] == x && Below(a[0].0, a[k + 1].0);
      BelowTotal(a[0].0, x.0);
    }
    forall x | x in a && x != a[0]
      ensures x in a[1..]
    {
      var k :| 0 <= k < |a| && a[k] == x;
      assert a[1..][k - 1] == x;
    }
  }

  // ---------------------------------------------------------------- encoding

  /** `_typed_record`; None where it raises. */
  function Typed(v: Value): Option<Json>
    decreases v, 0
  {
    match v
    case NoneValue => Some(JArr([JStr("none")]))
    case Bool(b) => Some(JArr([JStr("bool"), JBool(b)]))
    case Int(i) => Some(JArr([JStr("int"), JStr(ShowInt(i))]))
    case Float(bits) => Some(JArr([JStr("float64"), JStr(Hex(bits))]))
    case String(s) => Some(TypedStr(s))
    case Bytes(bytes) => Some(JArr([JStr("bytes"), JStr(Hex(bytes))]))
    case List(items) =>
      (match TypedItems(items)
       case Some(js) => Some(JArr([JStr("list"), JArr(js)]))
       case None => None)
    case Tuple(items) =>
      (match TypedItems(items)
       case Some(js) => Some(JArr([JStr("tuple"), JArr(js)]))
       case None => None)
    case Dict(entries) =>
      (match TypedEntries(entries)
       case Some(es) => Some(JArr([JStr("dict"), JArr(Pairs(SortEntries(es)))]))
       case None => None)
    case Unsupported => None
  }

  function TypedStr(s: Str): Json {
    JArr([JStr("str"), JStr(Hex(EncodeUtf8(s)))])
  }

  function TypedItems(items: seq<Value>): Option<seq<Json>>
    decreases items, 1
  {
    if items == [] then Some([])
    else match (Typed(items[0]), TypedItems(items[1..]))
      case (Some(j), Some(js)) => Some([j] + js)
      case _ => None
  }

  /** The encoded values under their keys, still in insertion order. */
  function TypedEntries(entries: seq<Entry>): Option<seq<(Str, Json)>>
    decreases entries, 1
  {
    if entries == [] then Some([])
    else match (Typed(entries[0].value), TypedEntries(entries[1..]))
      case (Some(j), Some(es)) => Some([(entries[0].key, j)] + es)
      case _ => None
  }

  function Pairs(es: seq<(Str, Json)>): (js: seq<Json>)
    ensures |js| == |es|
    ensures forall k :: 0 <= k < |es| ==> js[k] == JArr([TypedStr(es[k].0), es[k].1])
  {
    if es == [] then [] else [JArr([TypedStr(es[0].0), es[0].1])] + Pairs(es[1..])
  }

  const PREFIX := "[\"pypto.identity\",1,"

  /** `encode_record`; None where it raises. */
  function EncodeRecord(v: Value): Option<string> {
    match Typed(v)
    case Some(j) => Some(PREFIX + Write(j) + "]")
    case None => None
  }

  // ---------------------------------------------------------------- decoding

  function Untyped(j: Json): Option<Value>
    decreases j, 0
  {
    if !j.JArr? || j.items == [] || !j.items[0].JStr? then None else
    var tag := j.items[0].s;
    if |j.items| == 1 then (if tag == "none" then Some(NoneValue) else None)
    else if |j.items| != 2 then None
    else match j.items[1]
      case JBool(b) => if tag == "bool" then Some(Bool(b)) else None
      case JStr(s) => UntypedLeaf(tag, s)
      case JArr(items) =>
        if tag == "list" then
          (match UntypedItems(items)
           case Some(vs) => Some(List(vs))
           case None => None)
        else if tag == "tuple" then
          (match UntypedItems(items)
           case Some(vs) => Some(Tuple(vs))
           case None => None)
        else if tag == "dict" then
          (match UntypedPairs(items)
           case Some(es) => Some(Dict(Entries(es)))
           case None => None)
        else None
  }

  function UntypedLeaf(tag: string, s: string): Option<Value> {
    if tag == "int" then
      (match ReadInt(s)
       case Some(i) => Some(Int(i))
       case None => None)
    else
      match Unhex(s)
      case None => None
      case Some(b) =>
        if tag == "float64" then Some(Float(b))
        else if tag == "bytes" then Some(Bytes(b))
        else if tag == "str" then
          (match DecodeUtf8(b)
           case Some(cs) => Some(String(cs))
           case None => None)
        else None
  }

  function UntypedItems(items: seq<Json>): Option<seq<Value>>
    decreases items, 1
  {
    if items == [] then Some([])
    else match (Untyped(items[0]), UntypedItems(items[1..]))
      case (Some(v), Some(vs)) => Some([v] + vs)
      case _ => None
  }

  function UntypedPairs(items: seq<Json>): Option<seq<(Str, Value)>>
    decreases items, 1
  {
    if items == [] then Some([])
    else
      var p := items[0];
      if !p.JArr? || |p.items| != 2 then None
      else match (Untyped(p.items[0]), Untyped(p.items[1]), UntypedPairs(items[1..]))
        case (Some(String(s)), Some(v), Some(es)) => Some([(s, v)] + es)
        case _ => None
  }

  /** Reads an encoded record back. */
  function DecodeRecord(t: string): Option<Value> {
    if !(PREFIX <= t) then None
    else match Read(t[|PREFIX|..])
      case Some((j, rest)) => if rest == "]" then Untyped(j) else None
      case None => None
  }

  // ---------------------------------------------------------------- what the encoding keeps

  /** The value with every dictionary, at every depth, in key order. */
  function Canon(v: Value): Value
    decreases v, 0
  {
    match v
    case List(items) => List(CanonItems(items))
    case Tuple(items) => Tuple(CanonItems(items))
    case Dict(entries) => Dict(Entries(SortEntries(CanonEntries(entries))))
    case _ => v
  }

  function CanonItems(items: seq<Value>): (r: seq<Value>)
    ensures |r| == |items|
    ensures forall k :: 0 <= k < |items| ==> r[k] == Canon(items[k])
    decreases items, 1
  {
    if items == [] then [] else [Canon(items[0])] + CanonItems(items[1..])
  }

  function CanonEntries(entries: seq<Entry>): (r: seq<(Str, Value)>)
    ensures |r| == |entries|
    ensures forall k :: 0 <= k < |entries| ==> r[k] == (entries[k].key, Canon(entries[k].value))
    decreases entries, 1
  {
    if entries == [] then [] else [(entries[0].key, Canon(entries[0].value))] + CanonEntries(entries[1..])
  }

  /** A dictionary holds this entry's key with the same value. */
  ghost predicate FoundIn(e: Entry, b: seq<Entry>)
    decreases e
  {
    exists j :: 0 <= j < |b| && e.key == b[j].key && Same(e.value, b[j].value)
  }

  ghost predicate FoundAs(a: seq<Entry>, f: Entry)
    decreases a
  {
    exists i :: 0 <= i < |a| && a[i].key == f.key && Same(a[i].value, f.value)
  }

  /** The reference notion of the same record: same types, same contents, dictionaries
      compared as maps, whatever their insertion order. */
  ghost predicate Same(v: Value, w: Value) {
    match (v, w)
    case (List(a), List(b)) => |a| == |b| && forall k :: 0 <= k < |a| ==> Same(a[k], b[k])
    case (Tuple(a), Tuple(b)) => |a| == |b| && forall k :: 0 <= k < |a| ==> Same(a[k], b[k])
    case (Dict(a), Dict(b)) =>
      && (forall i :: 0 <= i < |a| ==> FoundIn(a[i], b))
      && (forall j :: 0 <= j < |b| ==> FoundAs(a, b[j]))
    case _ => v == w
  }
}
