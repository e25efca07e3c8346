/** Identity records are injective and canonical: two values encode alike exactly when
    they are the same record. */
module RecordTheorems {
  import opened Options
  import opened Bytes
  import opened Text
  import opened Json
  import opened Records

  // ---------------------------------------------------------------- decoding inverts encoding

  /** Two entry lists with the same keys, whose values decode into one another. */
  ghost predicate Matches(es: seq<(Str, Json)>, cs: seq<(Str, Value)>) {
    |es| == |cs| && forall k :: 0 <= k < |es| ==> Decodes(es[k], cs[k])
  }

  ghost predicate Decodes(e: (Str, Json), c: (Str, Value)) {
    e.0 == c.0 && Plain(e.1) && Untyped(e.1) == Some(c.1)
  }

  /** Sorting looks at the keys only, so it keeps matching entries side by side. */
  lemma {:induction false} InsertMatches(e: (Str, Json), c: (Str, Value), es: seq<(Str, Json)>, cs: seq<(Str, Value)>)
    requires Matches(es, cs) && Decodes(e, c)
    ensures Matches(Insert(e, es), Insert(c, cs))
  {
    if es == [] || Below(e.0, es[0].0) {
      assert Insert(e, es) == [e] + es && Insert(c, cs) == [c] + cs;
    } else {
      assert Decodes(es[0], cs[0]);
      TailMatches(es, cs);
      InsertMatches(e, c, es[1..], cs[1..]);
      assert Insert(e, es) == [es[0]] + Insert(e, es[1..]) && Insert(c, cs) == [cs[0]] + Insert(c, cs[1..]);
    }
  }

  lemma TailMatches(es: seq<(Str, Json)>, cs: seq<(Str, Value)>)
    requires Matches(es, cs) && es != []
    ensures Matches(es[1..], cs[1..])
  {
  }

  lemma {:induction false} SortMatches(es: seq<(Str, Json)>, cs: seq<(Str, Value)>)
    requires Matches(es, cs)
    ensures Matches(SortEntries(es), SortEntries(cs))
  {
    if es != [] {
      assert Decodes(es[0], cs[0]);
      TailMatches(es, cs);
      SortMatches(es[1..], cs[1..]);
      InsertMatches(es[0], cs[0], SortEntries(es[1..]), SortEntries(cs[1..]));
    }
  }

  lemma TagsArePlain()
    ensures PlainString("bool") && PlainString("int") && PlainString("float64") && PlainString("str")
    ensures PlainString("bytes") && PlainString("list") && PlainString("tuple") && PlainString("dict")
  {
  }

  lemma PlainPair(tag: string, j: Json)
    requires PlainString(tag) && Plain(j)
    ensures Plain(JArr([JStr(tag), j]))
  {
  }

  /** A tagged leaf is plain and decodes by its tag. */
  lemma LeafPair(tag: string, s: string)
    requires PlainString(tag) && PlainString(s)
    ensures var j := JArr([JStr(tag), JStr(s)]); Plain(j) && Untyped(j) == UntypedLeaf(tag, s)
  {
  }

  lemma HexLeaf(bytes: seq<Byte>)
    ensures PlainString(Hex(bytes)) && Unhex(Hex(bytes)) == Some(bytes)
  {
    HexInverse(bytes);
    HexDigits(bytes);
  }

  lemma HexTags(s: string, b: seq<Byte>)
    requires Unhex(s) == Some(b)
    ensures UntypedLeaf("float64", s) == Some(Float(b)) && UntypedLeaf("bytes", s) == Some(Bytes(b))
    ensures forall cs :: DecodeUtf8(b) == Some(cs) ==> UntypedLeaf("str", s) == Some(String(cs))
  {
  }

  lemma StringDecodes(s: Str)
    ensures Plain(TypedStr(s)) && Untyped(TypedStr(s)) == Some(String(s))
  {
    TagsArePlain();
    var b := EncodeUtf8(s);
    HexLeaf(b);
    HexTags(Hex(b), b);
    Utf8Inverse(s);
    LeafPair("str", Hex(b));
  }

  lemma PairDecodes(e: (Str, Json), c: (Str, Value), js: seq<Json>, cs: seq<(Str, Value)>)
    requires Decodes(e, c) && UntypedPairs(js) == Some(cs)
    ensures Plain(JArr([TypedStr(e.0), e.1]))
    ensures UntypedPairs([JArr([TypedStr(e.0), e.1])] + js) == Some([c] + cs)
  {
    StringDecodes(e.0);
    assert ([JArr([TypedStr(e.0), e.1])] + js)[1..] == js;
  }

  lemma {:induction false} PairsDecode(es: seq<(Str, Json)>, cs: seq<(Str, Value)>)
    requires Matches(es, cs)
    ensures UntypedPairs(Pairs(es)) == Some(cs)
    ensures forall k :: 0 <= k < |es| ==> Plain(Pairs(es)[k])
  {
    if es != [] {
      TailMatches(es, cs);
      PairsDecode(es[1..], cs[1..]);
      assert Decodes(es[0], cs[0]);
      PairDecodes(es[0], cs[0], Pairs(es[1..]), cs[1..]);
      assert cs == [cs[0]] + cs[1..];
    }
  }

  /** Every typed record is plain text for JSON and decodes to the value it came from,
      its dictionaries in key order. */
  lemma {:induction false} TypedDecodes(v: Value)
    requires Typed(v).Some?
    ensures Plain(Typed(v).value) && Untyped(Typed(v).value) == Some(Canon(v))
    decreases v, 0
  {
    match v
    case List(items) => TypedItemsDecode(items); ListDecodes("list", TypedItems(items).value);
    case Tuple(items) => TypedItemsDecode(items); ListDecodes("tuple", TypedItems(items).value);
    case Dict(entries) =>
      TypedEntriesDecode(entries);
      DictDecodes(TypedEntries(entries).value, CanonEntries(entries));
    case _ => LeafDecodes(v);
  }

  lemma LeafDecodes(v: Value)
    requires !v.List? && !v.Tuple? && !v.Dict? && Typed(v).Some?
    ensures Plain(Typed(v).value) && Untyped(Typed(v).value) == Some(Canon(v))
  {
    match v
    case NoneValue =>
    case Bool(b) => TagsArePlain(); PlainPair("bool", JBool(b));
    case Int(i) => IntDecodes(i);
    case Float(bits) => FloatDecodes(bits);
    case String(s) => StringDecodes(s);
    case Bytes(bytes) => BytesDecode(bytes);
  }

  lemma IntDecodes(i: int)
    ensures var j := JArr([JStr("int"), JStr(ShowInt(i))]); Plain(j) && Untyped(j) == Some(Int(i))
  {
    TagsArePlain();
    ShowIntInverse(i);
    LeafPair("int", ShowInt(i));
  }

  lemma FloatDecodes(bits: seq<Byte>)
    ensures var j := JArr([JStr("float64"), JStr(Hex(bits))]); Plain(j) && Untyped(j) == Some(Float(bits))
  {
    TagsArePlain();
    HexLeaf(bits);
    HexTags(Hex(bits), bits);
    LeafPair("float64", Hex(bits));
  }

  lemma BytesDecode(bytes: seq<Byte>)
    ensures var j := JArr([JStr("bytes"), JStr(Hex(bytes))]); Plain(j) && Untyped(j) == Some(Bytes(bytes))
  {
    TagsArePlain();
    HexLeaf(bytes);
    HexTags(Hex(bytes), bytes);
    LeafPair("bytes", Hex(bytes));
  }

  /** Tagged arrays decode by their tag. */
  lemma ArrayTags(items: seq<Json>)
    ensures Untyped(JArr([JStr("list"), JArr(items)])) == (match UntypedItems(items) case Some(vs) => Some(List(vs))
      case None => None)
    ensures Untyped(JArr([JStr("tuple"), JArr(items)])) == (match UntypedItems(items) case Some(vs) => Some(Tuple(vs))
      case None => None)
    ensures Untyped(JArr([JStr("dict"), JArr(items)])) == (match UntypedPairs(items)
      case Some(es) => Some(Dict(Entries(es))) case None => None)
  {
  }

  lemma ListDecodes(tag: string, js: seq<Json>)
    requires (tag == "list" || tag == "tuple") && Plain(JArr(js)) && UntypedItems(js).Some?
    ensures Plain(JArr([JStr(tag), JArr(js)]))
    ensures Untyped(JArr([JStr(tag), JArr(js)]))
         == Some(if tag == "list" then List(UntypedItems(js).value) else Tuple(UntypedItems(js).value))
  {
  }

  lemma DictDecodes(es: seq<(Str, Json)>, cs: seq<(Str, Value)>)
    requires Matches(es, cs)
    ensures var j := JArr([JStr("dict"), JArr(Pairs(SortEntries(es)))]);
            Plain(j) && Untyped(j) == Some(Dict(Entries(SortEntries(cs))))
  {
    SortMatches(es, cs);
    PairsDecode(SortEntries(es), SortEntries(cs));
    TagsArePlain();
    ArrayTags(Pairs(SortEntries(es)));
    PlainPair("dict", JArr(Pairs(SortEntries(es))));
  }

  lemma {:induction false} TypedItemsDecode(items: seq<Value>)
    requires TypedItems(items).Some?
    ensures UntypedItems(TypedItems(items).value) == Some(CanonItems(items))
    ensures Plain(JArr(TypedItems(items).value))
    decreases items, 1
  {
    if items != [] {
      TypedDecodes(items[0]);
      TypedItemsDecode(items[1..]);
      var js, rest := TypedItems(items).value, TypedItems(items[1..]).value;
      assert js[1..] == rest;
      forall k | 0 <= k < |js|
        ensures Plain(js[k])
      {
        if k > 0 { assert js[k] == rest[k - 1]; }
      }
    }
  }

  lemma {:induction false} TypedEntriesDecode(entries: seq<Entry>)
    requires TypedEntries(entries).Some?
    ensures Matches(TypedEntries(entries).value, CanonEntries(entries))
    decreases entries, 1
  {
    if entries != [] {
      TypedDecodes(entries[0].value);
      TypedEntriesDecode(entries[1..]);
      var es, cs := TypedEntries(entries).value, CanonEntries(entries);
      forall k | 0 <= k < |es|
        ensures Decodes(es[k], cs[k])
      {
        if k > 0 {
          assert Decodes(TypedEntries(entries[1..]).value[k - 1], CanonEntries(entries[1..])[k - 1]);
        }
      }
    }
  }

  /** The decoder inverts the encoder on every value that can be encoded. */
  lemma DecodeEncode(v: Value)
    requires EncodeRecord(v).Some?
    ensures DecodeRecord(EncodeRecord(v).value) == Some(Canon(v))
  {
    TypedDecodes(v);
    var j := Typed(v).value;
    ReadWrite(j, "]");
    var t := EncodeRecord(v).value;
    assert t == PREFIX + (Write(j) + "]");
    assert t[|PREFIX|..] == Write(j) + "]";
  }

  // ---------------------------------------------------------------- canonical

  lemma CanonMember(entries: seq<Entry>, k: nat)
    requires k < |entries|
    ensures (entries[k].key, Canon(entries[k].value)) in CanonEntries(entries)
  {
  }

  /** Values that agree up to dictionary order are the same record. */
  lemma {:induction false} CanonSame(v: Value, w: Value)
    requires Canon(v) == Canon(w)
    ensures Same(v, w)
    decreases v, 1
  {
    match (v, w)
    case (List(a), List(b)) => CanonSameItems(a, b);
    case (Tuple(a), Tuple(b)) => CanonSameItems(a, b);
    case (Dict(a), Dict(b)) => CanonSameDict(a, b);
    case _ =>
  }

  lemma EntriesInjective(x: seq<(Str, Value)>, y: seq<(Str, Value)>)
    requires Entries(x) == Entries(y)
    ensures x == y
  {
  }

  lemma {:induction false} CanonSameDict(a: seq<Entry>, b: seq<Entry>)
    requires Canon(Dict(a)) == Canon(Dict(b))
    ensures Same(Dict(a), Dict(b))
    decreases a, 1
  {
    EntriesInjective(SortEntries(CanonEntries(a)), SortEntries(CanonEntries(b)));
    forall i | 0 <= i < |a|
      ensures FoundIn(a[i], b)
    {
      CanonFound(a, b, i);
    }
    forall j | 0 <= j < |b|
      ensures FoundAs(a, b[j])
    {
      CanonFoundBack(a, b, j);
    }
  }

  lemma {:induction false} CanonFound(a: seq<Entry>, b: seq<Entry>, i: nat)
    requires SortEntries(CanonEntries(a)) == SortEntries(CanonEntries(b)) && i < |a|
    ensures FoundIn(a[i], b)
    decreases a, 0
  {
    CanonMember(a, i);
    assert (a[i].key, Canon(a[i].value)) in SortEntries(CanonEntries(a));
    var j :| 0 <= j < |b| && CanonEntries(b)[j] == (a[i].key, Canon(a[i].value));
    CanonSame(a[i].value, b[j].value);
  }

  lemma {:induction false} CanonFoundBack(a: seq<Entry>, b: seq<Entry>, j: nat)
    requires SortEntries(CanonEntries(a)) == SortEntries(CanonEntries(b)) && j < |b|
    ensures FoundAs(a, b[j])
    decreases a, 0
  {
    CanonMember(b, j);
    assert (b[j].key, Canon(b[j].value)) in SortEntries(CanonEntries(b));
    var i :| 0 <= i < |a| && CanonEntries(a)[i] == (b[j].key, Canon(b[j].value));
    CanonSame(a[i].value, b[j].value);
  }

  lemma {:induction false} CanonSameItems(a: seq<Value>, b: seq<Value>)
    requires CanonItems(a) == CanonItems(b)
    ensures |a| == |b| && forall k :: 0 <= k < |a| ==> Same(a[k], b[k])
    decreases a, 1
  {
    assert |a| == |CanonItems(a)| == |b|;
    forall k | 0 <= k < |a|
      ensures Same(a[k], b[k])
    {
      assert CanonItems(a)[k] == CanonItems(b)[k];
      CanonSame(a[k], b[k]);
    }
  }

  lemma {:induction false} TypedItemsAt(items: seq<Value>)
    ensures TypedItems(items).Some? <==> forall k :: 0 <= k < |items| ==> Typed(items[k]).Some?
    ensures TypedItems(items).Some? ==> |TypedItems(items).value| == |items|
    ensures TypedItems(items).Some? ==> forall k :: 0 <= k < |items| ==>
      Typed(items[k]) == Some(TypedItems(items).value[k])
  {
    if items != [] {
      TypedItemsAt(items[1..]);
      assert forall k :: 1 <= k < |items| ==> items[k] == items[1..][k - 1];
      if Typed(items[0]).Some? && TypedItems(items[1..]).Some? {
        assert TypedItems(items).value == [Typed(items[0]).value] + TypedItems(items[1..]).value;
      } else if Typed(items[0]).Some? {
        var k :| 0 <= k < |items| - 1 && Typed(items[1..][k]).None?;
        assert items[k + 1] == items[1..][k];
      }
    }
  }

  lemma {:induction false} TypedEntriesAt(entries: seq<Entry>)
    ensures TypedEntries(entries).Some? <==> forall k :: 0 <= k < |entries| ==> Typed(entries[k].value).Some?
    ensures TypedEntries(entries).Some? ==> |TypedEntries(entries).value| == |entries|
    ensures TypedEntries(entries).Some? ==> forall k :: 0 <= k < |entries| ==>
              TypedEntries(entries).value[k].0 == entries[k].key
                  && Typed(entries[k].value) == Some(TypedEntries(entries).value[k].1)
  {
    if entries != [] {
      TypedEntriesAt(entries[1..]);
      assert forall k :: 1 <= k < |entries| ==> entries[k] == entries[1..][k - 1];
      if Typed(entries[0].value).Some? && TypedEntries(entries[1..]).Some? {
        assert TypedEntries(entries).value == [(entries[0].key, Typed(entries[0].value).value)]
            + TypedEntries(entries[1..]).value;
      } else if Typed(entries[0].value).Some? {
        var k :| 0 <= k < |entries| - 1 && Typed(entries[1..][k].value).None?;
        assert entries[k + 1] == entries[1..][k];
      }
    }
  }

  lemma TypedSameItems(a: seq<Value>, b: seq<Value>)
    requires |a| == |b| && forall k :: 0 <= k < |a| ==> Typed(a[k]) == Typed(b[k])
    ensures TypedItems(a) == TypedItems(b)
  {
  }

  ghost predicate TypedIn(e: Entry, b: seq<Entry>) {
    exists j :: 0 <= j < |b| && e.key == b[j].key && Typed(e.value) == Typed(b[j].value)
  }

  ghost predicate AllTypedIn(a: seq<Entry>, b: seq<Entry>) {
    forall i :: 0 <= i < |a| ==> TypedIn(a[i], b)
  }

  lemma TypedInSome(a: seq<Entry>, b: seq<Entry>)
    requires AllTypedIn(a, b) && TypedEntries(b).Some?
    ensures TypedEntries(a).Some?
  {
    TypedEntriesAt(a);
    TypedEntriesAt(b);
    forall i | 0 <= i < |a|
      ensures Typed(a[i].value).Some?
    {
      assert TypedIn(a[i], b);
    }
  }

  lemma Included(a: seq<Entry>, b: seq<Entry>, e: (Str, Json))
    requires AllTypedIn(a, b) && TypedEntries(a).Some? && TypedEntries(b).Some? && e in TypedEntries(a).value
    ensures e in TypedEntries(b).value
  {
    TypedEntriesAt(a);
    TypedEntriesAt(b);
    var i :| 0 <= i < |TypedEntries(a).value| && TypedEntries(a).value[i] == e;
    assert TypedIn(a[i], b);
    var j :| 0 <= j < |b| && a[i].key == b[j].key && Typed(a[i].value) == Typed(b[j].value);
    assert TypedEntries(b).value[j] == e;
  }

  lemma TypedUnique(a: seq<Entry>)
    requires TypedEntries(a).Some? && forall i, j :: 0 <= i < j < |a| ==> a[i].key != a[j].key
    ensures UniqueKeys(TypedEntries(a).value)
  {
  }

  /** Entries found in one another, with unique keys, sort to the same list. */
  lemma TypedSameEntries(a: seq<Entry>, b: seq<Entry>)
    requires forall i, j :: 0 <= i < j < |a| ==> a[i].key != a[j].key
    requires forall i, j :: 0 <= i < j < |b| ==> b[i].key != b[j].key
    requires AllTypedIn(a, b) && AllTypedIn(b, a)
    ensures Typed(Dict(a)) == Typed(Dict(b))
  {
    if TypedEntries(a).Some? {
      TypedInSome(b, a);
      var x, y := TypedEntries(a).value, TypedEntries(b).value;
      TypedUnique(a);
      TypedUnique(b);
      forall e
        ensures e in x <==> e in y
      {
        if e in x { Included(a, b, e); }
        if e in y { Included(b, a, e); }
      }
      SortDetermined(x, y);
    } else if TypedEntries(b).Some? {
      TypedInSome(a, b);
    }
  }

  /** The same record has one encoding, whatever the insertion order of its dictionaries. */
  lemma {:induction false} SameTyped(v: Value, w: Value)
    requires Ok(v) && Ok(w) && Same(v, w)
    ensures Typed(v) == Typed(w)
    decreases v
  {
    match (v, w)
    case (List(a), List(b)) => SameTypedItems(a, b);
    case (Tuple(a), Tuple(b)) => SameTypedItems(a, b);
    case (Dict(a), Dict(b)) => SameTypedEntries(a, b);
    case _ =>
  }

  lemma {:induction false} SameTypedItems(a: seq<Value>, b: seq<Value>)
    requires |a| == |b| && forall k :: 0 <= k < |a| ==> Ok(a[k]) && Ok(b[k]) && Same(a[k], b[k])
    ensures TypedItems(a) == TypedItems(b)
    decreases a
  {
    forall k | 0 <= k < |a|
      ensures Typed(a[k]) == Typed(b[k])
    {
      SameTyped(a[k], b[k]);
    }
    TypedSameItems(a, b);
  }

  lemma {:induction false} SameTypedEntries(a: seq<Entry>, b: seq<Entry>)
    requires Ok(Dict(a)) && Ok(Dict(b)) && Same(Dict(a), Dict(b))
    ensures Typed(Dict(a)) == Typed(Dict(b))
    decreases a
  {
    forall i | 0 <= i < |a|
      ensures TypedIn(a[i], b)
    {
      assert FoundIn(a[i], b);
      var j :| 0 <= j < |b| && a[i].key == b[j].key && Same(a[i].value, b[j].value);
      SameTyped(a[i].value, b[j].value);
    }
    forall j | 0 <= j < |b|
      ensures TypedIn(b[j], a)
    {
      assert FoundAs(a, b[j]);
      var i :| 0 <= i < |a| && a[i].key == b[j].key && Same(a[i].value, b[j].value);
      SameTyped(a[i].value, b[j].value);
    }
    TypedSameEntries(a, b);
  }

  /** Two values encode to the same text exactly when they are the same record. */
  lemma RecordIdentity(v: Value, w: Value)
    requires Ok(v) && Ok(w) && EncodeRecord(v).Some? && EncodeRecord(w).Some?
    ensures EncodeRecord(v) == EncodeRecord(w) <==> Same(v, w)
  {
    if EncodeRecord(v) == EncodeRecord(w) {
      DecodeEncode(v);
      DecodeEncode(w);
      CanonSame(v, w);
    }
    if Same(v, w) {
      SameTyped(v, w);
    }
  }

  /** The encoder raises exactly when something unsupported sits somewhere inside. */
  ghost predicate Supported(v: Value) {
    match v
    case List(items) => forall k :: 0 <= k < |items| ==> Supported(items[k])
    case Tuple(items) => forall k :: 0 <= k < |items| ==> Supported(items[k])
    case Dict(entries) => forall k :: 0 <= k < |entries| ==> Supported(entries[k].value)
    case Unsupported => false
    case _ => true
  }

  lemma {:induction false} RaisesExactly(v: Value)
    ensures EncodeRecord(v).Some? <==> Supported(v)
    decreases v
  {
    match v
    case List(items) =>
      TypedItemsAt(items);
      forall k | 0 <= k < |items| ensures Typed(items[k]).Some? <==> Supported(items[k]) { RaisesExactly(items[k]); }
    case Tuple(items) =>
      TypedItemsAt(items);
      forall k | 0 <= k < |items| ensures Typed(items[k]).Some? <==> Supported(items[k]) { RaisesExactly(items[k]); }
    case Dict(entries) =>
      TypedEntriesAt(entries);
      forall k | 0 <= k < |entries|
        ensures Typed(entries[k].value).Some? <==> Supported(entries[k].value)
      {
        RaisesExactly(entries[k].value);
      }
    case _ =>
  }
}
