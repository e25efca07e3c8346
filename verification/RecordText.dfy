/** The text of an encoded record (`encode_record` of python/pypto/_identity.py), spelled out. */
module RecordText {
  import opened Options
  import opened Bytes
  import opened Text
  import opened Json
  import opened Records
  import opened RecordTheorems

  // ---------------------------------------------------------------- the order of keys

  /** Python's order on strings: at the first difference the smaller code point is less, and a
      string is less than those it begins. */
  ghost predicate Less(a: Str, b: Str) {
    exists k :: LessAt(a, b, k)
  }

  predicate LessAt(a: Str, b: Str, k: int) {
    && 0 <= k <= |a| && k < |b| && (forall j :: 0 <= j < k ==> a[j] == b[j])
    && (k == |a| || a[k] < b[k])
  }

  lemma {:induction false} BelowExactly(a: Str, b: Str)
    ensures Below(a, b) <==> Less(a, b)
  {
    if a != [] && b != [] && a[0] == b[0] {
      BelowExactly(a[1..], b[1..]);
      if Less(a[1..], b[1..]) {
        var k :| LessAt(a[1..], b[1..], k);
        assert LessAt(a, b, k + 1);
      }
      if Less(a, b) {
        var k :| LessAt(a, b, k);
        assert LessAt(a[1..], b[1..], k - 1);
      }
    } else if Below(a, b) {
      assert LessAt(a, b, 0);
    }
  }

  // ---------------------------------------------------------------- the text

  /** Every dictionary in `v` lists its keys in ascending order. */
  ghost predicate Ordered(v: Value) {
    match v
    case List(items) => forall k :: 0 <= k < |items| ==> Ordered(items[k])
    case Tuple(items) => forall k :: 0 <= k < |items| ==> Ordered(items[k])
    case Dict(entries) =>
      && (forall i, j :: 0 <= i < j < |entries| ==> Less(entries[i].key, entries[j].key))
      && (forall k :: 0 <= k < |entries| ==> Ordered(entries[k].value))
    case _ => true
  }

  /** `["tag",body]` */
  function Tagged(tag: string, body: string): string {
    "[\"" + tag + "\"," + body + "]"
  }

  function Quoted(s: string): string {
    "\"" + s + "\""
  }

  function TextOf(v: Value): string
    decreases v, 0
  {
    match v
    case NoneValue => "[\"none\"]"
    case Bool(b) => Tagged("bool", if b then "true" else "false")
    case Int(i) => Tagged("int", Quoted(ShowInt(i)))
    case Float(bits) => Tagged("float64", Quoted(Hex(bits)))
    case String(s) => KeyText(s)
    case Bytes(bytes) => Tagged("bytes", Quoted(Hex(bytes)))
    case List(items) => Tagged("list", "[" + ItemTexts(items) + "]")
    case Tuple(items) => Tagged("tuple", "[" + ItemTexts(items) + "]")
    case Dict(entries) => Tagged("dict", "[" + EntryTexts(entries) + "]")
    case Unsupported => ""
  }

  function KeyText(s: Str): string {
    Tagged("str", Quoted(Hex(EncodeUtf8(s))))
  }

  function ItemTexts(items: seq<Value>): string
    decreases items, 1
  {
    if items == [] then ""
    else TextOf(items[0]) + if |items| == 1 then "" else "," + ItemTexts(items[1..])
  }

  function EntryTexts(entries: seq<Entry>): string
    decreases entries, 1
  {
    if entries == [] then ""
    else
      "[" + KeyText(entries[0].key) + "," + TextOf(entries[0].value) + "]"
      + if |entries| == 1 then "" else "," + EntryTexts(entries[1..])
  }

  // ---------------------------------------------------------------- it is written so

  /** The items of an array without the bracket that closes it. */
  function Inner(js: seq<Json>): string {
    if js == [] then "" else Write(js[0]) + if |js| == 1 then "" else "," + Inner(js[1..])
  }

  lemma {:induction false} WritesInner(js: seq<Json>)
    ensures WriteItems(js) == Inner(js) + "]"
  {
    if |js| > 1 {
      WritesInner(js[1..]);
    }
  }

  lemma {:induction false} WritesPair(tag: string, j: Json)
    ensures Write(JArr([JStr(tag), j])) == Tagged(tag, Write(j))
  {
    var js := [JStr(tag), j];
    assert js[1..] == [j];
    assert WriteItems([j]) == Write(j) + "]";
    assert WriteItems(js) == Write(JStr(tag)) + "," + WriteItems(js[1..]);
  }

  lemma {:induction false} WritesLeaf(tag: string, s: string)
    ensures Write(JArr([JStr(tag), JStr(s)])) == Tagged(tag, Quoted(s))
  {
    WritesPair(tag, JStr(s));
  }

  lemma {:induction false} WritesArray(tag: string, js: seq<Json>)
    ensures Write(JArr([JStr(tag), JArr(js)])) == Tagged(tag, "[" + Inner(js) + "]")
  {
    WritesPair(tag, JArr(js));
    WritesInner(js);
  }

  lemma {:induction false} WritesKey(s: Str)
    ensures Write(TypedStr(s)) == KeyText(s)
  {
    WritesLeaf("str", Hex(EncodeUtf8(s)));
  }

  lemma {:induction false} SortedStays<T(!new)>(s: seq<(Str, T)>)
    requires Ascending(s)
    ensures SortEntries(s) == s
  {
    if s != [] {
      assert Ascending(s[1..]) by {
        forall i, j | 0 <= i < j < |s[1..]|
          ensures Below(s[1..][i].0, s[1..][j].0)
        {
          assert Below(s[i + 1].0, s[j + 1].0);
        }
      }
      SortedStays(s[1..]);
      assert s == [s[0]] + s[1..];
    }
  }

  lemma {:induction false} EntriesAscend(entries: seq<Entry>)
    requires TypedEntries(entries).Some?
    requires forall i, j :: 0 <= i < j < |entries| ==> Less(entries[i].key, entries[j].key)
    ensures var es := TypedEntries(entries).value;
            |es| == |entries| && (forall k :: 0 <= k < |es| ==> es[k].0 == entries[k].key) && Ascending(es)
  {
    EntriesKeyed(entries);
    var es := TypedEntries(entries).value;
    forall i, j | 0 <= i < j < |es|
      ensures Below(es[i].0, es[j].0)
    {
      BelowExactly(es[i].0, es[j].0);
      assert Less(entries[i].key, entries[j].key);
    }
  }

  lemma {:induction false} EntriesKeyed(entries: seq<Entry>)
    requires TypedEntries(entries).Some?
    ensures var es := TypedEntries(entries).value;
            |es| == |entries| && forall k :: 0 <= k < |es| ==> es[k].0 == entries[k].key
  {
    if entries != [] {
      EntriesKeyed(entries[1..]);
      forall k | 0 <= k < |entries|
        ensures TypedEntries(entries).value[k].0 == entries[k].key
      {
        if k > 0 { assert entries[k] == entries[1..][k - 1]; }
      }
    }
  }

  lemma {:induction false} WritesScalar(v: Value)
    requires v.NoneValue? || v.Bool? || v.Int? || v.Float? || v.String? || v.Bytes?
    ensures Write(Typed(v).value) == TextOf(v)
  {
    match v
    case NoneValue => assert WriteItems([JStr("none")]) == Write(JStr("none")) + "]";
    case Bool(b) => WritesPair("bool", JBool(b));
    case Int(i) => WritesLeaf("int", ShowInt(i));
    case Float(bits) => WritesLeaf("float64", Hex(bits));
    case String(s) => WritesKey(s);
    case Bytes(bytes) => WritesLeaf("bytes", Hex(bytes));
  }

  lemma {:induction false} WritesDict(entries: seq<Entry>)
    requires TypedEntries(entries).Some?
    requires forall i, j :: 0 <= i < j < |entries| ==> Less(entries[i].key, entries[j].key)
    requires Inner(Pairs(TypedEntries(entries).value)) == EntryTexts(entries)
    ensures Write(Typed(Dict(entries)).value) == TextOf(Dict(entries))
  {
    var es := TypedEntries(entries).value;
    EntriesAscend(entries);
    SortedStays(es);
    WritesArray("dict", Pairs(es));
  }

  lemma {:induction false} WritesAs(v: Value)
    requires Typed(v).Some? && Ordered(v)
    ensures Write(Typed(v).value) == TextOf(v)
    decreases v, 0
  {
    match v
    case List(items) =>
      WritesArray("list", TypedItems(items).value);
      WritesItems(items);
    case Tuple(items) =>
      WritesArray("tuple", TypedItems(items).value);
      WritesItems(items);
    case Dict(entries) =>
      WritesEntries(entries);
      WritesDict(entries);
    case _ => WritesScalar(v);
  }

  lemma {:induction false} WritesItems(items: seq<Value>)
    requires TypedItems(items).Some? && forall k :: 0 <= k < |items| ==> Ordered(items[k])
    ensures Inner(TypedItems(items).value) == ItemTexts(items)
    decreases items, 1
  {
    if items != [] {
      WritesAs(items[0]);
      WritesItems(items[1..]);
      ItemsCounted(items[1..]);
      assert TypedItems(items).value[1..] == TypedItems(items[1..]).value;
    }
  }

  lemma {:induction false} ItemsCounted(items: seq<Value>)
    requires TypedItems(items).Some?
    ensures |TypedItems(items).value| == |items|
  {
    if items != [] {
      ItemsCounted(items[1..]);
    }
  }

  lemma {:induction false} WritesEntry(key: Str, value: Json, text: string)
    requires Write(value) == text
    ensures Write(JArr([TypedStr(key), value])) == "[" + KeyText(key) + "," + text + "]"
  {
    var pair := [TypedStr(key), value];
    WritesKey(key);
    assert pair[1..] == [value];
    assert WriteItems(pair[1..]) == text + "]";
    assert WriteItems(pair) == Write(pair[0]) + "," + WriteItems(pair[1..]);
  }

  lemma {:induction false} WritesEntries(entries: seq<Entry>)
    requires TypedEntries(entries).Some? && forall k :: 0 <= k < |entries| ==> Ordered(entries[k].value)
    ensures Inner(Pairs(TypedEntries(entries).value)) == EntryTexts(entries)
    decreases entries, 1
  {
    if entries != [] {
      var es, e := TypedEntries(entries).value, entries[0];
      assert e in entries && e.value < e;
      WritesAs(e.value);
      WritesEntries(entries[1..]);
      EntriesKeyed(entries);
      assert es[1..] == TypedEntries(entries[1..]).value;
      assert Pairs(es)[1..] == Pairs(es[1..]);
      WritesEntry(e.key, Typed(e.value).value, TextOf(e.value));
    }
  }

  /** The text of the record of `v`; `w` is `v` with the keys of every dictionary in order,
      which makes no difference to the record. */
  lemma {:induction false} RecordSpelled(v: Value, w: Value)
    requires Ok(v) && Ok(w) && Same(v, w) && Ordered(w) && Typed(v).Some? && Typed(w).Some?
    ensures EncodeRecord(v) == Some("[\"pypto.identity\",1," + TextOf(w) + "]")
  {
    RecordIdentity(v, w);
    WritesAs(w);
  }

  // ---------------------------------------------------------------- its leaves

  /** Hexadecimal: two lower-case digits a byte, the high one first. */
  lemma {:induction false} HexSpelled(b: seq<Byte>, k: nat)
    requires k < |b|
    ensures Hex(b)[2 * k] == "0123456789abcdef"[b[k] / 16] && Hex(b)[2 * k + 1] == "0123456789abcdef"[b[k] % 16]
  {
    if k > 0 {
      HexSpelled(b[1..], k - 1);
      assert Hex(b)[2 * k] == Hex(b[1..])[2 * (k - 1)] && Hex(b)[2 * k + 1] == Hex(b[1..])[2 * (k - 1) + 1];
    }
  }

  /** Decimal: the last digit is the remainder by ten, what stands before it the quotient in
      decimal, and there is no leading zero. */
  lemma {:induction false} DecimalSpelled(n: nat)
    ensures var s := Decimal(n);
            && s[|s| - 1] == "0123456789"[n % 10] && (|s| > 1 ==> s[..|s| - 1] == Decimal(n / 10))
            && (|s| == 1 <==> n < 10) && (s[0] == '0' ==> n == 0)
    decreases n
  {
    if n >= 10 {
      DecimalSpelled(n / 10);
    }
  }
}
