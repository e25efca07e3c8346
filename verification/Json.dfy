/** The part of JSON an identity record uses, written compactly, with a reader. */
module Json {
  import opened Options
  import opened Bytes

  datatype Json = JStr(s: string) | JBool(b: bool) | JArr(items: seq<Json>)

  /** A string that `json.dumps(..., ensure_ascii=True)` writes as it is. */
  predicate PlainString(s: string) {
    forall k :: 0 <= k < |s| ==> ' ' <= s[k] <= '~' && s[k] != '"' && s[k] != '\\'
  }

  predicate Plain(j: Json) {
    match j
    case JStr(s) => PlainString(s)
    case JBool(_) => true
    case JArr(items) => forall k :: 0 <= k < |items| ==> Plain(items[k])
  }

  /** `json.dumps` with separators `(",", ":")`. */
  function Write(j: Json): (t: string)
    ensures t != "" && t[0] != ']' && t[0] != ','
    decreases j, 0
  {
    match j
    case JStr(s) => "\"" + s + "\""
    case JBool(b) => if b then "true" else "false"
    case JArr(items) => "[" + WriteItems(items)
  }

  /** The items of an array, commas between them, and the closing bracket. */
  function WriteItems(items: seq<Json>): (t: string)
    ensures t != "" && (items == [] ==> t == "]")
    decreases items, 1
  {
    if items == [] then "]"
    else if |items| == 1 then Write(items[0]) + "]"
    else Write(items[0]) + "," + WriteItems(items[1..])
  }

  /** Position of the next quote. */
  function Quote(t: string, i: nat): (k: nat)
    requires i <= |t|
    ensures i <= k <= |t| && (k < |t| ==> t[k] == '"') && forall j :: i <= j < k ==> t[j] != '"'
    decreases |t| - i
  {
    if i == |t| || t[i] == '"' then i else Quote(t, i + 1)
  }

  /** Reads one value off the front. */
  function Read(t: string): (r: Option<(Json, string)>)
    ensures r.Some? ==> |r.value.1| < |t|
    decreases |t|, 1
  {
    if t == "" then None
    else if t[0] == '"' then
      var k := Quote(t, 1);
      if k == |t| then None else Some((JStr(t[1..k]), t[k + 1..]))
    else if "true" <= t then Some((JBool(true), t[4..]))
    else if "false" <= t then Some((JBool(false), t[5..]))
    else if t[0] == '[' then
      if "[]" <= t then Some((JArr([]), t[2..]))
      else match ReadItems(t[1..])
        case None => None
        case Some((items, rest)) => Some((JArr(items), rest))
    else None
  }

  function ReadItems(t: string): (r: Option<(seq<Json>, string)>)
    ensures r.Some? ==> |r.value.1| < |t|
    decreases |t|, 2
  {
    match Read(t)
    case None => None
    case Some((j, rest)) =>
      if rest == "" then None
      else if rest[0] == ']' then Some(([j], rest[1..]))
      else if rest[0] == ',' then
        match ReadItems(rest[1..])
        case None => None
        case Some((items, rest')) => Some(([j] + items, rest'))
      else None
  }

  /** Reading a written value gives it back, and leaves exactly what follows. */
  lemma {:induction false} ReadWrite(j: Json, rest: string)
    requires Plain(j)
    ensures Read(Write(j) + rest) == Some((j, rest))
    decreases j, 0
  {
    var t := Write(j) + rest;
    match j
    case JStr(s) =>
      var k := Quote(t, 1);
      assert t[1 + |s|] == '"';
      assert forall i :: 1 <= i < 1 + |s| ==> t[i] == s[i - 1];
      assert k == 1 + |s|;
      assert t[1..k] == s && t[k + 1..] == rest;
    case JBool(b) =>
      if b {
        assert "true" <= t && t[4..] == rest;
      } else {
        assert "false" <= t && t[5..] == rest;
        assert t[0] == 'f';
      }
    case JArr(items) =>
      assert t[0] == '[';
      assert t[1..] == WriteItems(items) + rest;
      if items == [] {
        assert "[]" <= t && t[2..] == rest;
      } else {
        ReadWriteItems(items, rest);
        assert WriteItems(items)[0] == Write(items[0])[0];
        assert t[1] != ']';
      }
  }

  lemma ReadLastItem(t: string, j: Json, rest: string)
    requires Read(t) == Some((j, "]" + rest))
    ensures ReadItems(t) == Some(([j], rest))
  {
  }

  lemma ReadMoreItems(t: string, j: Json, u: string, items: seq<Json>, rest: string)
    requires Read(t) == Some((j, "," + u)) && ReadItems(u) == Some((items, rest))
    ensures ReadItems(t) == Some(([j] + items, rest))
  {
  }

  lemma Regroup(a: string, b: string, c: string, d: string)
    ensures (a + b) + d == a + (b + d)
    ensures (a + b + c) + d == a + (b + (c + d))
  {
  }

  lemma WriteLast(j: Json, rest: string)
    ensures WriteItems([j]) + rest == Write(j) + ("]" + rest)
  {
  }

  lemma WriteMore(items: seq<Json>, rest: string)
    requires |items| > 1
    ensures WriteItems(items) + rest == Write(items[0]) + ("," + (WriteItems(items[1..]) + rest))
  {
    Regroup(Write(items[0]), ",", WriteItems(items[1..]), rest);
  }

  lemma {:induction false} ReadWriteItems(items: seq<Json>, rest: string)
    requires items != [] && forall k :: 0 <= k < |items| ==> Plain(items[k])
    ensures ReadItems(WriteItems(items) + rest) == Some((items, rest))
    decreases items, 1
  {
    if |items| == 1 {
      assert items == [items[0]];
      ReadWrite(items[0], "]" + rest);
      WriteLast(items[0], rest);
      ReadLastItem(WriteItems(items) + rest, items[0], rest);
    } else {
      var u := WriteItems(items[1..]) + rest;
      ReadWriteItems(items[1..], rest);
      ReadWrite(items[0], "," + u);
      WriteMore(items, rest);
      ReadMoreItems(WriteItems(items) + rest, items[0], u, items[1..], rest);
      assert items == [items[0]] + items[1..];
    }
  }
}
