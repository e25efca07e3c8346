/** The code emitted for `tensor.slice` (src/codegen/tensor_op_codegen.cpp:235-337), run on
    the runtime's tensor objects. */
module SliceCode {
  import opened Arithmetic
  import opened SliceView

  const WORD := 0x1_0000_0000_0000_0000

  /** The runtime tensor: fixed arrays of which the first `ndims` entries count. */
  class Tensor {
    var startOffset: nat
    var ndims: nat
    var isContiguous: bool
    const shapes: array<nat>
    const strides: array<nat>

    ghost predicate Valid()
      reads this
    {
      shapes != strides && shapes.Length == strides.Length && ndims <= shapes.Length
    }

    function Value(): (l: Layout)
      requires Valid()
      reads this, shapes, strides
      ensures l.Ok() && |l.shapes| == ndims
    {
      Layout(startOffset, shapes[..ndims], strides[..ndims])
    }

    /** A tensor with the given contents. */
    constructor (start: nat, shapeOf: seq<nat>, strideOf: seq<nat>, contiguous: bool)
      requires |shapeOf| == |strideOf|
      ensures Valid() && fresh(shapes) && fresh(strides)
      ensures Value() == Layout(start, shapeOf, strideOf) && isContiguous == contiguous
    {
      startOffset, ndims, isContiguous := start, |shapeOf|, contiguous;
      shapes := new nat[|shapeOf|](d requires 0 <= d < |shapeOf| => shapeOf[d]);
      strides := new nat[|strideOf|](d requires 0 <= d < |strideOf| => strideOf[d]);
    }
  }

  /** The emitted shape array. */
  method ClampedShapes(parent: Tensor, offsets: seq<nat>, wants: seq<nat>) returns (shapes: seq<nat>)
    requires parent.Valid() && |offsets| == |wants| == parent.ndims
    ensures shapes == Clamped(parent.Value().shapes, offsets, wants)
  {
    shapes := [];
    for i := 0 to |wants|
      invariant |shapes| == i
      invariant forall d :: 0 <= d < i ==> shapes[d] == Clamp(parent.shapes[d], offsets[d], wants[d])
    {
      var n := if offsets[i] >= parent.shapes[i] then 0
               else if wants[i] <= parent.shapes[i] - offsets[i] then wants[i] else parent.shapes[i] - offsets[i];
      shapes := shapes + [n];
    }
  }

  function CountKept(drop: seq<bool>): (n: nat)
    ensures n <= |drop|
  {
    if drop == [] then 0 else (if drop[0] then 0 else 1) + CountKept(drop[1..])
  }

  lemma {:induction false} KeepCounts(s: seq<nat>, drop: seq<bool>)
    requires |s| == |drop|
    ensures |Keep(s, drop)| == CountKept(drop)
  {
    if s != [] { KeepCounts(s[1..], drop[1..]); }
  }

  lemma {:induction false} KeepSnoc(s: seq<nat>, drop: seq<bool>, i: nat)
    requires i < |s| == |drop|
    ensures Keep(s[..i + 1], drop[..i + 1]) == Keep(s[..i], drop[..i]) + (if drop[i] then [] else [s[i]])
  {
    if i == 0 {
      assert s[..1][1..] == [] && drop[..1][1..] == [] && s[..0] == [];
    } else {
      KeepSnoc(s[1..], drop[1..], i - 1);
      assert s[..i + 1][1..] == s[1..][..i] && drop[..i + 1][1..] == drop[1..][..i];
      assert s[..i][1..] == s[1..][..i - 1] && drop[..i][1..] == drop[1..][..i - 1];
      assert s[1..][..i - 1 + 1] == s[1..][..i] && drop[1..][..i - 1 + 1] == drop[1..][..i];
    }
  }

  /** The emitted assignments that move the retained axes to the front, in place. */
  method Compact(result: Tensor, view: Tensor, drop: seq<bool>)
    requires result.Valid() && view.Valid() && |drop| == view.ndims <= result.shapes.Length
    requires result.shapes !in {view.shapes, view.strides} && result.strides !in {view.shapes, view.strides}
    modifies result.shapes, result.strides
    ensures CountKept(drop) <= result.shapes.Length
    ensures result.shapes[..CountKept(drop)] == Keep(view.Value().shapes, drop)
    ensures result.strides[..CountKept(drop)] == Keep(view.Value().strides, drop)
  {
    var dst := 0;
    ghost var v := view.Value();
    KeepCounts(v.shapes, drop);
    KeepCounts(v.strides, drop);
    for i := 0 to |drop|
      invariant dst == |Keep(v.shapes[..i], drop[..i])| == |Keep(v.strides[..i], drop[..i])| && dst <= i
      invariant view.Value() == v
      invariant result.shapes[..dst] == Keep(v.shapes[..i], drop[..i])
      invariant result.strides[..dst] == Keep(v.strides[..i], drop[..i])
    {
      KeepSnoc(v.shapes, drop, i);
      KeepSnoc(v.strides, drop, i);
      if !drop[i] {
        ghost var shapes, strides := result.shapes[..dst], result.strides[..dst];
        result.shapes[dst] := view.shapes[i];
        result.strides[dst] := view.strides[i];
        dst := dst + 1;
        assert result.shapes[..dst] == shapes + [v.shapes[i]] && result.strides[..dst] == strides + [v.strides[i]];
      }
    }
    assert v.shapes[..|drop|] == v.shapes && v.strides[..|drop|] == v.strides && drop[..|drop|] == drop;
  }

  /** Packed strides as the emitted loop computes them, in 64-bit arithmetic. */
  predicate PackedInWords(shapes: seq<nat>, strides: seq<nat>) {
    |shapes| == |strides|
    && (shapes == [] || (strides[0] == Numel(shapes[1..]) % WORD && PackedInWords(shapes[1..], strides[1..])))
  }

  /** The emitted loop over `expected_stride`. */
  method Contiguous(t: Tensor) returns (contiguous: bool)
    requires t.Valid()
    ensures contiguous == PackedInWords(t.Value().shapes, t.Value().strides)
  {
    var expected: nat := 1;
    contiguous := true;
    var i := t.ndims;
    ghost var v := t.Value();
    while i > 0
      invariant 0 <= i <= t.ndims
      invariant expected == Numel(v.shapes[i..]) % WORD
      invariant contiguous == PackedInWords(v.shapes[i..], v.strides[i..])
    {
      i := i - 1;
      assert v.shapes[i..][1..] == v.shapes[i + 1..] && v.strides[i..][1..] == v.strides[i + 1..];
      ModOfProduct(Numel(v.shapes[i + 1..]), t.shapes[i], WORD);
      assert Numel(v.shapes[i..]) == Numel(v.shapes[i + 1..]) * t.shapes[i];
      contiguous := contiguous && t.strides[i] == expected;
      expected := (expected * t.shapes[i]) % WORD;
    }
    assert v.shapes[0..] == v.shapes && v.strides[0..] == v.strides;
  }

  /** The reduced view of a slice, and the flag that the emitted code gives it. */
  function ReducedView(parent: Layout, offsets: seq<nat>, wants: seq<nat>, drop: seq<bool>): (r: Layout)
    requires parent.Ok() && |parent.shapes| == |offsets| == |wants| == |drop| && CountKept(drop) > 0
    ensures r.Ok()
  {
    KeepCounts(Clamped(parent.shapes, offsets, wants), drop);
    Reduced(View(parent, Clamped(parent.shapes, offsets, wants), offsets), drop)
  }

  predicate ReducedFlag(parent: Layout, offsets: seq<nat>, wants: seq<nat>, drop: seq<bool>)
    requires parent.Ok() && |parent.shapes| == |offsets| == |wants| == |drop| && CountKept(drop) > 0
  {
    var r := ReducedView(parent, offsets, wants, drop);
    Numel(Clamped(parent.shapes, offsets, wants)) == 0 || PackedInWords(r.shapes, r.strides)
  }

  /** The emitted code. Type deduction rejects dropping every axis. `viewContiguous` is the
      flag the runtime gives its view. */
  method Slice(parent: Tensor, offsets: seq<nat>, wants: seq<nat>, drop: seq<bool>, viewContiguous: bool)
      returns (result: Tensor)
    requires parent.Valid() && |offsets| == |wants| == |drop| == parent.ndims && (drop == [] || CountKept(drop) > 0)
    ensures result.Valid()
    ensures CountKept(drop) == |drop| ==>
      result.Value() == View(parent.Value(), Clamped(parent.Value().shapes, offsets, wants), offsets)
      && result.isContiguous == viewContiguous
    ensures CountKept(drop) < |drop| ==>
      && |ReducedView(parent.Value(), offsets, wants, drop).shapes| == CountKept(drop)
      && result.Value() == ReducedView(parent.Value(), offsets, wants, drop)
      && result.isContiguous == ReducedFlag(parent.Value(), offsets, wants, drop)
  {
    var shapes := ClampedShapes(parent, offsets, wants);
    var layout := View(parent.Value(), shapes, offsets);
    var view := new Tensor(layout.start, layout.shapes, layout.strides, viewContiguous);
    if CountKept(drop) == |drop| {
      return view;
    }
    result := DropAxes(view, layout, drop);
  }

  /** The part of the emitted code that removes axes from a view. */
  method DropAxes(view: Tensor, ghost v: Layout, drop: seq<bool>) returns (result: Tensor)
    requires view.Valid() && view.Value() == v && |drop| == view.ndims && CountKept(drop) > 0
    ensures result.Valid() && |Keep(v.shapes, drop)| == CountKept(drop) && result.Value() == Reduced(v, drop)
    ensures result.isContiguous == (Numel(v.shapes) == 0
      || PackedInWords(Reduced(v, drop).shapes, Reduced(v, drop).strides))
  {
    var empty := Numel(view.Value().shapes) == 0;
    result := new Tensor(view.startOffset, view.Value().shapes, view.Value().strides, view.isContiguous);
    Compact(result, view, drop);
    result.ndims := CountKept(drop);
    KeepCounts(v.shapes, drop);
    KeepCounts(v.strides, drop);
    if empty {
      result.shapes[0] := 0;
    }
    assert result.Value() == Reduced(v, drop);
    var contiguous := Contiguous(result);
    result.isContiguous := empty || contiguous;
  }

  // ---------------------------------------------------------------- what the flag means

  /** As long as the element count fits 64 bits, the loop computes packed strides. */
  lemma {:induction false} WordsAreEnough(shapes: seq<nat>, strides: seq<nat>)
    requires |shapes| == |strides| && 0 < Numel(shapes) < WORD
    ensures PackedInWords(shapes, strides) <==> Packed(shapes, strides)
  {
    if shapes != [] {
      var rest := Numel(shapes[1..]);
      assert rest > 0 && shapes[0] > 0;
      Monotone(1, shapes[0], rest, rest);
      assert rest <= Numel(shapes);
      WordsAreEnough(shapes[1..], strides[1..]);
    }
  }

  /** The stride of axis `d` is not the number of elements of the axes after it. */
  predicate UnpackedAt(shapes: seq<nat>, strides: seq<nat>, d: nat)
    requires d < |shapes| == |strides|
  {
    strides[d] != Numel(shapes[d + 1..])
  }

  lemma UnpackedInTail(shapes: seq<nat>, strides: seq<nat>, d: nat)
    requires |shapes| == |strides| && d < |shapes| - 1
    ensures UnpackedAt(shapes[1..], strides[1..], d) == UnpackedAt(shapes, strides, d + 1)
  {
    assert shapes[1..][d + 1..] == shapes[d + 2..];
  }

  lemma {:induction false} PackedAxisByAxis(shapes: seq<nat>, strides: seq<nat>)
    requires |shapes| == |strides|
    ensures Packed(shapes, strides) <==> forall d :: 0 <= d < |shapes| ==> !UnpackedAt(shapes, strides, d)
    ensures PackedWhereUsed(shapes, strides) <==> forall d :: 0 <= d < |shapes| && UnpackedAt(shapes, strides, d) ==>
      shapes[d] == 1
  {
    if shapes != [] {
      PackedAxisByAxis(shapes[1..], strides[1..]);
      assert UnpackedAt(shapes, strides, 0) == (strides[0] != Numel(shapes[1..]));
      forall d | 0 <= d < |shapes| - 1
        ensures UnpackedAt(shapes[1..], strides[1..], d) == UnpackedAt(shapes, strides, d + 1)
      {
        UnpackedInTail(shapes, strides, d);
      }
      forall d | 1 <= d < |shapes|
        ensures UnpackedAt(shapes, strides, d) == UnpackedAt(shapes[1..], strides[1..], d - 1)
      {
        UnpackedInTail(shapes, strides, d - 1);
      }
      forall d | 0 <= d < |shapes| - 1
        ensures shapes[1..][d] == shapes[d + 1]
      {
      }
    }
  }

  /** Some axis is unpacked, and every unpacked axis has extent one, so that no element
      uses its stride. */
  ghost predicate OnlyUnitAxesUnpacked(shapes: seq<nat>, strides: seq<nat>)
    requires |shapes| == |strides|
  {
    && (exists d :: 0 <= d < |shapes| && UnpackedAt(shapes, strides, d))
    && (forall d :: 0 <= d < |shapes| && UnpackedAt(shapes, strides, d) ==> shapes[d] == 1)
  }

  /** A reduced view that is not empty: the flag says whether every retained axis is packed;
      the addresses are consecutive exactly when every retained axis of extent above one is.
      So the flag is right if and only if the unpacked axes retained are not all unit axes. */
  lemma FlagExactly(parent: Layout, offsets: seq<nat>, wants: seq<nat>, drop: seq<bool>)
    requires parent.Ok() && |parent.shapes| == |offsets| == |wants| == |drop|
    requires Numel(parent.shapes) < 0x1_0000_0000_0000_0000
    requires forall d :: 0 <= d < |drop| && drop[d] ==> wants[d] == 1
    requires CountKept(drop) > 0 && Numel(Clamped(parent.shapes, offsets, wants)) > 0
    ensures var r := ReducedView(parent, offsets, wants, drop);
            && (ReducedFlag(parent, offsets, wants, drop) <==> forall d :: 0 <= d < |r.shapes| ==>
                !UnpackedAt(r.shapes, r.strides, d))
            && ((ReducedFlag(parent, offsets, wants, drop) <==> Consecutive(Addresses(r.shapes, r.strides, r.start)))
                <==> !OnlyUnitAxesUnpacked(r.shapes, r.strides))
            && (OnlyUnitAxesUnpacked(r.shapes, r.strides) ==> Consecutive(Addresses(r.shapes, r.strides, r.start)))
  {
    var v := View(parent, Clamped(parent.shapes, offsets, wants), offsets);
    var r := ReducedView(parent, offsets, wants, drop);
    KeepCounts(v.shapes, drop);
    ReducedAddresses(v, drop);
    ClampShrinks(parent.shapes, offsets, wants);
    WordsAreEnough(r.shapes, r.strides);
    PackedAxisByAxis(r.shapes, r.strides);
    ConsecutiveExactly(r.shapes, r.strides, r.start);
  }

  /** In particular, a true flag on a result that is not empty means that its addresses are
      consecutive. */
  lemma FlagMeansConsecutive(parent: Layout, offsets: seq<nat>, wants: seq<nat>, drop: seq<bool>)
    requires parent.Ok() && |parent.shapes| == |offsets| == |wants| == |drop|
    requires Numel(parent.shapes) < 0x1_0000_0000_0000_0000
    requires CountKept(drop) > 0 && forall d :: 0 <= d < |drop| && drop[d] ==> wants[d] == 1
    ensures var r := ReducedView(parent, offsets, wants, drop);
            Numel(Clamped(parent.shapes, offsets, wants)) > 0 && ReducedFlag(parent, offsets, wants, drop) ==>
              Consecutive(Addresses(r.shapes, r.strides, r.start))
  {
    if Numel(Clamped(parent.shapes, offsets, wants)) > 0 {
      FlagExactly(parent, offsets, wants, drop);
    }
  }

  /** The flag can be false although the addresses are consecutive: one element of a packed
      matrix of two columns or more, its column axis dropped, keeps the row stride. */
  lemma FlagCanMiss(start: nat, rows: nat, columns: nat, i: nat, j: nat)
    requires i < rows && j < columns && columns >= 2
    ensures var parent, drop := Layout(start, [rows, columns], [columns, 1]), [false, true];
            var r := ReducedView(parent, [i, j], [1, 1], drop);
            && Packed(parent.shapes, parent.strides) && Numel(Clamped(parent.shapes, [i, j], [1, 1])) > 0
            && r.shapes == [1] && !ReducedFlag(parent, [i, j], [1, 1], drop)
            && Consecutive(Addresses(r.shapes, r.strides, r.start))
  {
    var parent, drop := Layout(start, [rows, columns], [columns, 1]), [false, true];
    var c := Clamped(parent.shapes, [i, j], [1, 1]);
    assert c == [1, 1];
    var r := ReducedView(parent, [i, j], [1, 1], drop);
    assert Keep(c[1..], drop[1..]) == [] && Keep(parent.strides[1..], drop[1..]) == [];
    assert r.shapes == [1] && r.strides == [columns];
    assert |Addresses(r.shapes, r.strides, r.start)| == 1;
  }
}
