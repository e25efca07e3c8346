/** The view that a `tensor.slice` produces: which elements it addresses, and in which order
    (src/codegen/tensor_op_codegen.cpp). */
module SliceView {

  /** A strided tensor: element `idx` lives at `start` plus the sum of `idx[d] * strides[d]`. */
  datatype Layout = Layout(start: nat, shapes: seq<nat>, strides: seq<nat>)
  {
    predicate Ok() { |shapes| == |strides| }
  }

  function Times(a: int, b: int): int { a * b }

  function Numel(shapes: seq<nat>): (n: nat)
    ensures n == 0 <==> exists d :: 0 <= d < |shapes| && shapes[d] == 0
  {
    if shapes == [] then 1
    else
      var rest := Numel(shapes[1..]);
      assert forall d :: 1 <= d < |shapes| ==> shapes[d] == shapes[1..][d - 1];
      assert forall d :: 0 <= d < |shapes[1..]| ==> shapes[1..][d] == shapes[d + 1];
      Product(shapes[0], rest);
      Times(shapes[0], rest)
  }

  lemma Product(a: nat, b: nat)
    ensures Times(a, b) >= 0 && (Times(a, b) == 0 <==> a == 0 || b == 0)
  {
  }

  /** The offset of an element from the start. */
  function Dot(idx: seq<nat>, strides: seq<nat>): nat
    requires |idx| == |strides|
  {
    if idx == [] then 0
    else
      Product(idx[0], strides[0]);
      Times(idx[0], strides[0]) + Dot(idx[1..], strides[1..])
  }

  predicate InShape(idx: seq<nat>, shapes: seq<nat>) {
    |idx| == |shapes| && forall d :: 0 <= d < |idx| ==> idx[d] < shapes[d]
  }

  function Address(l: Layout, idx: seq<nat>): nat
    requires |idx| == |l.strides|
  {
    l.start + Dot(idx, l.strides)
  }

  // ---------------------------------------------------------------- all addresses, in order

  /** The addresses of all elements in row-major order. */
  function Addresses(shapes: seq<nat>, strides: seq<nat>, base: int): (r: seq<int>)
    requires |shapes| == |strides|
    ensures |r| == Numel(shapes)
    decreases |shapes|, 0, 0
  {
    if shapes == [] then [base] else Rows(shapes[0], shapes[1..], strides[1..], base, strides[0])
  }

  /** `n` rows, `stride` apart. */
  function Rows(n: nat, shapes: seq<nat>, strides: seq<nat>, base: int, stride: int): (r: seq<int>)
    requires |shapes| == |strides|
    ensures |r| == Times(n, Numel(shapes))
    decreases |shapes|, 1, n
  {
    if n == 0 then []
    else
      assert Times(n, Numel(shapes)) == Numel(shapes) + Times(n - 1, Numel(shapes));
      Addresses(shapes, strides, base) + Rows(n - 1, shapes, strides, base + stride, stride)
  }

  /** The row-major position of an element. */
  function Position(idx: seq<nat>, shapes: seq<nat>): (p: nat)
    requires InShape(idx, shapes)
    ensures p < Numel(shapes)
  {
    if idx == [] then 0
    else
      var n := Numel(shapes[1..]);
      assert InShape(idx[1..], shapes[1..]);
      Product(idx[0], n);
      Fits(idx[0], shapes[0], Position(idx[1..], shapes[1..]), n);
      Times(idx[0], n) + Position(idx[1..], shapes[1..])
  }

  lemma Fits(i: nat, n: nat, p: nat, m: nat)
    requires i < n && p < m
    ensures Times(i, m) + p < Times(n, m)
  {
    assert Times(n, m) == Times(i + 1, m) + Times(n - i - 1, m);
    assert Times(i + 1, m) == Times(i, m) + m;
    Product(n - i - 1, m);
  }

  /** The list and the index arithmetic agree: the element at an index is listed at its
      row-major position. */
  lemma {:induction false} AddressAt(shapes: seq<nat>, strides: seq<nat>, base: int, idx: seq<nat>)
    requires |shapes| == |strides| && InShape(idx, shapes)
    ensures Addresses(shapes, strides, base)[Position(idx, shapes)] == base + Dot(idx, strides)
    decreases |shapes|, 0, 0
  {
    if shapes != [] {
      assert InShape(idx[1..], shapes[1..]);
      RowAt(shapes[0], shapes[1..], strides[1..], base, strides[0], idx[0], idx[1..]);
    }
  }

  lemma {:induction false} RowAt(n: nat, shapes: seq<nat>, strides: seq<nat>, base: int, stride: int, i: nat,
      idx: seq<nat>)
    requires |shapes| == |strides| && InShape(idx, shapes) && i < n
    ensures 0 <= Times(i, Numel(shapes)) + Position(idx, shapes) < Times(n, Numel(shapes))
    ensures Rows(n, shapes, strides, base, stride)[Times(i, Numel(shapes)) + Position(idx, shapes)]
         == base + Times(i, stride) + Dot(idx, strides)
    decreases |shapes|, 1, n
  {
    var m := Numel(shapes);
    Product(i, m);
    Fits(i, n, Position(idx, shapes), m);
    if i == 0 {
      AddressAt(shapes, strides, base, idx);
    } else {
      assert Times(i, m) == m + Times(i - 1, m);
      assert Times(i, stride) == stride + Times(i - 1, stride);
      RowAt(n - 1, shapes, strides, base + stride, stride, i - 1, idx);
    }
  }

  // ---------------------------------------------------------------- clamping

  /** The emitted clamp of one axis. */
  function Clamp(parent: nat, offset: nat, want: nat): nat {
    if offset >= parent then 0 else if want <= parent - offset then want else parent - offset
  }

  function Clamped(parents: seq<nat>, offsets: seq<nat>, wants: seq<nat>): (shapes: seq<nat>)
    requires |parents| == |offsets| == |wants|
    ensures |shapes| == |wants| && forall d :: 0 <= d < |wants| ==> shapes[d] == Clamp(parents[d], offsets[d], wants[d])
  {
    seq(|wants|, d requires 0 <= d < |wants| == |parents| == |offsets| => Clamp(parents[d], offsets[d], wants[d]))
  }

  function Shifted(offsets: seq<nat>, idx: seq<nat>): (r: seq<nat>)
    requires |idx| == |offsets|
    ensures |r| == |idx| && forall d :: 0 <= d < |r| ==> r[d] == offsets[d] + idx[d]
  {
    seq(|idx|, d requires 0 <= d < |idx| == |offsets| => offsets[d] + idx[d])
  }

  /** `Tensor::view` of the runtime: shapes and offsets over the parent's strides. An empty
      view stays at the parent's start. */
  function View(parent: Layout, shapes: seq<nat>, offsets: seq<nat>): (v: Layout)
    requires parent.Ok() && |shapes| == |offsets| == |parent.shapes|
    ensures v.Ok()
  {
    Layout(if Numel(shapes) == 0 then parent.start
        else parent.start + Dot(offsets, parent.strides), shapes, parent.strides)
  }

  /** The clamp keeps exactly the requested elements that the parent has, so every element
      of the view lies inside the parent. */
  lemma ClampExactly(parents: seq<nat>, offsets: seq<nat>, wants: seq<nat>, idx: seq<nat>)
    requires |parents| == |offsets| == |wants| == |idx|
    ensures InShape(idx, Clamped(parents, offsets, wants))
      <==> InShape(idx, wants) && InShape(Shifted(offsets, idx), parents)
  {
  }

  /** An in-bounds request is served as it is. */
  lemma InBoundsUnchanged(parents: seq<nat>, offsets: seq<nat>, wants: seq<nat>)
    requires |parents| == |offsets| == |wants| && forall d :: 0 <= d < |wants| ==> wants[d] > 0
    ensures Clamped(parents, offsets, wants) == wants <==> forall d :: 0 <= d < |wants| ==>
      offsets[d] + wants[d] <= parents[d]
  {
  }

  lemma {:induction false} DotShifts(offsets: seq<nat>, idx: seq<nat>, strides: seq<nat>)
    requires |offsets| == |idx| == |strides|
    ensures Dot(Shifted(offsets, idx), strides) == Dot(offsets, strides) + Dot(idx, strides)
  {
    if idx != [] {
      DotShifts(offsets[1..], idx[1..], strides[1..]);
      assert Shifted(offsets, idx)[1..] == Shifted(offsets[1..], idx[1..]);
      assert Times(offsets[0] + idx[0], strides[0]) == Times(offsets[0], strides[0]) + Times(idx[0], strides[0]);
    }
  }

  /** An element of the view is the parent's element at the shifted index. */
  lemma ViewAddresses(parent: Layout, offsets: seq<nat>, wants: seq<nat>, idx: seq<nat>)
    requires parent.Ok() && |parent.shapes| == |offsets| == |wants|
    requires InShape(idx, Clamped(parent.shapes, offsets, wants))
    ensures InShape(Shifted(offsets, idx), parent.shapes)
    ensures Address(View(parent, Clamped(parent.shapes, offsets, wants), offsets), idx)
      == Address(parent, Shifted(offsets, idx))
  {
    ClampExactly(parent.shapes, offsets, wants, idx);
    DotShifts(offsets, idx, parent.strides);
  }

  // ---------------------------------------------------------------- dropping axes

  /** The axes that stay. */
  function Keep(s: seq<nat>, drop: seq<bool>): (r: seq<nat>)
    requires |s| == |drop|
    ensures |r| <= |s|
  {
    if s == [] then []
    else if drop[0] then Keep(s[1..], drop[1..])
    else [s[0]] + Keep(s[1..], drop[1..])
  }

  lemma {:induction false} KeepLengths(s: seq<nat>, t: seq<nat>, drop: seq<bool>)
    requires |s| == |t| == |drop|
    ensures |Keep(s, drop)| == |Keep(t, drop)|
  {
    if s != [] { KeepLengths(s[1..], t[1..], drop[1..]); }
  }

  /** Dropped axes have extent one. */
  predicate Droppable(shapes: seq<nat>, drop: seq<bool>) {
    |shapes| == |drop| && forall d :: 0 <= d < |shapes| && drop[d] ==> shapes[d] == 1
  }

  lemma TailDroppable(shapes: seq<nat>, drop: seq<bool>)
    requires Droppable(shapes, drop) && shapes != []
    ensures Droppable(shapes[1..], drop[1..])
  {
  }

  /** Dropping axes of extent one leaves the same addresses in the same order. */
  lemma {:induction false} DropKeepsAddresses(shapes: seq<nat>, strides: seq<nat>, drop: seq<bool>, base: int)
    requires |shapes| == |strides| && Droppable(shapes, drop)
    ensures |Keep(shapes, drop)| == |Keep(strides, drop)|
    ensures Addresses(Keep(shapes, drop), Keep(strides, drop), base) == Addresses(shapes, strides, base)
    decreases |shapes|, 0, 0
  {
    KeepLengths(shapes, strides, drop);
    if shapes != [] {
      TailDroppable(shapes, drop);
      if drop[0] {
        assert Rows(1, shapes[1..], strides[1..], base, strides[0]) == Addresses(shapes[1..], strides[1..], base) + [];
        DropKeepsAddresses(shapes[1..], strides[1..], drop[1..], base);
      } else {
        DropKeepsRows(shapes[0], shapes[1..], strides[1..], drop[1..], base, strides[0]);
        assert Keep(shapes, drop)[1..] == Keep(shapes[1..], drop[1..])
            && Keep(strides, drop)[1..] == Keep(strides[1..], drop[1..]);
      }
    }
  }

  lemma {:induction false} DropKeepsRows(n: nat, shapes: seq<nat>, strides: seq<nat>, drop: seq<bool>, base: int,
      stride: int)
    requires |shapes| == |strides| && Droppable(shapes, drop)
    ensures |Keep(shapes, drop)| == |Keep(strides, drop)|
    ensures Rows(n, Keep(shapes, drop), Keep(strides, drop), base, stride) == Rows(n, shapes, strides, base, stride)
    decreases |shapes|, 1, n
  {
    KeepLengths(shapes, strides, drop);
    if n > 0 {
      DropKeepsAddresses(shapes, strides, drop, base);
      DropKeepsRows(n - 1, shapes, strides, drop, base + stride, stride);
    }
  }

  // ---------------------------------------------------------------- contiguity

  ghost predicate Consecutive(a: seq<int>) {
    forall i :: 0 <= i < |a| ==> a[i] == a[0] + i
  }

  /** Every stride is the number of elements of the axes after it. */
  predicate Packed(shapes: seq<nat>, strides: seq<nat>) {
    |shapes| == |strides| && (shapes == [] || (strides[0] == Numel(shapes[1..]) && Packed(shapes[1..], strides[1..])))
  }

  /** The same, but for axes of extent one, whose stride no element ever uses. */
  predicate PackedWhereUsed(shapes: seq<nat>, strides: seq<nat>) {
    |shapes| == |strides|
    && (shapes == [] || ((shapes[0] == 1 || strides[0] == Numel(shapes[1..]))
        && PackedWhereUsed(shapes[1..], strides[1..])))
  }

  lemma {:induction false} FirstAddress(shapes: seq<nat>, strides: seq<nat>, base: int)
    requires |shapes| == |strides| && Numel(shapes) > 0
    ensures Addresses(shapes, strides, base)[0] == base
  {
    if shapes != [] {
      FirstAddress(shapes[1..], strides[1..], base);
    }
  }

  lemma ConsecutiveJoin(a: seq<int>, b: seq<int>)
    requires a != [] && b != []
    ensures Consecutive(a + b) <==> Consecutive(a) && Consecutive(b) && b[0] == a[0] + |a|
  {
    var c := a + b;
    assert c[0] == a[0] && c[|a|] == b[0];
    if Consecutive(c) {
      assert forall i :: 0 <= i < |a| ==> a[i] == c[i];
      assert forall i :: 0 <= i < |b| ==> b[i] == c[|a| + i];
    }
  }

  /** The addresses of a tensor that is not empty are consecutive exactly when every stride
      some element uses is the packed one. */
  lemma {:induction false} ConsecutiveExactly(shapes: seq<nat>, strides: seq<nat>, base: int)
    requires |shapes| == |strides| && Numel(shapes) > 0
    ensures Consecutive(Addresses(shapes, strides, base)) <==> PackedWhereUsed(shapes, strides)
    decreases |shapes|, 0, 0
  {
    if shapes != [] {
      assert Numel(shapes[1..]) > 0;
      RowsConsecutive(shapes[0], shapes[1..], strides[1..], base, strides[0]);
    }
  }

  lemma {:induction false} RowsConsecutive(n: nat, shapes: seq<nat>, strides: seq<nat>, base: int, stride: int)
    requires |shapes| == |strides| && Numel(shapes) > 0 && n > 0
    ensures Consecutive(Rows(n, shapes, strides, base, stride))
       <==> PackedWhereUsed(shapes, strides) && (n == 1 || stride == Numel(shapes))
    decreases |shapes|, 1, n
  {
    var row := Addresses(shapes, strides, base);
    ConsecutiveExactly(shapes, strides, base);
    if n == 1 {
      assert Rows(1, shapes, strides, base, stride) == row + [];
      assert row + [] == row;
    } else {
      var rest := Rows(n - 1, shapes, strides, base + stride, stride);
      RowsConsecutive(n - 1, shapes, strides, base + stride, stride);
      FirstAddress(shapes, strides, base);
      FirstAddress(shapes, strides, base + stride);
      assert rest[0] == Addresses(shapes, strides, base + stride)[0];
      ConsecutiveJoin(row, rest);
    }
  }

  // ---------------------------------------------------------------- the whole slice

  /** The tensor that results when axes are dropped: an empty view stays empty. */
  function Reduced(v: Layout, drop: seq<bool>): (r: Layout)
    requires v.Ok() && |drop| == |v.shapes| && Keep(v.shapes, drop) != []
    ensures r.Ok()
  {
    KeepLengths(v.shapes, v.strides, drop);
    Layout(v.start, if Numel(v.shapes) == 0 then Keep(v.shapes, drop)[0 := 0]
        else Keep(v.shapes, drop), Keep(v.strides, drop))
  }

  /** Dropping the unit axes of a view keeps its element count, its emptiness, and its
      addresses in the same order, also when an index out of bounds has clamped a dropped
      axis to nothing. */
  lemma ReducedAddresses(v: Layout, drop: seq<bool>)
    requires v.Ok() && |drop| == |v.shapes| && Keep(v.shapes, drop) != []
    requires forall d :: 0 <= d < |drop| && drop[d] ==> v.shapes[d] <= 1
    ensures var r := Reduced(v, drop);
            && Numel(r.shapes) == Numel(v.shapes)
            && Addresses(r.shapes, r.strides, r.start) == Addresses(v.shapes, v.strides, v.start)
  {
    var r := Reduced(v, drop);
    if Numel(v.shapes) == 0 {
      assert r.shapes[0] == 0;
    } else {
      DropKeepsAddresses(v.shapes, v.strides, drop, v.start);
      assert |Addresses(r.shapes, r.strides, r.start)| == |Addresses(v.shapes, v.strides, v.start)|;
    }
  }

  /** A view has no more elements than its parent. */
  lemma {:induction false} ClampShrinks(parents: seq<nat>, offsets: seq<nat>, wants: seq<nat>)
    requires |parents| == |offsets| == |wants|
    ensures Numel(Clamped(parents, offsets, wants)) <= Numel(parents)
  {
    if parents != [] {
      ClampShrinks(parents[1..], offsets[1..], wants[1..]);
      var c := Clamped(parents, offsets, wants);
      assert c[1..] == Clamped(parents[1..], offsets[1..], wants[1..]);
      Monotone(c[0], parents[0], Numel(c[1..]), Numel(parents[1..]));
    }
  }

  lemma Monotone(a: nat, b: nat, c: nat, d: nat)
    requires a <= b && c <= d
    ensures Times(a, c) <= Times(b, d)
  {
  }

  /** Every address of the result, in any position, is the address of an element of the
      parent that was asked for. */
  lemma SliceReadsParent(parent: Layout, offsets: seq<nat>, wants: seq<nat>, idx: seq<nat>)
    requires parent.Ok() && |parent.shapes| == |offsets| == |wants|
    requires InShape(idx, Clamped(parent.shapes, offsets, wants))
    ensures var v := View(parent, Clamped(parent.shapes, offsets, wants), offsets);
            && InShape(idx, wants) && InShape(Shifted(offsets, idx), parent.shapes)
            && Addresses(v.shapes, v.strides, v.start)[Position(idx, v.shapes)]
                == Address(parent, Shifted(offsets, idx))
  {
    var v := View(parent, Clamped(parent.shapes, offsets, wants), offsets);
    ClampExactly(parent.shapes, offsets, wants, idx);
    ViewAddresses(parent, offsets, wants, idx);
    AddressAt(v.shapes, v.strides, v.start, idx);
  }
}
