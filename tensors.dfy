/** N-dimensional arrays as the detection code sees them: a shape, an element-type tag and
    the elements in row-major order. */
module Tensors {

  /** The element type classes the resolver distinguishes (`np.floating`, `np.integer`, anything else). */
  datatype DType = Float | Int | Other

  /** Number of elements of an array of the given shape (1 for a scalar). */
  function Product(shape: seq<nat>): nat
  {
    if |shape| == 0 then 1 else shape[0] * Product(shape[1..])
  }

  datatype NdArray = NdArray(shape: seq<nat>, dtype: DType, data: seq<real>)

  /** A well-formed array: exactly as many elements as its shape describes. */
  type Tensor = a: NdArray | |a.data| == Product(a.shape) witness NdArray([], Float, [0.0])

  /** One box row `[x1, y1, x2, y2]`. */
  datatype Box = Box(x1: real, y1: real, x2: real, y2: real)

  /** Removes a leading batch dimension of size 1 from an array of rank at least 2. */
  function SqueezeBatch(t: Tensor): (r: Tensor)
    ensures r.data == t.data && r.dtype == t.dtype
    ensures |r.shape| < |t.shape| <==> |t.shape| >= 2 && t.shape[0] == 1
    ensures |r.shape| < |t.shape| ==> t.shape == [1] + r.shape
    ensures |r.shape| >= |t.shape| ==> r == t
  {
    if |t.shape| >= 2 && t.shape[0] == 1 then
      assert t.shape == [1] + t.shape[1..];
      NdArray(t.shape[1..], t.dtype, t.data)
    else
      t
  }

  predicate IsMatrix(t: Tensor)
  {
    |t.shape| == 2
  }

  /** Number of rows of a matrix (`shape[0]`). */
  function Rows(t: Tensor): nat
    requires IsMatrix(t)
  {
    t.shape[0]
  }

  /** Number of columns of a matrix (`shape[-1]`). */
  function Width(t: Tensor): nat
    requires IsMatrix(t)
  {
    t.shape[1]
  }

  lemma MatrixSize(t: Tensor)
    requires IsMatrix(t)
    ensures |t.data| == Rows(t) * Width(t)
  {
    assert t.shape[1..] == [t.shape[1]];
    assert t.shape[1..][1..] == [];
    assert Product(t.shape[1..]) == t.shape[1] * Product([]);
  }

  lemma VectorSize(t: Tensor)
    requires |t.shape| == 1
    ensures |t.data| == t.shape[0]
  {
    assert t.shape[1..] == [];
    assert Product(t.shape[1..]) == 1;
  }

  lemma CellInBounds(n: nat, w: nat, i: nat, c: nat)
    requires i < n && c < w
    ensures i * w + c < n * w
  {
    assert (n - (i + 1)) * w >= 0;
    calc {
      i * w + c;
    <
      (i + 1) * w;
    ==
      n * w - (n - (i + 1)) * w;
    <=
      n * w;
    }
  }

  /** Element `t[i, c]` of a matrix. */
  function Cell(t: Tensor, i: nat, c: nat): real
    requires IsMatrix(t) && i < Rows(t) && c < Width(t)
  {
    MatrixSize(t);
    CellInBounds(Rows(t), Width(t), i, c);
    t.data[i * Width(t) + c]
  }

  /** Column `t[:, c]` of a matrix. */
  function Column(t: Tensor, c: nat): (r: seq<real>)
    requires IsMatrix(t) && c < Width(t)
    ensures |r| == Rows(t)
    ensures forall i :: 0 <= i < |r| ==> r[i] == Cell(t, i, c)
  {
    seq(Rows(t), i requires 0 <= i < Rows(t) => Cell(t, i, c))
  }

  /** The first four columns `t[:, :4]` of a matrix, one box per row. */
  function BoxesOf(t: Tensor): (r: seq<Box>)
    requires IsMatrix(t) && Width(t) >= 4
    ensures |r| == Rows(t)
    ensures forall i :: 0 <= i < |r| ==>
      r[i] == Box(Cell(t, i, 0), Cell(t, i, 1), Cell(t, i, 2), Cell(t, i, 3))
  {
    seq(Rows(t), i requires 0 <= i < Rows(t) =>
      Box(Cell(t, i, 0), Cell(t, i, 1), Cell(t, i, 2), Cell(t, i, 3)))
  }

  /** Conversion of a real to an `int64` value as `astype` does it: truncation toward zero
      (the 64-bit range is not modelled). */
  function TruncToInt(x: real): (r: int)
    ensures x >= 0.0 ==> r as real <= x < r as real + 1.0
    ensures x < 0.0 ==> r as real - 1.0 < x <= r as real
  {
    if x >= 0.0 then x.Floor else -((-x).Floor)
  }

  /** Element-wise `astype(np.int64)` of a sequence of reals. */
  function TruncAll(s: seq<real>): (r: seq<int>)
    ensures |r| == |s|
    ensures forall i :: 0 <= i < |s| ==> r[i] == TruncToInt(s[i])
  {
    seq(|s|, i requires 0 <= i < |s| => TruncToInt(s[i]))
  }
}
