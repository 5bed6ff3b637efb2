/** ManagedTensor: a wrapper that owns a tensor's metadata (sizes, strides and the
    TensorImpl that points at them) but only borrows the element memory. */
module ManagedTensors {
  import opened TensorTypes

  // ---------------------------------------------------------------------------
  // Contiguous (row-major) layout
  // ---------------------------------------------------------------------------

  /** The row-major strides of a tensor of the given sizes: the stride of
      dimension i is the product of the sizes of every later dimension. */
  function ContiguousStrides(sizes: seq<int>): seq<int>
  {
    seq(|sizes|, i requires 0 <= i < |sizes| => Product(sizes[i + 1..]))
  }

  /** What the stride loop establishes: one stride per size, the innermost
      stride is 1, and each stride is the next stride times the next size. */
  ghost predicate IsRowMajor(sizes: seq<int>, strides: seq<int>)
  {
    |strides| == |sizes| &&
    (|sizes| > 0 ==> strides[|sizes| - 1] == 1) &&
    forall i :: 0 <= i < |sizes| - 1 ==> strides[i] == strides[i + 1] * sizes[i + 1]
  }

  /** Back-to-front induction: a row-major stride vector has the closed form from
      dimension k on. */
  lemma {:induction false} RowMajorSuffix(sizes: seq<int>, strides: seq<int>, k: int)
    requires IsRowMajor(sizes, strides)
    requires 0 <= k < |sizes|
    ensures strides[k] == Product(sizes[k + 1..])
    decreases |sizes| - k
  {
    if k == |sizes| - 1 {
      assert sizes[k + 1..] == [];
    } else {
      RowMajorSuffix(sizes, strides, k + 1);
      ProductAt(sizes, k + 1);
    }
  }

  /** The recurrence and the closed form describe the same stride vector, and it is
      the only one: length, last stride 1, strides[i] == strides[i+1] * sizes[i+1]
      hold exactly for the vector of products of later sizes. */
  lemma RowMajorIffContiguous(sizes: seq<int>, strides: seq<int>)
    ensures IsRowMajor(sizes, strides) <==> strides == ContiguousStrides(sizes)
  {
    var n := |sizes|;
    if strides == ContiguousStrides(sizes) {
      if n > 0 {
        assert sizes[n..] == [];
      }
      forall i | 0 <= i < n - 1
        ensures strides[i] == strides[i + 1] * sizes[i + 1]
      {
        ProductAt(sizes, i + 1);
      }
    }
    if IsRowMajor(sizes, strides) {
      forall i | 0 <= i < n
        ensures strides[i] == ContiguousStrides(sizes)[i]
      {
        RowMajorSuffix(sizes, strides, i);
      }
    }
  }

  /** Memory offset of an index tuple under the given strides. */
  function Offset(index: seq<int>, strides: seq<int>): int
    requires |index| == |strides|
  {
    if index == [] then 0 else index[0] * strides[0] + Offset(index[1..], strides[1..])
  }

  /** The index tuple addresses an element of a tensor of the given sizes. */
  predicate InBounds(index: seq<int>, sizes: seq<int>)
  {
    |index| == |sizes| && forall i :: 0 <= i < |sizes| ==> 0 <= index[i] < sizes[i]
  }

  lemma InBoundsTail(index: seq<int>, sizes: seq<int>)
    requires InBounds(index, sizes) && |sizes| > 0
    ensures InBounds(index[1..], sizes[1..])
  {
    forall i | 0 <= i < |sizes| - 1 ensures 0 <= index[1..][i] < sizes[1..][i] {
      assert index[1..][i] == index[i + 1];
    }
  }

  lemma ContiguousStridesTail(sizes: seq<int>)
    requires |sizes| > 0
    ensures ContiguousStrides(sizes)[0] == Product(sizes[1..])
    ensures ContiguousStrides(sizes)[1..] == ContiguousStrides(sizes[1..])
  {
    var rest := sizes[1..];
    forall i | 0 <= i < |rest|
      ensures ContiguousStrides(sizes)[1..][i] == ContiguousStrides(rest)[i]
    {
      assert rest[i + 1..] == sizes[i + 2..];
    }
  }

  lemma MulMonotone(x: int, y: int, p: int)
    requires 0 <= x <= y && 0 <= p
    ensures 0 <= x * p <= y * p
  {
  }

  /** The strides are a contiguous layout: every in-bounds element of the tensor
      lies inside a buffer of Product(sizes) elements starting at offset 0. */
  lemma {:induction false} ContiguousOffsetInRange(sizes: seq<int>, index: seq<int>)
    requires InBounds(index, sizes)
    ensures 0 <= Offset(index, ContiguousStrides(sizes)) < Product(sizes)
    decreases |sizes|
  {
    if sizes != [] {
      var rest := sizes[1..];
      var strides := ContiguousStrides(sizes);
      ContiguousStridesTail(sizes);
      InBoundsTail(index, sizes);
      ContiguousOffsetInRange(rest, index[1..]);
      var p := Product(rest);
      var o := Offset(index[1..], strides[1..]);
      assert 0 <= o < p;
      assert Offset(index, strides) == index[0] * p + o;
      MulMonotone(index[0], index[0], p);
      MulMonotone(index[0] + 1, sizes[0], p);
      assert (index[0] + 1) * p == index[0] * p + p;
    }
  }

  /** Quotient and remainder by a positive p are unique. */
  lemma QuotientUnique(q1: int, r1: int, q2: int, r2: int, p: int)
    requires 0 <= q1 && 0 <= q2 && 0 <= r1 < p && 0 <= r2 < p
    requires q1 * p + r1 == q2 * p + r2
    ensures q1 == q2 && r1 == r2
  {
    if q1 < q2 {
      MulMonotone(q1 + 1, q2, p);
    } else if q2 < q1 {
      MulMonotone(q2 + 1, q1, p);
    }
  }

  /** The strides give distinct in-bounds index tuples distinct offsets; with
      ContiguousOffsetInRange, the in-bounds tuples map one-to-one into
      [0, Product(sizes)): the row-major layout without overlaps. */
  lemma {:induction false} ContiguousOffsetInjective(sizes: seq<int>, i: seq<int>, j: seq<int>)
    requires InBounds(i, sizes) && InBounds(j, sizes)
    requires Offset(i, ContiguousStrides(sizes)) == Offset(j, ContiguousStrides(sizes))
    ensures i == j
    decreases |sizes|
  {
    if sizes != [] {
      var rest := sizes[1..];
      var strides := ContiguousStrides(sizes);
      ContiguousStridesTail(sizes);
      InBoundsTail(i, sizes);
      InBoundsTail(j, sizes);
      ContiguousOffsetInRange(rest, i[1..]);
      ContiguousOffsetInRange(rest, j[1..]);
      var p := Product(rest);
      assert Offset(i, strides) == i[0] * p + Offset(i[1..], strides[1..]);
      assert Offset(j, strides) == j[0] * p + Offset(j[1..], strides[1..]);
      QuotientUnique(i[0], Offset(i[1..], strides[1..]), j[0], Offset(j[1..], strides[1..]), p);
      ContiguousOffsetInjective(rest, i[1..], j[1..]);
      assert i == [i[0]] + i[1..] && j == [j[0]] + j[1..];
    }
  }

  /** Fills `strides` back to front with the row-major strides of `sizes`. */
  method FillContiguousStrides(sizes: array<int>, strides: array<int>)
    requires strides.Length == sizes.Length && strides != sizes
    modifies strides
    ensures strides[..] == ContiguousStrides(sizes[..])
  {
    var n := strides.Length;
    if n > 0 {
      strides[n - 1] := 1;
      assert sizes[n..] == [];
      var i := n - 1;
      while i > 0
        invariant 0 <= i < n
        invariant forall k :: i <= k < n ==> strides[k] == Product(sizes[k + 1..])
      {
        ProductAt(sizes[..], i);
        assert sizes[..][i..] == sizes[i..] && sizes[..][i + 1..] == sizes[i + 1..];
        strides[i - 1] := strides[i] * sizes[i];
        i := i - 1;
      }
    }
  }

  // ---------------------------------------------------------------------------
  // TensorImpl and ManagedTensor
  // ---------------------------------------------------------------------------

  /** How a TensorImpl may change shape after construction. */
  datatype TensorShapeDynamism = Static | DynamicBound | DynamicUnbound

  /** The caller's element memory. A ManagedTensor refers to it and never copies,
      frees or writes it. */
  class DataBuffer {
  }

  /** Tensor metadata as the runtime sees it. Its size and stride buffers are not its
      own: it points at the arrays it was given. */
  class TensorImpl {
    const dtype: ScalarType
    const dim: nat
    const sizes: array<int>
    const data: DataBuffer?
    const dimOrder: Option<seq<int>>
    const strides: array<int>
    const dynamism: TensorShapeDynamism

    constructor (dtype: ScalarType, dim: nat, sizes: array<int>, data: DataBuffer?,
                 dimOrder: Option<seq<int>>, strides: array<int>,
                 dynamism: TensorShapeDynamism)
      ensures this.dtype == dtype && this.dim == dim && this.sizes == sizes
      ensures this.data == data && this.dimOrder == dimOrder
      ensures this.strides == strides && this.dynamism == dynamism
    {
      this.dtype := dtype;
      this.dim := dim;
      this.sizes := sizes;
      this.data := data;
      this.dimOrder := dimOrder;
      this.strides := strides;
      this.dynamism := dynamism;
    }
  }

  /** Stand-in for the runtime's resize_tensor: on Ok the tensor takes the requested
      sizes (written into its size buffer) and, in its stride buffer, the strides the
      runtime derives for them, given as `strideAt(old strides, new sizes, i)`;
      otherwise nothing changes. */
  method ResizeTensor(t: TensorImpl, requested: seq<int>,
                      admits: (seq<int>, seq<int>) -> Error,
                      strideAt: (seq<int>, seq<int>, int) -> int) returns (err: Error)
    requires t.sizes != t.strides && t.sizes.Length == t.strides.Length
    modifies t.sizes, t.strides
    ensures err == ResizeTensorError(old(t.sizes[..]), requested, admits)
    ensures err == Ok ==> t.sizes[..] == requested
    ensures err == Ok ==> t.strides.Length == |requested|
    ensures err == Ok ==>
              forall i :: 0 <= i < |requested| ==> t.strides[i] == strideAt(old(t.strides[..]), requested, i)
    ensures err != Ok ==> t.sizes[..] == old(t.sizes[..]) && t.strides[..] == old(t.strides[..])
  {
    err := ResizeTensorError(t.sizes[..], requested, admits);
    if err == Ok {
      ghost var oldStrides := t.strides[..];
      var stale := t.strides[..];
      for i := 0 to |requested|
        invariant forall k :: 0 <= k < i ==> t.sizes[k] == requested[k]
        invariant forall k :: 0 <= k < i ==> t.strides[k] == strideAt(oldStrides, requested, k)
      {
        t.sizes[i] := requested[i];
        t.strides[i] := strideAt(stale, requested, i);
      }
      assert t.sizes[..] == requested;
    }
  }

  class ManagedTensor {
    /** The copy of the constructor's size vector (sizes_). */
    const sizes: array<int>
    /** The computed stride vector (strides_). */
    const strides: array<int>
    /** The owned TensorImpl (tensor_impl_), pointing at sizes, strides and the data. */
    const impl: TensorImpl

    /** The TensorImpl aliases this object's buffers, one size and one stride per
        dimension. */
    ghost predicate Valid()
      reads this
    {
      sizes != strides &&
      sizes.Length == strides.Length == impl.dim &&
      impl.sizes == sizes && impl.strides == strides &&
      impl.dimOrder == None && impl.dynamism == DynamicBound
    }

    /** Copies the sizes, computes the contiguous strides and wraps the borrowed data. */
    constructor (data: DataBuffer?, sizes: seq<int>, dtype: ScalarType)
      ensures Valid()
      ensures fresh(this.sizes) && fresh(this.strides) && fresh(impl)
      ensures this.sizes[..] == sizes
      ensures this.strides[..] == ContiguousStrides(sizes)
      ensures impl.data == data && impl.dtype == dtype && impl.dim == |sizes|
    {
      var sizesCopy := new int[|sizes|](i requires 0 <= i < |sizes| => sizes[i]);
      var stridesBuf := new int[|sizes|];
      FillContiguousStrides(sizesCopy, stridesBuf);
      this.sizes := sizesCopy;
      this.strides := stridesBuf;
      impl := new TensorImpl(dtype, |sizes|, sizesCopy, data, None, stridesBuf, DynamicBound);
    }

    /** A handle on the TensorImpl; it shares this object's buffers rather than copying them. */
    method GetAliasingTensor() returns (t: TensorImpl)
      requires Valid()
      ensures t == impl
      ensures t.sizes == sizes && t.strides == strides
    {
      t := impl;
    }

    /** Resizes through the aliasing tensor and stops the program (halted) if the
        runtime refuses: it never returns normally with the old sizes after a failure.
        The strides afterwards are whatever the runtime derives (`strideAt`). */
    method Resize(newSizes: seq<int>, admits: (seq<int>, seq<int>) -> Error,
                  strideAt: (seq<int>, seq<int>, int) -> int)
      returns (halted: bool)
      requires Valid()
      modifies sizes, strides
      ensures Valid()
      ensures halted <==> ResizeTensorError(old(sizes[..]), newSizes, admits) != Ok
      ensures !halted ==> sizes[..] == newSizes
      ensures !halted ==> forall i :: 0 <= i < |newSizes| ==>
                strides[i] == strideAt(old(strides[..]), newSizes, i)
      ensures halted ==> sizes[..] == old(sizes[..]) && strides[..] == old(strides[..])
    {
      var t := GetAliasingTensor();
      var err := ResizeTensor(t, newSizes, admits, strideAt);
      halted := err != Ok;
    }
  }
}
