/** The Cadence Fusion G3 `mul.out` and `mul.Scalar_out` kernels: their argument
    checks, the marshalling of shapes into fixed arrays, the broadcast decision and
    the choice of the library routine that does the multiplication. */
module CadenceMul {
  import opened TensorTypes

  /** Capacity of the fixed shape arrays handed to the broadcasting routines. */
  const TensorDimensionLimit: nat := 5

  /** A read-only input tensor: dtype, sizes, dim order and elements in memory order. */
  datatype TensorValue = TensorValue(dtype: ScalarType, sizes: seq<int>,
                                     dimOrder: seq<int>, data: seq<int>)

  /** A tensor holds exactly one element per position of its shape. */
  predicate WellFormed(t: TensorValue)
  {
    |t.data| == Product(t.sizes)
  }

  /** A scalar operand as the runtime carries it. */
  datatype Scalar = BoolScalar(b: bool) | IntScalar(i: int) | DoubleScalar(d: real)

  /** The output tensor: the kernels resize it and write its elements in place. */
  class Tensor {
    const dtype: ScalarType
    const dimOrder: seq<int>
    var sizes: seq<int>
    var data: seq<int>

    constructor (dtype: ScalarType, dimOrder: seq<int>, sizes: seq<int>, data: seq<int>)
      ensures this.dtype == dtype && this.dimOrder == dimOrder
      ensures this.sizes == sizes && this.data == data
    {
      this.dtype := dtype;
      this.dimOrder := dimOrder;
      this.sizes := sizes;
      this.data := data;
    }
  }

  /** The per-call context; a failed check records its error here. */
  class KernelRuntimeContext {
    var failureState: Error

    constructor ()
      ensures failureState == Ok
    {
      failureState := Ok;
    }

    method Fail(error: Error)
      modifies this
      ensures failureState == error
    {
      failureState := error;
    }
  }

  /** The routines of the vector library (xa_nn_elm_mul_*); their arithmetic is
      not part of this model, only which one runs and on what. The broadcasting
      ones receive the whole fixed shape arrays and max_dim. */
  datatype NnLib = NnLib(
    // out_shape, inp1, inp1_shape, inp2, inp2_shape, max_dim
    mulBroadcast5D32: (seq<int>, seq<int>, seq<int>, seq<int>, seq<int>, int) -> seq<int>,
    mul32: (seq<int>, seq<int>, int) -> seq<int>,
    mulBroadcast5DF32: (seq<int>, seq<int>, seq<int>, seq<int>, seq<int>, int) -> seq<int>,
    mulF32: (seq<int>, seq<int>, int) -> seq<int>,
    mulScalar32: (seq<int>, int, int) -> seq<int>,
    mulScalarF32: (seq<int>, Scalar, int) -> seq<int>)

  /** The runtime services the kernels call and whose definitions are not part of
      this model. */
  datatype Runtime = Runtime(
    promoteTypes: (ScalarType, ScalarType) -> ScalarType,
    promoteTypeWithScalar: (ScalarType, Scalar) -> ScalarType,
    canCast: (ScalarType, ScalarType) -> bool,
    computeType: ScalarType -> ScalarType,
    // tensors_have_same_dim_order, on the dim orders of the tensors given
    sameDimOrder: seq<seq<int>> -> bool,
    // resize_to_broadcast_target_size(a, b, out): the new sizes of out, None on error
    resizeToBroadcastTarget: (seq<int>, seq<int>, seq<int>) -> Option<seq<int>>,
    // the dynamism bound consulted by resize_tensor
    resizeAdmits: (seq<int>, seq<int>) -> Error,
    extractInt: Scalar -> int,
    scalarTo: (ScalarType, Scalar) -> int,
    nnlib: NnLib,
    // the portable elementwise helpers where they broadcast or compute in floating point
    elementwiseFallback: (ScalarType, TensorValue, TensorValue, seq<int>) -> seq<int>,
    scalarFallback: (ScalarType, TensorValue, Scalar) -> seq<int>)

  // ---------------------------------------------------------------------------
  // Decisions
  // ---------------------------------------------------------------------------

  /** Compute dtypes the real-or-bool dtype switch handles. */
  predicate IsRealOrBool(t: ScalarType)
  {
    t in {Byte, Char, Short, Int, Long, Float, Double, Bool}
  }

  /** The integer-valued ones among them, whose product the model computes as an
      unbounded integer (the narrowing store to the compute dtype is not modelled). */
  predicate IsIntegral(t: ScalarType)
  {
    t in {Byte, Char, Short, Int, Long, Bool}
  }

  /** out's shape differs from a's or from b's. */
  predicate IsBroadcast(outSizes: seq<int>, aSizes: seq<int>, bSizes: seq<int>)
  {
    outSizes != aSizes || outSizes != bSizes
  }

  /** Without broadcasting, a, b and the resized out have one shape, so the element
      count `out.numel()` handed to the non-broadcasting routines is the length of
      both inputs. */
  lemma NoBroadcastElementCounts(a: TensorValue, b: TensorValue, target: seq<int>)
    requires WellFormed(a) && WellFormed(b)
    requires !IsBroadcast(target, a.sizes, b.sizes)
    ensures |a.data| == |b.data| == Product(target)
  {
  }

  function MaxDim(aDim: int, bDim: int): (r: int)
    ensures r >= aDim && r >= bDim
    ensures r == aDim || r == bDim
  {
    if aDim > bDim then aDim else bDim
  }

  /** The routines `mul.out` can run. */
  datatype Kernel =
    | Mul32Broadcast5D   // xa_nn_elm_mul_broadcast_5D_32x32_32
    | Mul32              // xa_nn_elm_mul_32x32_32
    | MulF32Broadcast5D  // xa_nn_elm_mul_broadcast_5D_f32xf32_f32
    | MulF32             // xa_nn_elm_mul_f32xf32_f32
    | Elementwise        // apply_bitensor_elementwise_fn
  {
    predicate IsInt32() { this == Mul32Broadcast5D || this == Mul32 }
    predicate IsF32() { this == MulF32Broadcast5D || this == MulF32 }
    predicate Broadcasts() { this == Mul32Broadcast5D || this == MulF32Broadcast5D }
  }

  /** The routine `mul.out` picks for a compute dtype and a broadcast decision. */
  function SelectKernel(computeType: ScalarType, broadcast: bool): (k: Kernel)
    ensures k.IsInt32() <==> computeType == Int
    ensures k.IsF32() <==> computeType == Float
    ensures k == Elementwise <==> computeType != Int && computeType != Float
    ensures k.Broadcasts() <==> broadcast && (computeType == Int || computeType == Float)
  {
    if computeType == Int then (if broadcast then Mul32Broadcast5D else Mul32)
    else if computeType == Float then (if broadcast then MulF32Broadcast5D else MulF32)
    else Elementwise
  }

  /** The routines `mul.Scalar_out` can run. */
  datatype ScalarKernel =
    | MulScalar32        // xa_nn_elm_mul_scalar_32x32_32
    | MulScalarF32       // xa_nn_elm_mul_scalar_f32xf32_f32
    | ScalarElementwise  // apply_unitensor_elementwise_fn

  function SelectScalarKernel(computeType: ScalarType): (k: ScalarKernel)
    ensures k == MulScalar32 <==> computeType == Int
    ensures k == MulScalarF32 <==> computeType == Float
    ensures k == ScalarElementwise <==> computeType != Int && computeType != Float
  {
    if computeType == Int then MulScalar32
    else if computeType == Float then MulScalarF32
    else ScalarElementwise
  }

  // ---------------------------------------------------------------------------
  // Elementwise products
  // ---------------------------------------------------------------------------

  /** The generic path's element rule `val_a * val_b`, applied position by position. */
  function MulElementwise(xs: seq<int>, ys: seq<int>): (r: seq<int>)
    requires |xs| == |ys|
    ensures |r| == |xs|
    ensures forall i :: 0 <= i < |xs| ==> r[i] == xs[i] * ys[i]
  {
    if xs == [] then [] else [xs[0] * ys[0]] + MulElementwise(xs[1..], ys[1..])
  }

  /** The scalar path's element rule `val_a * val_b` with one fixed `val_b`. */
  function ScaleElementwise(xs: seq<int>, v: int): (r: seq<int>)
    ensures |r| == |xs|
    ensures forall i :: 0 <= i < |xs| ==> r[i] == xs[i] * v
  {
    if xs == [] then [] else [xs[0] * v] + ScaleElementwise(xs[1..], v)
  }

  // ---------------------------------------------------------------------------
  // What a call does
  // ---------------------------------------------------------------------------

  /** The argument checks, in the order the kernels run them. */
  datatype Check = DtypeCheck | DimOrderCheck | ResizeCheck

  /** How a call ends: a check failed, a routine ran, or the compute dtype is one
      the dtype switch of the generic path does not handle. */
  datatype Run<K> = Rejected(check: Check) | Launched(kernel: K) | Unhandled

  /** The course of `mul.out` for the given inputs and output metadata. */
  function MulOutRun(rt: Runtime, a: TensorValue, b: TensorValue,
                     outDtype: ScalarType, outDimOrder: seq<int>, outSizes: seq<int>): Run<Kernel>
  {
    var common := rt.promoteTypes(a.dtype, b.dtype);
    if !rt.canCast(common, outDtype) then Rejected(DtypeCheck)
    else if !rt.sameDimOrder([a.dimOrder, b.dimOrder, outDimOrder]) then Rejected(DimOrderCheck)
    else match rt.resizeToBroadcastTarget(a.sizes, b.sizes, outSizes)
      case None => Rejected(ResizeCheck)
      case Some(target) =>
        var computeType := rt.computeType(common);
        var kernel := SelectKernel(computeType, IsBroadcast(target, a.sizes, b.sizes));
        if kernel == Elementwise && !IsRealOrBool(computeType) then Unhandled
        else Launched(kernel)
  }

  /** The contents of the three fixed shape arrays when the routine is called. */
  datatype ShapeArrays = ShapeArrays(inp1: seq<int>, inp2: seq<int>, out: seq<int>)

  /** A fixed shape array after the copy loop: its leading slots hold the sizes; the
      slots at or above the rank hold whatever the array held before. */
  predicate Marshalled(shape: seq<int>, size: seq<int>)
  {
    |shape| == TensorDimensionLimit && |size| <= |shape| && shape[..|size|] == size
  }

  /** The elements `mul.out` writes when `kernel` runs on out resized to `target`,
      with the shape arrays holding `shapes`. */
  function MulOutData(rt: Runtime, kernel: Kernel, computeType: ScalarType,
                      a: TensorValue, b: TensorValue, target: seq<int>,
                      shapes: ShapeArrays): seq<int>
    requires WellFormed(a) && WellFormed(b)
  {
    var maxDim := MaxDim(|a.sizes|, |b.sizes|);
    match kernel
    case Mul32Broadcast5D =>
      rt.nnlib.mulBroadcast5D32(shapes.out, a.data, shapes.inp1, b.data, shapes.inp2, maxDim)
    case Mul32 => rt.nnlib.mul32(a.data, b.data, Product(target))
    case MulF32Broadcast5D =>
      rt.nnlib.mulBroadcast5DF32(shapes.out, a.data, shapes.inp1, b.data, shapes.inp2, maxDim)
    case MulF32 => rt.nnlib.mulF32(a.data, b.data, Product(target))
    case Elementwise =>
      if IsIntegral(computeType) && !IsBroadcast(target, a.sizes, b.sizes)
      then MulElementwise(a.data, b.data)
      else rt.elementwiseFallback(computeType, a, b, target)
  }

  /** rt1 and rt2 give the same answer to the dtype check of `mul.out`. */
  predicate SameCastCheck(rt1: Runtime, rt2: Runtime, a: TensorValue, b: TensorValue,
                          outDtype: ScalarType)
  {
    rt1.promoteTypes(a.dtype, b.dtype) == rt2.promoteTypes(a.dtype, b.dtype) &&
    rt1.canCast(rt1.promoteTypes(a.dtype, b.dtype), outDtype)
      == rt2.canCast(rt1.promoteTypes(a.dtype, b.dtype), outDtype)
  }

  /** The checks of `mul.out` run in order and a failing one skips the rest: once a
      check fails, the outcome is that check's rejection and does not depend on what
      any later check, the resize or the dispatch would have answered (rt2 agrees
      with rt1 only up to the failing check). */
  lemma MulOutChecksInOrder(rt1: Runtime, rt2: Runtime, a: TensorValue, b: TensorValue,
                            outDtype: ScalarType, outDimOrder: seq<int>, outSizes: seq<int>)
    requires SameCastCheck(rt1, rt2, a, b, outDtype)
    ensures !rt1.canCast(rt1.promoteTypes(a.dtype, b.dtype), outDtype) ==>
              MulOutRun(rt1, a, b, outDtype, outDimOrder, outSizes) == Rejected(DtypeCheck) &&
              MulOutRun(rt2, a, b, outDtype, outDimOrder, outSizes) == Rejected(DtypeCheck)
    ensures rt1.canCast(rt1.promoteTypes(a.dtype, b.dtype), outDtype) &&
            !rt1.sameDimOrder([a.dimOrder, b.dimOrder, outDimOrder]) &&
            !rt2.sameDimOrder([a.dimOrder, b.dimOrder, outDimOrder]) ==>
              MulOutRun(rt1, a, b, outDtype, outDimOrder, outSizes) == Rejected(DimOrderCheck) &&
              MulOutRun(rt2, a, b, outDtype, outDimOrder, outSizes) == Rejected(DimOrderCheck)
    ensures rt1.canCast(rt1.promoteTypes(a.dtype, b.dtype), outDtype) &&
            rt1.sameDimOrder([a.dimOrder, b.dimOrder, outDimOrder]) &&
            rt2.sameDimOrder([a.dimOrder, b.dimOrder, outDimOrder]) &&
            rt1.resizeToBroadcastTarget(a.sizes, b.sizes, outSizes).None? &&
            rt2.resizeToBroadcastTarget(a.sizes, b.sizes, outSizes).None? ==>
              MulOutRun(rt1, a, b, outDtype, outDimOrder, outSizes) == Rejected(ResizeCheck) &&
              MulOutRun(rt2, a, b, outDtype, outDimOrder, outSizes) == Rejected(ResizeCheck)
    ensures MulOutRun(rt1, a, b, outDtype, outDimOrder, outSizes).Rejected? <==>
              !rt1.canCast(rt1.promoteTypes(a.dtype, b.dtype), outDtype) ||
              !rt1.sameDimOrder([a.dimOrder, b.dimOrder, outDimOrder]) ||
              rt1.resizeToBroadcastTarget(a.sizes, b.sizes, outSizes).None?
  {
  }

  /** When every check of `mul.out` passes, the routine is the one SelectKernel picks
      for the compute dtype and the broadcast decision on the resized out. */
  lemma MulOutDispatch(rt: Runtime, a: TensorValue, b: TensorValue,
                       outDtype: ScalarType, outDimOrder: seq<int>, outSizes: seq<int>)
    requires MulOutRun(rt, a, b, outDtype, outDimOrder, outSizes).Launched?
    ensures var target := rt.resizeToBroadcastTarget(a.sizes, b.sizes, outSizes);
            var computeType := rt.computeType(rt.promoteTypes(a.dtype, b.dtype));
            var k := MulOutRun(rt, a, b, outDtype, outDimOrder, outSizes).kernel;
            target.Some? &&
            (k.IsInt32() <==> computeType == Int) &&
            (k.IsF32() <==> computeType == Float) &&
            (k == Elementwise <==> computeType != Int && computeType != Float) &&
            (k.Broadcasts() <==> IsBroadcast(target.value, a.sizes, b.sizes) && !(k == Elementwise))
  {
  }

  /** The course of `mul.Scalar_out`; its dtype check demands equality, not castability. */
  function MulScalarOutRun(rt: Runtime, a: TensorValue, b: Scalar, outDtype: ScalarType,
                           outDimOrder: seq<int>, outSizes: seq<int>): Run<ScalarKernel>
  {
    var common := rt.promoteTypeWithScalar(a.dtype, b);
    if common != outDtype then Rejected(DtypeCheck)
    else if !rt.sameDimOrder([a.dimOrder, outDimOrder]) then Rejected(DimOrderCheck)
    else if ResizeTensorError(outSizes, a.sizes, rt.resizeAdmits) != Ok then Rejected(ResizeCheck)
    else
      var computeType := rt.computeType(common);
      var kernel := SelectScalarKernel(computeType);
      if kernel == ScalarElementwise && !IsRealOrBool(computeType) then Unhandled
      else Launched(kernel)
  }

  /** The checks of `mul.Scalar_out` run in order and a failing one skips the rest;
      its dtype check demands that the promoted dtype equal out's dtype, where
      `mul.out` only asks that it can be cast to it. */
  lemma MulScalarOutChecksInOrder(rt: Runtime, a: TensorValue, b: Scalar, outDtype: ScalarType,
                                  outDimOrder: seq<int>, outSizes: seq<int>)
    ensures MulScalarOutRun(rt, a, b, outDtype, outDimOrder, outSizes) == Rejected(DtypeCheck) <==>
              rt.promoteTypeWithScalar(a.dtype, b) != outDtype
    ensures MulScalarOutRun(rt, a, b, outDtype, outDimOrder, outSizes) == Rejected(DimOrderCheck) <==>
              rt.promoteTypeWithScalar(a.dtype, b) == outDtype &&
              !rt.sameDimOrder([a.dimOrder, outDimOrder])
    ensures MulScalarOutRun(rt, a, b, outDtype, outDimOrder, outSizes) == Rejected(ResizeCheck) <==>
              rt.promoteTypeWithScalar(a.dtype, b) == outDtype &&
              rt.sameDimOrder([a.dimOrder, outDimOrder]) &&
              ResizeTensorError(outSizes, a.sizes, rt.resizeAdmits) != Ok
    ensures |a.sizes| != |outSizes| ==>
              MulScalarOutRun(rt, a, b, outDtype, outDimOrder, outSizes).Rejected?
  {
  }

  /** The elements `mul.Scalar_out` writes when `kernel` runs. */
  function MulScalarOutData(rt: Runtime, kernel: ScalarKernel, computeType: ScalarType,
                            a: TensorValue, b: Scalar): seq<int>
  {
    match kernel
    case MulScalar32 => rt.nnlib.mulScalar32(a.data, rt.extractInt(b), Product(a.sizes))
    case MulScalarF32 => rt.nnlib.mulScalarF32(a.data, b, Product(a.sizes))
    case ScalarElementwise =>
      if IsIntegral(computeType) then ScaleElementwise(a.data, rt.scalarTo(computeType, b))
      else rt.scalarFallback(computeType, a, b)
  }

  // ---------------------------------------------------------------------------
  // The kernels
  // ---------------------------------------------------------------------------

  /** The rank of out after a successful broadcast resize fits the shape arrays. */
  predicate TargetFits(target: Option<seq<int>>)
  {
    target.Some? ==> |target.value| <= TensorDimensionLimit
  }

  /** Copies a tensor's sizes into the leading slots of a fixed shape array. */
  method CopyShape(shape: array<int>, size: seq<int>)
    requires |size| <= shape.Length
    modifies shape
    ensures shape[..|size|] == size
    ensures forall i :: |size| <= i < shape.Length ==> shape[i] == old(shape[i])
  {
    for i := 0 to |size|
      invariant forall k :: 0 <= k < i ==> shape[k] == size[k]
      invariant forall k :: i <= k < shape.Length ==> shape[k] == old(shape[k])
    {
      shape[i] := size[i];
    }
  }

  /** As written, the copy loops leave the shape of the lower-rank input partly
      undetermined below max_dim: with a of rank 1 and b of rank 2, two arrays that
      both satisfy the copy's postcondition for a differ in slot 1 < max_dim. */
  lemma UnwrittenSlotBelowMaxDim()
    ensures var aSizes := [3];
            var bSizes := [2, 3];
            var s1 := [3, 0, 0, 0, 0];
            var s2 := [3, 1, 0, 0, 0];
            Marshalled(s1, aSizes) && Marshalled(s2, aSizes) &&
            1 < MaxDim(|aSizes|, |bSizes|) && s1[1] != s2[1]
  {
    assert [3, 0, 0, 0, 0][..1] == [3];
    assert [3, 1, 0, 0, 0][..1] == [3];
  }

  /** As written, the copy aligns shapes on their leading dimension: for a = [3] and
      b = [2, 3], which broadcast on their trailing dimension, slot 0 pairs a's 3
      with b's 2. */
  lemma LeftAlignedSlotsMismatch(inp1: seq<int>, inp2: seq<int>)
    requires Marshalled(inp1, [3]) && Marshalled(inp2, [2, 3])
    ensures inp1[0] == 3 && inp2[0] == 2
  {
    assert inp1[..1][0] == 3;
    assert inp2[..2][0] == 2;
  }

  /** The evidently intended marshalling: every slot defined, the sizes right-aligned
      with leading slots of 1, so that dimensions pair up from the trailing end. */
  function AlignedShape(size: seq<int>): (r: seq<int>)
    requires |size| <= TensorDimensionLimit
    ensures |r| == TensorDimensionLimit
    ensures forall i :: 0 <= i < TensorDimensionLimit - |size| ==> r[i] == 1
    ensures forall i :: 0 <= i < |size| ==> r[TensorDimensionLimit - |size| + i] == size[i]
  {
    seq(TensorDimensionLimit - |size|, _ => 1) + size
  }

  /** Corrected copy: fill every slot with 1, then write the sizes right-aligned. */
  method CopyShapeAligned(shape: array<int>, size: seq<int>)
    requires shape.Length == TensorDimensionLimit && |size| <= TensorDimensionLimit
    modifies shape
    ensures shape[..] == AlignedShape(size)
  {
    for i := 0 to shape.Length
      invariant forall k :: 0 <= k < i ==> shape[k] == 1
    {
      shape[i] := 1;
    }
    var offset := shape.Length - |size|;
    for i := 0 to |size|
      invariant forall k :: 0 <= k < offset ==> shape[k] == 1
      invariant forall k :: 0 <= k < i ==> shape[offset + k] == size[k]
    {
      shape[offset + i] := size[i];
    }
    assert shape[..] == AlignedShape(size);
  }

  /** With the corrected marshalling the j-th dimension from the end of both inputs
      lands in the same slot, and the arrays are determined by the sizes alone. */
  lemma {:induction false} AlignedShapesPairTrailingDims(aSizes: seq<int>, bSizes: seq<int>, j: int)
    requires |aSizes| <= TensorDimensionLimit && |bSizes| <= TensorDimensionLimit
    requires 0 <= j < |aSizes| && j < |bSizes|
    ensures AlignedShape(aSizes)[TensorDimensionLimit - 1 - j] == aSizes[|aSizes| - 1 - j]
    ensures AlignedShape(bSizes)[TensorDimensionLimit - 1 - j] == bSizes[|bSizes| - 1 - j]
  {
    var ia := |aSizes| - 1 - j;
    var ib := |bSizes| - 1 - j;
    assert AlignedShape(aSizes)[TensorDimensionLimit - |aSizes| + ia] == aSizes[ia];
    assert AlignedShape(bSizes)[TensorDimensionLimit - |bSizes| + ib] == bSizes[ib];
  }

  /** The arguments a broadcasting routine reads besides the data: the three shape
      arrays and the rank that says how many of their slots hold dimensions. */
  datatype BroadcastArgs = BroadcastArgs(shapes: ShapeArrays, rank: int)

  /** The evidently intended arguments: each shape right-aligned into all five slots,
      and the rank kTensorDimensionLimit in place of max_dim, so that the routine reads
      every slot the alignment fills. */
  function AlignedBroadcastArgs(outSizes: seq<int>, aSizes: seq<int>, bSizes: seq<int>): (r: BroadcastArgs)
    requires |outSizes| <= TensorDimensionLimit
    requires |aSizes| <= TensorDimensionLimit && |bSizes| <= TensorDimensionLimit
    ensures r.rank == TensorDimensionLimit
    ensures |r.shapes.inp1| == |r.shapes.inp2| == |r.shapes.out| == r.rank
  {
    BroadcastArgs(ShapeArrays(AlignedShape(aSizes), AlignedShape(bSizes), AlignedShape(outSizes)),
                  TensorDimensionLimit)
  }

  /** The j-th dimension from the end of a tensor, or 1 where the tensor has fewer
      dimensions: the size trailing-dimension broadcasting gives it there. */
  function TrailingDim(sizes: seq<int>, j: nat): int
  {
    if j < |sizes| then sizes[|sizes| - 1 - j] else 1
  }

  /** Under the corrected arguments, every slot the routine reads lies inside the rank
      and holds, for each of out, a and b, its j-th dimension from the end (or 1), so
      the three shapes pair up from the trailing end and are determined by the sizes. */
  lemma {:induction false} AlignedArgsPairTrailingDims(outSizes: seq<int>, aSizes: seq<int>,
                                                       bSizes: seq<int>, j: nat)
    requires |outSizes| <= TensorDimensionLimit
    requires |aSizes| <= TensorDimensionLimit && |bSizes| <= TensorDimensionLimit
    requires j < TensorDimensionLimit
    ensures var r := AlignedBroadcastArgs(outSizes, aSizes, bSizes);
            var slot := r.rank - 1 - j;
            0 <= slot < r.rank &&
            r.shapes.inp1[slot] == TrailingDim(aSizes, j) &&
            r.shapes.inp2[slot] == TrailingDim(bSizes, j) &&
            r.shapes.out[slot] == TrailingDim(outSizes, j)
  {
    AlignedSlot(aSizes, j);
    AlignedSlot(bSizes, j);
    AlignedSlot(outSizes, j);
  }

  /** One aligned shape: slot 4 - j holds the j-th dimension from the end, or 1. */
  lemma AlignedSlot(sizes: seq<int>, j: nat)
    requires |sizes| <= TensorDimensionLimit && j < TensorDimensionLimit
    ensures AlignedShape(sizes)[TensorDimensionLimit - 1 - j] == TrailingDim(sizes, j)
  {
    if j < |sizes| {
      var i := |sizes| - 1 - j;
      assert AlignedShape(sizes)[TensorDimensionLimit - |sizes| + i] == sizes[i];
    }
  }

  /** The finding's input under the corrected arguments: a = [3] and b = [2, 3] give
      out = [2, 3] with every slot defined and a's 3 beside b's 3. */
  lemma AlignedArgsExample()
    ensures AlignedBroadcastArgs([2, 3], [3], [2, 3]) ==
            BroadcastArgs(ShapeArrays([1, 1, 1, 1, 3], [1, 1, 1, 2, 3], [1, 1, 1, 2, 3]), 5)
  {
    assert AlignedShape([3]) == [1, 1, 1, 1] + [3];
    assert AlignedShape([2, 3]) == [1, 1, 1] + [2, 3];
  }

  /** `mul.out`: out := a * b, with broadcasting. */
  method MulOut(ctx: KernelRuntimeContext, rt: Runtime, a: TensorValue, b: TensorValue, out: Tensor)
    returns (ghost run: Run<Kernel>, ghost shapes: ShapeArrays)
    requires WellFormed(a) && WellFormed(b)
    requires |a.sizes| <= TensorDimensionLimit && |b.sizes| <= TensorDimensionLimit
    requires TargetFits(rt.resizeToBroadcastTarget(a.sizes, b.sizes, out.sizes))
    modifies ctx, out
    ensures run == MulOutRun(rt, a, b, out.dtype, out.dimOrder, old(out.sizes))
    ensures run.Rejected? ==>
              ctx.failureState == InvalidArgument &&
              out.sizes == old(out.sizes) && out.data == old(out.data)
    ensures !run.Rejected? ==>
              ctx.failureState == old(ctx.failureState) &&
              rt.resizeToBroadcastTarget(a.sizes, b.sizes, old(out.sizes)) == Some(out.sizes)
    ensures !run.Rejected? ==>
              Marshalled(shapes.inp1, a.sizes) && Marshalled(shapes.inp2, b.sizes) &&
              Marshalled(shapes.out, out.sizes)
    ensures run.Launched? ==>
              out.data == MulOutData(rt, run.kernel,
                                     rt.computeType(rt.promoteTypes(a.dtype, b.dtype)),
                                     a, b, out.sizes, shapes)
    ensures run.Unhandled? ==> out.data == old(out.data)
    ensures run == Launched(Mul32) || run == Launched(MulF32) ==>
              |a.data| == |b.data| == Product(out.sizes)
    ensures run == Launched(Elementwise) &&
            IsIntegral(rt.computeType(rt.promoteTypes(a.dtype, b.dtype))) &&
            !IsBroadcast(out.sizes, a.sizes, b.sizes) ==>
              |out.data| == |a.data| &&
              forall i :: 0 <= i < |out.data| ==> out.data[i] == a.data[i] * b.data[i]
  {
    var commonType := rt.promoteTypes(a.dtype, b.dtype);
    shapes := ShapeArrays([], [], []);
    if !rt.canCast(commonType, out.dtype) {
      ctx.Fail(InvalidArgument);
      run := Rejected(DtypeCheck);
      return;
    }
    if !rt.sameDimOrder([a.dimOrder, b.dimOrder, out.dimOrder]) {
      ctx.Fail(InvalidArgument);
      run := Rejected(DimOrderCheck);
      return;
    }
    var target := rt.resizeToBroadcastTarget(a.sizes, b.sizes, out.sizes);
    if target.None? {
      ctx.Fail(InvalidArgument);
      run := Rejected(ResizeCheck);
      return;
    }
    out.sizes := target.value;

    var computeType := rt.computeType(commonType);

    var inp1Shape := new int[TensorDimensionLimit];
    var inp2Shape := new int[TensorDimensionLimit];
    var outShape := new int[TensorDimensionLimit];
    CopyShape(inp1Shape, a.sizes);
    CopyShape(inp2Shape, b.sizes);
    CopyShape(outShape, out.sizes);
    shapes := ShapeArrays(inp1Shape[..], inp2Shape[..], outShape[..]);

    var broadcast := IsBroadcast(out.sizes, a.sizes, b.sizes);
    var maxDim := MaxDim(|a.sizes|, |b.sizes|);

    if computeType == Int {
      if broadcast {
        out.data := rt.nnlib.mulBroadcast5D32(outShape[..], a.data, inp1Shape[..],
                                              b.data, inp2Shape[..], maxDim);
        run := Launched(Mul32Broadcast5D);
      } else {
        NoBroadcastElementCounts(a, b, out.sizes);
        out.data := rt.nnlib.mul32(a.data, b.data, Product(out.sizes));
        run := Launched(Mul32);
      }
    } else if computeType == Float {
      if broadcast {
        out.data := rt.nnlib.mulBroadcast5DF32(outShape[..], a.data, inp1Shape[..],
                                               b.data, inp2Shape[..], maxDim);
        run := Launched(MulF32Broadcast5D);
      } else {
        NoBroadcastElementCounts(a, b, out.sizes);
        out.data := rt.nnlib.mulF32(a.data, b.data, Product(out.sizes));
        run := Launched(MulF32);
      }
    } else if IsRealOrBool(computeType) {
      if IsIntegral(computeType) && !broadcast {
        NoBroadcastElementCounts(a, b, out.sizes);
        out.data := MulElementwise(a.data, b.data);
      } else {
        out.data := rt.elementwiseFallback(computeType, a, b, out.sizes);
      }
      run := Launched(Elementwise);
    } else {
      run := Unhandled;
    }
  }

  /** `mul.Scalar_out`: out := a * b for a scalar b, out taking a's sizes. */
  method MulScalarOut(ctx: KernelRuntimeContext, rt: Runtime, a: TensorValue, b: Scalar, out: Tensor)
    returns (ghost run: Run<ScalarKernel>)
    modifies ctx, out
    ensures run == MulScalarOutRun(rt, a, b, out.dtype, out.dimOrder, old(out.sizes))
    ensures run.Rejected? ==>
              ctx.failureState == InvalidArgument &&
              out.sizes == old(out.sizes) && out.data == old(out.data)
    ensures !run.Rejected? ==> ctx.failureState == old(ctx.failureState) && out.sizes == a.sizes
    ensures run.Launched? ==>
              out.data == MulScalarOutData(rt, run.kernel,
                                           rt.computeType(rt.promoteTypeWithScalar(a.dtype, b)), a, b)
    ensures run.Unhandled? ==> out.data == old(out.data)
    ensures run == Launched(ScalarElementwise) &&
            IsIntegral(rt.computeType(rt.promoteTypeWithScalar(a.dtype, b))) ==>
              |out.data| == |a.data| &&
              forall i :: 0 <= i < |out.data| ==>
                out.data[i] == a.data[i] * rt.scalarTo(rt.computeType(rt.promoteTypeWithScalar(a.dtype, b)), b)
  {
    var commonType := rt.promoteTypeWithScalar(a.dtype, b);
    if commonType != out.dtype {
      ctx.Fail(InvalidArgument);
      run := Rejected(DtypeCheck);
      return;
    }
    if !rt.sameDimOrder([a.dimOrder, out.dimOrder]) {
      ctx.Fail(InvalidArgument);
      run := Rejected(DimOrderCheck);
      return;
    }
    if ResizeTensorError(out.sizes, a.sizes, rt.resizeAdmits) != Ok {
      ctx.Fail(InvalidArgument);
      run := Rejected(ResizeCheck);
      return;
    }
    out.sizes := a.sizes;

    var computeType := rt.computeType(commonType);

    if computeType == Int {
      var inp2Val := rt.extractInt(b);
      out.data := rt.nnlib.mulScalar32(a.data, inp2Val, Product(out.sizes));
      run := Launched(MulScalar32);
    } else if computeType == Float {
      out.data := rt.nnlib.mulScalarF32(a.data, b, Product(out.sizes));
      run := Launched(MulScalarF32);
    } else if IsRealOrBool(computeType) {
      if IsIntegral(computeType) {
        var valB := rt.scalarTo(computeType, b);
        out.data := ScaleElementwise(a.data, valB);
      } else {
        out.data := rt.scalarFallback(computeType, a, b);
      }
      run := Launched(ScalarElementwise);
    } else {
      run := Unhandled;
    }
  }
}
