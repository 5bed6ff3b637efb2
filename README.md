# ExecuTorch tensor bookkeeping: ManagedTensor strides and the Cadence G3 `mul` kernels

This project models two small pieces of the ExecuTorch runtime in Dafny and proves
properties of them.

**ManagedTensor** (`extension/runner_util/managed_tensor.h`, module `ManagedTensors`,
file `managed_tensor.dfy`) is a wrapper that owns a tensor's metadata. It does not own
the element memory. The constructor copies the size vector. It fills a stride vector of
the same length back to front: the innermost stride is 1, and each earlier stride is
the next stride times the next size. Then it creates a `TensorImpl` that points at both
vectors and at the caller's data. `resize` resizes through that aliasing `TensorImpl`
and stops the program if the runtime refuses.

In the model, `ManagedTensor` is a class. Its `sizes` and `strides` fields are arrays,
and its `TensorImpl` holds the *same* array objects, so the aliasing is kept. The
stride loop is proved against the closed form `ContiguousStrides` (stride i is the
product of the sizes after i). The closed form is proved equivalent to the loop's
recurrence. It is also proved to be a contiguous layout: distinct in-bounds indices
get distinct offsets, all in `[0, Product(sizes))`. After a resize, the strides are
whatever the runtime's `resize_tensor` writes, given as the parameter `strideAt`.

**mul.out / mul.Scalar_out** (`backends/cadence/fusion_g3/operators/op_mul.cpp`, module
`CadenceMul`, file `op_mul.dfy`). Each kernel runs three argument checks in order:
dtype, dim order, then resize. A failed check records `InvalidArgument` in the
context and returns `out` untouched. `mul.out` then copies the three shapes into
5-slot arrays, decides whether it broadcasts, computes `max_dim`, and picks one of five
routines by compute dtype and broadcast flag. `mul.Scalar_out` resizes `out` to `a`'s
sizes and picks one of three routines by compute dtype. `out` and the context are
classes whose methods change them in place. The inputs `a` and `b` are values. The
runtime services these kernels call are fields of a `Runtime` datatype: dtype
promotion, `canCast`, `get_compute_type`, the dim-order check, the broadcast resize,
the `xa_nn_elm_mul_*` routines and the portable fallbacks. The model knows nothing
about these services beyond their signatures. `MulOutRun` and `MulScalarOutRun`
describe how a call ends: which check rejected it, which routine ran, or that the
dtype switch does not handle the compute dtype. Each method's `ensures` ties the new
state of `out` and the context to these functions.

`tensor_types.dfy` (module `TensorTypes`) holds the shared pieces: dtypes, error
codes, `Product` (the element count of a shape) and `ResizeTensorError`, the
admission rule of `resize_tensor`.

## Model

| member | source | states |
|---|---|---|
| `ManagedTensors.ManagedTensor.constructor` | extension/runner_util/managed_tensor.h:43-70 | The stored sizes equal the argument. The strides have the same length and are the contiguous strides. The TensorImpl holds the given data pointer and dtype, and its size and stride buffers are this object's own fresh arrays. |
| `ManagedTensors.FillContiguousStrides` | extension/runner_util/managed_tensor.h:51-58 | The back-to-front loop leaves exactly `ContiguousStrides(sizes)` in the stride buffer. For rank 0 the buffer is empty and the loop body never runs. The loop invariant is the closed form over the part already filled. |
| `ManagedTensors.RowMajorIffContiguous` | extension/runner_util/managed_tensor.h:52-57 | A stride vector satisfies the loop's recurrence exactly when it is the closed form (both directions). The recurrence is: same length as the sizes, last stride 1 when non-empty, and `strides[i] == strides[i+1] * sizes[i+1]`. The closed form is: stride i is the product of `sizes[i+1..]`. |
| `ManagedTensors.RowMajorSuffix` | extension/runner_util/managed_tensor.h:54-57 | Back-to-front induction: any vector that satisfies the recurrence has the closed form at every dimension. |
| `ManagedTensors.ContiguousOffsetInRange` | extension/runner_util/managed_tensor.h:51-58 | Under the computed strides, every in-bounds index tuple has an offset in `[0, Product(sizes))`. |
| `ManagedTensors.ContiguousOffsetInjective` | extension/runner_util/managed_tensor.h:51-58 | Under the computed strides, two in-bounds index tuples with the same offset are equal. With the range lemma, the strides map the index space one-to-one into the element buffer: a contiguous row-major layout. |
| `ManagedTensors.ManagedTensor.GetAliasingTensor` | extension/runner_util/managed_tensor.h:82-88 | The returned tensor is this object's own TensorImpl, so it shares the size and stride buffers and the data pointer. Nothing is copied or created. |
| `ManagedTensors.ResizeTensor` | extension/runner_util/managed_tensor.h:73-75 | resize_tensor on the aliasing tensor. On Ok, the sizes become the requested ones and each stride is the runtime's `strideAt` value. On any other error, nothing changes. A change of rank is refused. |
| `ManagedTensors.ManagedTensor.Resize` | extension/runner_util/managed_tensor.h:72-77 | Either the sizes become `new_sizes` or the program halts. It halts exactly when resize_tensor reports an error, so it never returns normally after a failure. On success the strides are the runtime's; on a halt nothing changed. The buffers stay shared with the TensorImpl and keep their length. |
| `CadenceMul.IsRealOrBool` | backends/cadence/fusion_g3/operators/op_mul.cpp:126 | Definition: the compute dtypes the `ET_SWITCH_REALB_TYPES` switch handles, namely Byte, Char, Short, Int, Long, Float, Double and Bool. |
| `CadenceMul.MulOutRun` | backends/cadence/fusion_g3/operators/op_mul.cpp:33-141 | Definition of how `mul.out` ends. It is rejected by the first failing check, in the order castability of the promoted dtype to out's dtype, same dim order, broadcast resize. Otherwise it launches the routine `SelectKernel` picks for the compute dtype and the broadcast flag, or ends unhandled when the generic path's switch does not cover the compute dtype. |
| `CadenceMul.MulOutData` | backends/cadence/fusion_g3/operators/op_mul.cpp:89-141 | Definition of what `mul.out` writes. The broadcasting routines get the whole out, inp1 and inp2 shape arrays and `max_dim`. The non-broadcasting ones get `out.numel()`. The generic path gives `a[i] * b[i]` for integral compute dtypes without broadcasting, and the runtime's fallback otherwise. |
| `CadenceMul.MulOutChecksInOrder` | backends/cadence/fusion_g3/operators/op_mul.cpp:33-52 | The checks run in the order dtype, dim order, resize. If castability fails, the outcome is the dtype rejection whatever the later checks would say, and likewise for the dim-order and resize checks. A call is rejected exactly when one of the three checks fails. |
| `CadenceMul.CopyShape` | backends/cadence/fusion_g3/operators/op_mul.cpp:67-82 | After the copy loop, the first `rank` slots of the shape array equal the tensor's sizes. No slot at or above the rank is written. |
| `CadenceMul.NoBroadcastElementCounts` | backends/cadence/fusion_g3/operators/op_mul.cpp:84-123 | When `broadcast` (lines 85-87) is false, a, b and out hold the same number of elements, and that number is `out.numel()`, the count handed to the non-broadcasting routines at lines 106 and 123. |
| `CadenceMul.IsBroadcast` | backends/cadence/fusion_g3/operators/op_mul.cpp:85-87 | Definition: `broadcast` holds when out's sizes differ from a's or from b's. |
| `CadenceMul.MaxDim` | backends/cadence/fusion_g3/operators/op_mul.cpp:89 | `max_dim` is the maximum of the two input ranks. |
| `CadenceMul.SelectKernel` | backends/cadence/fusion_g3/operators/op_mul.cpp:91-141 | Compute dtype Int picks a 32-bit routine and Float an f32 routine. Any other dtype takes the generic elementwise path. Within Int and Float, the broadcasting variant is picked exactly when `broadcast` holds. |
| `CadenceMul.MulOutDispatch` | backends/cadence/fusion_g3/operators/op_mul.cpp:54-141 | Once every check has passed, the routine follows the compute dtype of the promoted dtype. Its broadcasting variant is chosen exactly when the resized out's sizes differ from a's or from b's. |
| `CadenceMul.MulElementwise` | backends/cadence/fusion_g3/operators/op_mul.cpp:126-140 | The generic path's element rule: output element i is `a[i] * b[i]`, for every i, with the same length as the inputs. |
| `CadenceMul.MulOut` | backends/cadence/fusion_g3/operators/op_mul.cpp:27-144 | The call ends as `MulOutRun` says. On a rejection the context holds InvalidArgument, and out's sizes and data are untouched. Otherwise out has the broadcast target sizes. Each 5-slot shape array holds its tensor's sizes in its leading slots, and the broadcasting routines receive the whole arrays and `max_dim`. The data is what the chosen routine writes. On the non-broadcasting routines, both inputs hold `out.numel()` elements. On the integral, non-broadcasting generic path, every out element is the product of the input elements. |
| `CadenceMul.UnwrittenSlotBelowMaxDim` | backends/cadence/fusion_g3/operators/op_mul.cpp:67-104 | As written: for a of sizes `[3]` and b of sizes `[2, 3]`, two contents of `inp1_shape` are both consistent with the copy loop, and they differ in slot 1, which lies below `max_dim = 2`. The routine's argument is not determined by the sizes. |
| `CadenceMul.LeftAlignedSlotsMismatch` | backends/cadence/fusion_g3/operators/op_mul.cpp:72-78 | As written: for the same a and b, slot 0 of the two shape arrays holds 3 and 2. The copy aligns shapes on their leading dimension, so a's only dimension is paired with b's leading one instead of its trailing one. |
| `CadenceMul.CopyShapeAligned` | backends/cadence/fusion_g3/operators/op_mul.cpp:72-82 | Corrected copy: the whole array is written. The leading `5 - rank` slots hold 1 and the sizes follow, right-aligned (`AlignedShape`). |
| `CadenceMul.AlignedShapesPairTrailingDims` | backends/cadence/fusion_g3/operators/op_mul.cpp:72-82 | Under the corrected copy, the j-th dimension from the end of a and of b lands in the same slot, as trailing-dimension broadcasting pairs them. |
| `CadenceMul.AlignedBroadcastArgs` | backends/cadence/fusion_g3/operators/op_mul.cpp:89-121 | Corrected arguments of the broadcasting routines: the three right-aligned shapes, and the rank 5 (`kTensorDimensionLimit`) in place of `max_dim`, so that every shape array has exactly as many slots as the routine reads. |
| `CadenceMul.AlignedArgsPairTrailingDims` | backends/cadence/fusion_g3/operators/op_mul.cpp:89-121 | Under the corrected arguments, every slot number j from the end lies inside the rank the routine is given. That slot holds the j-th dimension from the end of out, of a and of b, or 1 where a tensor has fewer dimensions. So the routine pairs dimensions from the trailing end, and every slot it reads is determined by the sizes. |
| `CadenceMul.AlignedArgsExample` | backends/cadence/fusion_g3/operators/op_mul.cpp:67-121 | For the finding's input, a = `[3]`, b = `[2, 3]` and out = `[2, 3]`, the corrected arguments are `[1,1,1,1,3]`, `[1,1,1,2,3]`, `[1,1,1,2,3]` and rank 5. |
| `CadenceMul.MulScalarOutRun` | backends/cadence/fusion_g3/operators/op_mul.cpp:151-206 | Definition of how `mul.Scalar_out` ends. It is rejected by the first failing check, in the order promoted dtype equal to out's dtype, same dim order of a and out, resize of out to a's sizes. Otherwise it launches the routine `SelectScalarKernel` picks, or ends unhandled when the generic path's switch does not cover the compute dtype. |
| `CadenceMul.MulScalarOutData` | backends/cadence/fusion_g3/operators/op_mul.cpp:177-206 | Definition of what `mul.Scalar_out` writes. The 32-bit routine gets the extracted integer scalar, and both vector routines get `out.numel()`, which equals a's element count. The generic path gives `a[i] * val_b` for integral compute dtypes, and the runtime's fallback otherwise. |
| `CadenceMul.MulScalarOutChecksInOrder` | backends/cadence/fusion_g3/operators/op_mul.cpp:151-168 | The dtype check rejects exactly when the promoted dtype differs from out's dtype. This is equality, stricter than `mul.out`'s castability. The dim-order and resize checks reject only after the earlier checks pass. A change of rank is always rejected. |
| `CadenceMul.SelectScalarKernel` | backends/cadence/fusion_g3/operators/op_mul.cpp:177-206 | Int picks the 32-bit scalar routine, Float the f32 one, and any other dtype the generic path. |
| `CadenceMul.ScaleElementwise` | backends/cadence/fusion_g3/operators/op_mul.cpp:193-205 | The scalar generic path's element rule: output element i is `a[i] * val_b`, with the same length as `a`. |
| `CadenceMul.MulScalarOut` | backends/cadence/fusion_g3/operators/op_mul.cpp:146-209 | The call ends as `MulScalarOutRun` says. On a rejection, out is untouched and the context holds InvalidArgument. Otherwise out takes a's sizes. On the integral generic path, every element is `a[i] * val_b`. |

## Left out

- The `USE_ATEN_LIB` branch of ManagedTensor (`torch::from_blob`) is a foreign call and is not modelled.
- ManagedTensors.ResizeTensor, CadenceMul.MulScalarOut and CadenceMul.MulScalarOutChecksInOrder: resize_tensor itself is not part of this model. Its stand-in rule `ResizeTensorError` refuses a change of rank, because the TensorImpl writes into fixed-length buffers. The resize check of `mul.Scalar_out` uses the same rule, so its refusal of a rank change rests on it too. Every other admission rule is the parameter `admits`. On success the stand-in writes the new sizes and the strides the parameter `strideAt` gives. What it does to the buffers on failure is modelled as "nothing".
- ManagedTensors.ManagedTensor.Resize: the model does not promise that the strides stay contiguous after a resize. The stride recomputation belongs to resize_tensor, which is not part of this model, and ManagedTensor passes it no dim order. The object invariant `Valid` therefore states only the aliasing, the buffer lengths and the dynamism.
- ManagedTensors.ManagedTensor.Resize: `ET_CHECK` aborts the process. The model returns `halted = true` instead, and nothing after that point is modelled.
- The element memory behind the data pointer is an opaque `DataBuffer`. The model records that it is stored as given and never copied. It does not model its contents or lifetime.
- Integer widths: sizes, strides and elements are unbounded `int`. 32-bit overflow of stride products and of integer multiplications is not modelled, and the source has no checks for it. On the generic path the product is stored as the compute dtype, which narrows it for Byte, Char and Short (8 and 16 bits). For example, Byte 200 times 2 is stored as 144, where the model gives 400.
- CadenceMul.MulOut: requires the ranks of `a`, `b` and the resized `out` to be at most 5. The source does not check this. A higher rank makes the copy loops write past the end of the 5-slot stack arrays.
- CadenceMul.MulOut: the slots of the shape arrays at or above a tensor's rank are never written, so they hold indeterminate values. The model passes the whole arrays, with arbitrary contents in those slots, and keeps the source's left-aligned copy. The corrected copy of the finding below is modelled beside it.
- CadenceMul.MulOut: on the Int and Float paths the data of a, b and out is read and written as `int` or `float` chosen by the compute dtype alone (op_mul.cpp:92-94, 109-111). The tensors' own dtypes are never checked against it, so an input of another dtype is reinterpreted. The model passes the stored values to the routines unchanged and does not model the reinterpretation.
- CadenceMul.MulScalarOut: the same reinterpretation happens on its Int and Float paths (op_mul.cpp:178, 181, 185, 188) and is not modelled.
- CadenceMul.MulScalarOut: the bool result of `extract_scalar` is ignored (op_mul.cpp:180, 187). If extraction fails, `inp2_val` is read uninitialized. The model's `extractInt` is a total function, so it does not capture this.
- The arithmetic of the `xa_nn_elm_mul_*` routines, including their 5-D broadcasting rules, belongs to a foreign library. The model makes their results parameters of `Runtime.nnlib`.
- Floating-point multiplication on the f32 routines and on the Double generic path is not modelled. Those results are parameters too. The generic path's broadcasting indexing is also a parameter (`elementwiseFallback`, `scalarFallback`).
- Dtypes are not converted element by element. The model computes the integer product of the stored values for integral compute dtypes (Byte, Char, Short, Long, Bool). It does not model the loads and stores that convert between each tensor's dtype and the compute dtype.
- `promoteTypes`, `promote_type_with_scalar`, `canCast`, `get_compute_type`, `tensors_have_same_dim_order`, `resize_to_broadcast_target_size`, `extract_scalar` and `scalar_to` are not part of this model. They appear only as uninterpreted fields of `Runtime`.
- The default case of the `ET_SWITCH_REALB_TYPES` dtype switch is not part of this model. A compute dtype outside the real-or-bool types ends as `Unhandled`. In that case the model leaves out's data and the context untouched. Whether the runtime aborts or records a failure in that case is not modelled.
- The `KernelRuntimeContext` is reduced to its failure state. The log messages of `ET_KERNEL_CHECK` are left out.
- Aliasing between an input and `out` (an in-place multiply) is not modelled. The inputs are values read before `out` changes.
- `backends/arm/test/ops/test_reciprocal.py` and `examples/models/phi3-mini-lora/export_model.py` only orchestrate an external compiler and export framework. They have no logic of their own to model.

## Findings

| source | as written | input that shows it | evidently intended | confidence | as-written member | corrected member |
|---|---|---|---|---|---|---|
| backends/cadence/fusion_g3/operators/op_mul.cpp:72-82 | The copy loops write each shape into the leading slots of a 5-slot array and leave the other slots unwritten. The broadcasting routines then read slots below `max_dim` of the lower-rank input. | a of sizes `[3]`, b of sizes `[2, 3]`: slot 1 of `inp1_shape` is unwritten yet below `max_dim = 2`, and slot 0 pairs a's 3 with b's 2. | Every slot written, with the sizes right-aligned behind leading 1s, and the routine given the rank `kTensorDimensionLimit` (5) rather than `max_dim`, so that it reads every aligned slot and dimensions pair up from the trailing end. | medium; not executed | `CadenceMul.UnwrittenSlotBelowMaxDim`, `CadenceMul.LeftAlignedSlotsMismatch` | `CadenceMul.CopyShapeAligned`, `CadenceMul.AlignedBroadcastArgs`, `CadenceMul.AlignedArgsPairTrailingDims` |
