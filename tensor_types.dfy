/** Types shared by the runtime pieces modelled here: element dtypes, error codes,
    the element count of a shape, and the admission rule of resize_tensor. */
module TensorTypes {

  datatype Option<T> = None | Some(value: T)

  /** Element dtypes of a tensor (the subset of the runtime's list that matters here). */
  datatype ScalarType =
    | Byte | Char | Short | Int | Long
    | Half | Float | Double
    | ComplexFloat | ComplexDouble
    | Bool | QInt8 | BFloat16

  /** Error codes returned by runtime calls. */
  datatype Error = Ok | Internal | NotSupported | InvalidArgument

  /** Product of a sequence of sizes; 1 for the empty sequence (rank 0 has one element). */
  function Product(s: seq<int>): int
  {
    if s == [] then 1 else s[0] * Product(s[1..])
  }

  /** Peeling one factor off any suffix. */
  lemma ProductAt(s: seq<int>, i: int)
    requires 0 <= i < |s|
    ensures Product(s[i..]) == s[i] * Product(s[i + 1..])
  {
    assert s[i..][1..] == s[i + 1..];
  }

  /** The error resize_tensor reports for a tensor of sizes `current` asked to take
      sizes `requested`. A change of rank is refused, because the new sizes are written
      into the tensor's fixed-length size and stride buffers; every other admission rule
      of the runtime (the dynamism bound) is the parameter `admits`. */
  function ResizeTensorError(current: seq<int>, requested: seq<int>,
                             admits: (seq<int>, seq<int>) -> Error): Error
  {
    if |requested| != |current| then NotSupported else admits(current, requested)
  }
}
