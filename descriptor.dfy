/** The 128-byte header that starts every shared array file, the scan that
    derives its dimension count, and the whitelist of element types
    (src/shared_array.h). */
module Descriptor {

  /** SHARED_ARRAY_MAGIC: the sentinel in the first header word. */
  const SharedArrayMagic: int := 0x5f3759df

  /** SHARED_ARRAY_MAX_DIMS: the number of shape and stride slots. */
  const MaxDims: nat := 7

  /** Byte widths of the header fields: int32_t and int64_t. */
  const Int32Width: nat := 4
  const Int64Width: nat := 8
  const PadWords: nat := 2

  /** Byte offsets of the fields of `struct array_descr`, in declaration order. */
  const MagicOffset: nat := 0
  const TypenumOffset: nat := MagicOffset + Int32Width
  const ShapeOffset: nat := TypenumOffset + Int32Width
  const StrideOffset: nat := ShapeOffset + MaxDims * Int64Width
  const PadOffset: nat := StrideOffset + MaxDims * Int64Width

  /** sizeof(struct array_descr): where the payload starts in the mapping. */
  const DescrSize: nat := PadOffset + PadWords * Int32Width

  /** The fields pack without compiler padding into exactly 128 bytes: each
      int64_t array starts on an 8-byte boundary and the total is a multiple
      of the largest field alignment, so the static assertion of the header
      holds. */
  lemma DescrLayout()
    ensures DescrSize == 128
    ensures ShapeOffset % Int64Width == 0 && StrideOffset % Int64Width == 0
    ensures DescrSize % Int64Width == 0
    ensures DescrSize == 4 + 4 + 7 * 8 + 7 * 8 + 2 * 4
  {
  }

  /** A fixed array of SHARED_ARRAY_MAX_DIMS int64_t slots. */
  type Slots = s: seq<int> | |s| == MaxDims witness [0, 0, 0, 0, 0, 0, 0]

  /** The two reserved int32_t words. */
  type Pad = s: seq<int> | |s| == PadWords witness [0, 0]

  /** `struct array_descr`, read as a record (host byte order is not modelled). */
  datatype Descr = Descr(magic: int, typenum: int, shape: Slots, stride: Slots, pad: Pad)

  /** The all-zero header: what a freshly created or grown file holds. */
  const ZeroDescr: Descr := Descr(0, 0, [0, 0, 0, 0, 0, 0, 0], [0, 0, 0, 0, 0, 0, 0], [0, 0])

  /** Index of the first zero in `s`, or |s| when there is none. */
  function FirstZero(s: seq<int>): (n: nat)
    ensures n <= |s|
    ensures forall i :: 0 <= i < n ==> s[i] != 0
    ensures n < |s| ==> s[n] == 0
  {
    if s == [] || s[0] == 0 then 0 else 1 + FirstZero(s[1..])
  }

  /** The dimension count a header encodes: the number of leading non-zero
      shape entries. */
  function Ndims(d: Descr): nat
  {
    FirstZero(d.shape)
  }

  /** A count that meets the characterisation of FirstZero is FirstZero. */
  lemma FirstZeroUnique(s: seq<int>, n: nat)
    requires n <= |s|
    requires forall i :: 0 <= i < n ==> s[i] != 0
    requires n < |s| ==> s[n] == 0
    ensures FirstZero(s) == n
  {
  }

  /** Zero entries appended after a sequence do not change its count. */
  lemma {:induction false} FirstZeroPadded(s: seq<int>, z: seq<int>)
    requires forall i :: 0 <= i < |z| ==> z[i] == 0
    ensures FirstZero(s + z) == FirstZero(s)
  {
    if s == [] {
      assert s + z == z;
    } else {
      assert (s + z)[0] == s[0];
      assert (s + z)[1..] == s[1..] + z;
      FirstZeroPadded(s[1..], z);
    }
  }

  /** The count reaches the end exactly when no entry is zero. */
  lemma FirstZeroFull(s: seq<int>)
    ensures FirstZero(s) == |s| <==> forall i :: 0 <= i < |s| ==> s[i] != 0
  {
  }

  /** array_descr_ndims: advance past the non-zero shape entries, stopping at
      the first zero or at the last slot, and mask the count with INT_MAX. */
  method ArrayDescrNdims(ad: Descr) returns (n: nat)
    ensures n <= MaxDims
    ensures forall i :: 0 <= i < n ==> ad.shape[i] != 0
    ensures n < MaxDims ==> ad.shape[n] == 0
    ensures n == Ndims(ad)
  {
    var i: nat := 0;
    while i < MaxDims && ad.shape[i] != 0
      invariant i <= MaxDims
      invariant forall k :: 0 <= k < i ==> ad.shape[k] != 0
    {
      i := i + 1;
    }
    // `i & INT_MAX` keeps the low 31 bits
    n := i % 0x8000_0000;
    FirstZeroUnique(ad.shape, n);
  }

  /** Byte strides: element stride times element size in the first n slots,
      zero in the others. */
  function ScaledStrides(stride: Slots, n: nat, elsize: int): Slots
  {
    seq(MaxDims, i requires 0 <= i < MaxDims => if i < n then stride[i] * elsize else 0)
  }

  /** The `strides_bytes` loop shared by create and attach: a zero-filled
      array whose first n slots receive stride[i] * elsize. */
  method StridesBytes(stride: Slots, n: nat, elsize: int) returns (sb: Slots)
    requires n <= MaxDims
    ensures forall i :: 0 <= i < n ==> sb[i] == stride[i] * elsize
    ensures forall i :: n <= i < MaxDims ==> sb[i] == 0
    ensures sb == ScaledStrides(stride, n, elsize)
  {
    var a := new int[MaxDims](_ => 0);
    for i := 0 to n
      invariant forall k :: 0 <= k < i ==> a[k] == stride[k] * elsize
      invariant forall k :: i <= k < MaxDims ==> a[k] == 0
    {
      a[i] := stride[i] * elsize;
    }
    sb := a[..];
  }

  // Element type codes of NumPy's `enum NPY_TYPES` (NumPy 1.x numbering).
  const NpyBool: int := 0
  const NpyByte: int := 1
  const NpyUByte: int := 2
  const NpyShort: int := 3
  const NpyUShort: int := 4
  const NpyInt: int := 5
  const NpyUInt: int := 6
  const NpyLong: int := 7
  const NpyULong: int := 8
  const NpyLongLong: int := 9
  const NpyULongLong: int := 10
  const NpyFloat: int := 11
  const NpyDouble: int := 12
  const NpyLongDouble: int := 13
  const NpyCFloat: int := 14
  const NpyCDouble: int := 15
  const NpyCLongDouble: int := 16
  const NpyObject: int := 17
  const NpyString: int := 18
  const NpyUnicode: int := 19
  const NpyVoid: int := 20
  const NpyDatetime: int := 21
  const NpyTimedelta: int := 22
  const NpyHalf: int := 23
  const NpyNTypes: int := 24
  const NpyNoType: int := 25
  const NpyUserDef: int := 256

  /** supported_type: the switch over NumPy type codes. */
  predicate SupportedType(t: int)
  {
    match t
    case NpyBool | NpyByte | NpyShort | NpyInt | NpyLong | NpyLongLong
       | NpyUByte | NpyUShort | NpyUInt | NpyULong | NpyULongLong
       | NpyHalf | NpyFloat | NpyDouble | NpyLongDouble
       | NpyCFloat | NpyCDouble | NpyCLongDouble => true
    case NpyDatetime | NpyTimedelta | NpyString | NpyUnicode | NpyObject
       | NpyVoid | NpyNTypes | NpyNoType | NpyUserDef => false
    case _ => false
  }

  /** The numeric types: booleans, the signed and unsigned integers, the
      half, single, double and extended floats and their complex variants. */
  const NumericTypes: set<int> := {
    NpyBool,
    NpyByte, NpyShort, NpyInt, NpyLong, NpyLongLong,
    NpyUByte, NpyUShort, NpyUInt, NpyULong, NpyULongLong,
    NpyHalf, NpyFloat, NpyDouble, NpyLongDouble,
    NpyCFloat, NpyCDouble, NpyCLongDouble
  }

  /** The codes the switch names and refuses. */
  const RefusedTypes: set<int> := {
    NpyDatetime, NpyTimedelta, NpyString, NpyUnicode, NpyObject,
    NpyVoid, NpyNTypes, NpyNoType, NpyUserDef
  }

  /** supported_type accepts exactly the 18 numeric codes (the 17
      consecutive codes NPY_BOOL to NPY_CLONGDOUBLE and NPY_HALF) and refuses
      every other code, the named time, string, object, void and marker codes
      included. */
  lemma SupportedTypeExactly(t: int)
    ensures SupportedType(t) <==> t in NumericTypes
    ensures SupportedType(t) <==> NpyBool <= t <= NpyCLongDouble || t == NpyHalf
    ensures t in RefusedTypes ==> !SupportedType(t)
  {
  }

  /** The element size the aligned layout can work with: at least one byte
      and at most a 64-byte cache line (true of every numeric type). */
  predicate ElsizeFitsLine(elsize: int)
  {
    0 < elsize <= 64
  }
}
