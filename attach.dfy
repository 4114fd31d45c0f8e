/** The validation and decoding of the attach path
    (src/shared_array_attach.c): the ordered header checks, the recomputed
    byte strides and the contiguity test that picks the capability tag. */
module Attach {
  import opened Descriptor
  import opened Views

  /** The contiguity test: every stride but the last is the next extent
      times the next stride. */
  predicate RowMajor(d: Descr, n: nat)
    requires n <= MaxDims
  {
    forall i :: 0 <= i < n - 1 ==> d.stride[i] == d.shape[i + 1] * d.stride[i + 1]
  }

  /** The contiguity loop: start from 1, clear the flag and stop at the
      first stride that breaks row-major packing. */
  method IsContiguous(d: Descr, ndims: nat) returns (contig: bool)
    requires ndims <= MaxDims
    ensures contig <==> RowMajor(d, ndims)
  {
    contig := true;
    var i: int := 0;
    while i < ndims - 1
      invariant 0 <= i
      invariant i <= if ndims == 0 then 0 else ndims - 1
      invariant forall k :: 0 <= k < i ==> d.stride[k] == d.shape[k + 1] * d.stride[k + 1]
    {
      if d.stride[i] != d.shape[i + 1] * d.stride[i + 1] {
        contig := false;
        break;
      }
      i := i + 1;
    }
  }

  /** The capability tag for a header with n dimensions. */
  function Tag(d: Descr, n: nat): Capability
    requires n <= MaxDims
  {
    if RowMajor(d, n) then CArray else Behaved
  }

  /** What attach makes of a mapped file of the given size whose first
      bytes read as header d: the checks in their order (short file, bad
      magic, unsupported type), then the view. The element type is the one
      `to_pytype` gives for the stored code, and its size is elsizeOf of it. */
  function AttachOutcome(fileSize: int, d: Descr, toPyType: int -> int, elsizeOf: int -> int): Result<View>
  {
    if fileSize < DescrSize then Err(IOError(NoSharedArray))
    else if d.magic != SharedArrayMagic then Err(IOError(NoSharedArray))
    else
      var t := toPyType(d.typenum);
      if !SupportedType(t) then Err(ValueError("Unsupported data type " + FormatInt(t)))
      else
        var n := Ndims(d);
        Ok(View(n, d.shape[..n], t, ScaledStrides(d.stride, n, elsizeOf(t))[..n],
                DescrSize, fileSize, Tag(d, n)))
  }

  /** The checks come in order: a file shorter than the header and a wrong
      magic both give the IOError, whatever the rest of the header holds;
      the type is judged only after both pass, and only it gives the
      ValueError. */
  lemma AttachCheckOrder(fileSize: int, d: Descr, toPyType: int -> int, elsizeOf: int -> int)
    ensures var r := AttachOutcome(fileSize, d, toPyType, elsizeOf);
      && (fileSize < 128 || d.magic != SharedArrayMagic <==> r == Err(IOError(NoSharedArray)))
      && (r.Err? && r.error.ValueError? <==>
            fileSize >= 128 && d.magic == SharedArrayMagic && !SupportedType(toPyType(d.typenum)))
      && (r.Ok? <==> fileSize >= 128 && d.magic == SharedArrayMagic && SupportedType(toPyType(d.typenum)))
  {
    DescrLayout();
  }

  /** An accepted header yields a view of its leading non-zero extents,
      with byte strides stride[i] * elsize, data at offset 128, and the
      CARRAY tag exactly when the strides pass the row-major test, which
      they always do with at most one dimension. */
  lemma AttachViewFacts(fileSize: int, d: Descr, toPyType: int -> int, elsizeOf: int -> int)
    requires AttachOutcome(fileSize, d, toPyType, elsizeOf).Ok?
    ensures var v, t := AttachOutcome(fileSize, d, toPyType, elsizeOf).value, toPyType(d.typenum);
      && v.ndims == Ndims(d) <= MaxDims
      && (forall i :: 0 <= i < v.ndims ==> v.shape[i] == d.shape[i] != 0)
      && |v.shape| == |v.strides| == v.ndims
      && (forall i :: 0 <= i < v.ndims ==> v.strides[i] == d.stride[i] * elsizeOf(t))
      && v.typeNum == t && SupportedType(t)
      && v.dataOffset == 128 && v.mapSize == fileSize >= 128
      && (v.flags == CArray <==> RowMajor(d, v.ndims))
      && (v.ndims <= 1 ==> v.flags == CArray)
  {
    DescrLayout();
  }
}
