/** What the attach path makes of a header the create path wrote: the two
    files agree on the dimension count, shape and strides, and the
    contiguity test recognises the unaligned layout. */
module RoundTrip {
  import opened Descriptor
  import opened Views
  import opened Create
  import opened Attach

  /** The contiguity test accepts exactly the strides that are row-major
      over the shape, scaled by the innermost stride. */
  lemma RowMajorClosedForm(d: Descr, n: nat)
    requires 1 <= n <= MaxDims
    ensures RowMajor(d, n) <==>
      forall i :: 0 <= i < n ==> d.stride[i] == d.stride[n - 1] * Product(d.shape[i + 1..n])
  {
    var s := d.stride[n - 1];
    if RowMajor(d, n) {
      forall i | 0 <= i < n
        ensures d.stride[i] == s * Product(d.shape[i + 1..n])
      {
        RowMajorFromTop(d, n, i);
      }
    }
    if forall i :: 0 <= i < n ==> d.stride[i] == s * Product(d.shape[i + 1..n]) {
      forall i | 0 <= i < n - 1
        ensures d.stride[i] == d.shape[i + 1] * d.stride[i + 1]
      {
        ClosedFormStep(d, n, i);
      }
    }
  }

  lemma ClosedFormStep(d: Descr, n: nat, i: nat)
    requires 1 <= n <= MaxDims && i < n - 1
    requires d.stride[i] == d.stride[n - 1] * Product(d.shape[i + 1..n])
    requires d.stride[i + 1] == d.stride[n - 1] * Product(d.shape[i + 2..n])
    ensures d.stride[i] == d.shape[i + 1] * d.stride[i + 1]
  {
    var s, x, p := d.stride[n - 1], d.shape[i + 1], Product(d.shape[i + 2..n]);
    assert d.shape[i + 1..n][1..] == d.shape[i + 2..n];
    assert Product(d.shape[i + 1..n]) == x * p;
    MulSwap(s, x, p);
  }

  lemma {:induction false} RowMajorFromTop(d: Descr, n: nat, i: nat)
    requires 1 <= n <= MaxDims && i < n
    requires RowMajor(d, n)
    ensures d.stride[i] == d.stride[n - 1] * Product(d.shape[i + 1..n])
    decreases n - i
  {
    if i == n - 1 {
      assert d.shape[i + 1..n] == [];
    } else {
      RowMajorFromTop(d, n, i + 1);
      var s, x, p := d.stride[n - 1], d.shape[i + 1], Product(d.shape[i + 2..n]);
      assert d.shape[i + 1..n][1..] == d.shape[i + 2..n];
      assert Product(d.shape[i + 1..n]) == x * p;
      assert d.stride[i] == x * (s * p);
      MulSwap(x, s, p);
    }
  }

  lemma MulSwap(a: int, b: int, c: int)
    ensures a * (b * c) == b * (a * c)
  {
  }

  /** A header written by create with aligned=false always passes attach's
      contiguity test, for every dimension count up to the requested one
      and so for the count attach derives. */
  lemma UnalignedCreateIsContiguous(dims: seq<int>, dtype: Dtype)
    requires LayoutDefined(dims, dtype.elsize, false)
    ensures forall n :: 0 <= n <= |dims| ==> RowMajor(CreateDescr(dims, dtype, false), n)
    ensures Tag(CreateDescr(dims, dtype, false), Ndims(CreateDescr(dims, dtype, false))) == CArray
  {
    var d := CreateDescr(dims, dtype, false);
    StrideRecurrence(dims, dtype, false);
    assert AlignedDims(dims, dtype.elsize, false) == dims;
    CreateViewFacts(dims, dtype, false, 0);
  }

  lemma ScaleDiffers(a: int, b: int, s: int)
    requires a != b && s > 0
    ensures a * s != b * s
  {
    if a < b {
      assert (b - a) * s > 0;
    } else {
      assert (a - b) * s > 0;
    }
  }

  /** With positive extents, a header written by create with aligned=true
      passes the contiguity test exactly when no extent past the first was
      padded; any padding leaves the view only BEHAVED. */
  lemma AlignedContiguousIffUnpadded(dims: seq<int>, dtype: Dtype)
    requires LayoutDefined(dims, dtype.elsize, true)
    requires forall i :: 0 <= i < |dims| ==> dims[i] > 0
    ensures var d, ext := CreateDescr(dims, dtype, true), AlignedDims(dims, dtype.elsize, true);
      Tag(d, Ndims(d)) == CArray <==> forall k :: 1 <= k < |dims| ==> ext[k] == dims[k]
  {
    var d, ext := CreateDescr(dims, dtype, true), AlignedDims(dims, dtype.elsize, true);
    CreateViewFacts(dims, dtype, true, 0);
    assert Ndims(d) == |dims|;
    StrideRecurrence(dims, dtype, true);
    AlignedDimsPadding(dims, dtype.elsize, true);
    if exists k :: 1 <= k < |dims| && ext[k] != dims[k] {
      var k :| 1 <= k < |dims| && ext[k] != dims[k];
      assert d.stride[k] == Product(ext[k + 1..]);
      ProductPositive(ext[k + 1..]);
      ScaleDiffers(ext[k], dims[k], d.stride[k]);
      assert d.stride[k - 1] != d.shape[k] * d.stride[k];
    }
  }

  /** Attaching the header create wrote, in a file at least as large as
      the mapping create requested, gives back create's own view: the same
      dimension count, shape and byte strides at the same data offset. Only
      the type code goes through `to_pytype`, and only the tag may differ:
      it is CARRAY for the unaligned layout. */
  lemma CreateThenAttach(dims: seq<int>, dtype: Dtype, aligned: bool, fileSize: int,
                         toPyType: int -> int, elsizeOf: int -> int)
    requires LayoutDefined(dims, dtype.elsize, aligned)
    requires dtype.elsize >= 0 && forall i :: 0 <= i < |dims| ==> dims[i] >= 0
    requires fileSize >= MapSize(dims, dtype.elsize, aligned)
    requires SupportedType(toPyType(dtype.typeNum))
    requires elsizeOf(toPyType(dtype.typeNum)) == dtype.elsize
    ensures var d := CreateDescr(dims, dtype, aligned);
      var r := AttachOutcome(fileSize, d, toPyType, elsizeOf);
      && r.Ok?
      && r.value == CreateView(dims, dtype, aligned, fileSize).(typeNum := toPyType(dtype.typeNum), flags := Tag(d, Ndims(d)))
      && (!aligned ==> r.value.flags == CArray)
  {
    PayloadNonneg(dims, dtype.elsize, aligned);
    DescrLayout();
    if !aligned {
      UnalignedCreateIsContiguous(dims, dtype);
    }
  }
}
