/** The layout engine of the create path (src/shared_array_create.c): the
    cache-line rounding of extents, the payload size, the row-major element
    strides, and the descriptor that create writes at offset 0. */
module Create {
  import opened Descriptor
  import opened Views

  /** C's `/` on `long`: the quotient truncated toward zero. */
  function CDiv(a: int, b: int): int
    requires b > 0
  {
    if a >= 0 then a / b else -((-a) / b)
  }

  /** C's `%` on `long`: the remainder takes the sign of the dividend. */
  function CMod(a: int, b: int): int
    requires b > 0
  {
    a - b * CDiv(a, b)
  }

  /** `64/elsz`: how many elements of size elsz fill a 64-byte line. */
  function LineElems(elsz: int): (u: int)
    requires ElsizeFitsLine(elsz)
    ensures 1 <= u <= 64
    ensures u * elsz <= 64
  {
    64 / elsz
  }

  /** align64_roundup: val rounded up to a multiple of `64/elsz`. */
  function Align64Roundup(elsz: int, val: int): int
    requires ElsizeFitsLine(elsz)
  {
    var els64 := LineElems(elsz);
    if CMod(val, els64) == 0 then val else (CDiv(val, els64) + 1) * els64
  }

  /** For a non-negative extent the rounded value is a multiple of the line
      unit, is at least val and exceeds it by less than one unit; a value
      that already is a multiple comes back unchanged. */
  lemma Align64RoundupBounds(elsz: int, val: int)
    requires ElsizeFitsLine(elsz) && val >= 0
    ensures Align64Roundup(elsz, val) % LineElems(elsz) == 0
    ensures val <= Align64Roundup(elsz, val) < val + LineElems(elsz)
    ensures val % LineElems(elsz) == 0 ==> Align64Roundup(elsz, val) == val
  {
    var u := LineElems(elsz);
    var q, rem := val / u, val % u;
    assert val == q * u + rem && 0 <= rem < u;
    if rem != 0 {
      assert Align64Roundup(elsz, val) == (q + 1) * u == q * u + u;
      assert (q * u + u) % u == 0 by { MultipleMod(q + 1, u); }
    }
  }

  /** It is the least such multiple: no multiple of the unit that is at
      least val lies below it. */
  lemma Align64RoundupLeast(elsz: int, val: int, m: int)
    requires ElsizeFitsLine(elsz) && val >= 0
    requires m >= val && m % LineElems(elsz) == 0
    ensures Align64Roundup(elsz, val) <= m
  {
    var u := LineElems(elsz);
    var q, rem := val / u, val % u;
    assert val == q * u + rem && 0 <= rem < u;
    if rem != 0 {
      var k := m / u;
      assert m == k * u;
      assert k * u > q * u;
      QuotientGrows(q, k, u);
      assert (k - (q + 1)) * u >= 0 by { MulNonneg(k - (q + 1), u); }
    }
  }

  /** Rounding twice rounds once. */
  lemma Align64RoundupIdempotent(elsz: int, val: int)
    requires ElsizeFitsLine(elsz) && val >= 0
    ensures Align64Roundup(elsz, Align64Roundup(elsz, val)) == Align64Roundup(elsz, val)
  {
    Align64RoundupBounds(elsz, val);
    Align64RoundupBounds(elsz, Align64Roundup(elsz, val));
  }

  lemma MultipleMod(k: int, u: int)
    requires u > 0
    ensures (k * u) % u == 0
  {
    var q, r := (k * u) / u, (k * u) % u;
    assert r == (k - q) * u;
    SmallMultiple(k - q, u);
  }

  lemma SmallMultiple(d: int, u: int)
    requires u > 0 && 0 <= d * u < u
    ensures d == 0
  {
    if d >= 1 {
      MulNonneg(d - 1, u);
      assert false;
    } else if d <= -1 {
      MulNonneg(-d - 1, u);
      assert false;
    }
  }

  lemma QuotientGrows(q: int, k: int, u: int)
    requires u > 0 && k * u > q * u
    ensures k >= q + 1
  {
    if k <= q {
      assert (q - k) * u >= 0 by { MulNonneg(q - k, u); }
    }
  }

  lemma ElementFits(off: int, p: int, elsize: int)
    requires 0 <= off < p && elsize > 0
    ensures (off + 1) * elsize <= elsize * p
    ensures off * elsize + elsize <= elsize * p
  {
    MulNonneg(p - off - 1, elsize);
    assert (p - off - 1) * elsize == elsize * p - (off + 1) * elsize;
    assert (off + 1) * elsize == off * elsize + elsize;
  }

  lemma MulNonneg(a: int, b: int)
    requires a >= 0 && b >= 0
    ensures a * b >= 0
  {
  }

  /** The product of a sequence of extents. */
  function Product(s: seq<int>): int
  {
    if s == [] then 1 else s[0] * Product(s[1..])
  }

  lemma {:induction false} ProductSnoc(s: seq<int>, x: int)
    ensures Product(s + [x]) == Product(s) * x
  {
    if s == [] {
      assert s + [x] == [x];
      assert [x][1..] == [];
    } else {
      assert (s + [x])[0] == s[0];
      assert (s + [x])[1..] == s[1..] + [x];
      ProductSnoc(s[1..], x);
    }
  }

  lemma {:induction false} ProductNonneg(s: seq<int>)
    requires forall i :: 0 <= i < |s| ==> s[i] >= 0
    ensures Product(s) >= 0
  {
    if s != [] {
      ProductNonneg(s[1..]);
      MulNonneg(s[0], Product(s[1..]));
    }
  }

  lemma {:induction false} ProductPositive(s: seq<int>)
    requires forall i :: 0 <= i < |s| ==> s[i] > 0
    ensures Product(s) > 0
  {
    if s != [] {
      ProductPositive(s[1..]);
    }
  }

  /** What the layout needs of its inputs: at most SHARED_ARRAY_MAX_DIMS
      extents, and for the aligned layout an element size that
      align64_roundup can divide 64 by. */
  predicate LayoutDefined(dims: seq<int>, elsize: int, aligned: bool)
  {
    |dims| <= MaxDims && (aligned ==> ElsizeFitsLine(elsize))
  }

  /** `aligned_dims`: every extent rounded up when aligned, as given
      otherwise. These are also the extents the stride loop multiplies. */
  function AlignedDims(dims: seq<int>, elsize: int, aligned: bool): (ext: seq<int>)
    requires aligned ==> ElsizeFitsLine(elsize)
    ensures |ext| == |dims|
  {
    seq(|dims|, i requires 0 <= i < |dims| => if aligned then Align64Roundup(elsize, dims[i]) else dims[i])
  }

  /** The factors of the size loop: dimension 0 unpadded, the rest as in
      `aligned_dims`. */
  function SizeExtents(dims: seq<int>, elsize: int, aligned: bool): (e: seq<int>)
    requires aligned ==> ElsizeFitsLine(elsize)
    ensures |e| == |dims|
  {
    var ext := AlignedDims(dims, elsize, aligned);
    seq(|dims|, i requires 0 <= i < |dims| => if aligned && i > 0 then ext[i] else dims[i])
  }

  /** The payload size in bytes. */
  function PayloadSize(dims: seq<int>, elsize: int, aligned: bool): int
    requires aligned ==> ElsizeFitsLine(elsize)
  {
    elsize * Product(SizeExtents(dims, elsize, aligned))
  }

  /** The size requested from ftruncate: header plus payload. */
  function MapSize(dims: seq<int>, elsize: int, aligned: bool): int
    requires aligned ==> ElsizeFitsLine(elsize)
  {
    PayloadSize(dims, elsize, aligned) + DescrSize
  }

  /** Row-major element strides over the given extents: stride i is the
      product of the extents after i. */
  function RowMajorStrides(ext: seq<int>): (st: seq<int>)
    ensures |st| == |ext|
  {
    seq(|ext|, i requires 0 <= i < |ext| => Product(ext[i + 1..]))
  }

  /** A sequence of at most seven entries, zero-filled to seven slots. */
  function Padded(s: seq<int>): Slots
    requires |s| <= MaxDims
  {
    s + seq(MaxDims - |s|, _ => 0)
  }

  /** The descriptor create writes at offset 0 of the mapping. */
  function CreateDescr(dims: seq<int>, dtype: Dtype, aligned: bool): Descr
    requires LayoutDefined(dims, dtype.elsize, aligned)
  {
    Descr(SharedArrayMagic, dtype.typeNum, Padded(dims),
          Padded(RowMajorStrides(AlignedDims(dims, dtype.elsize, aligned))), [0, 0])
  }

  /** The view create hands to the array library, over a file of the given
      size: the header's own dimension count and shape, byte strides, data
      right after the header, and the BEHAVED tag. */
  function CreateView(dims: seq<int>, dtype: Dtype, aligned: bool, fileSize: int): View
    requires LayoutDefined(dims, dtype.elsize, aligned)
  {
    var d := CreateDescr(dims, dtype, aligned);
    var n := Ndims(d);
    View(n, d.shape[..n], dtype.typeNum, ScaledStrides(d.stride, n, dtype.elsize)[..n],
         DescrSize, fileSize, Behaved)
  }

  /** The `aligned_dims` loop of do_create: a zero-initialised array whose
      first slots receive the extents, rounded up when aligned. */
  method AlignDims(dims: seq<int>, elsize: int, aligned: bool) returns (alignedDims: Slots)
    requires LayoutDefined(dims, elsize, aligned)
    ensures alignedDims == Padded(AlignedDims(dims, elsize, aligned))
  {
    ghost var ext := AlignedDims(dims, elsize, aligned);
    var ad := new int[MaxDims](_ => 0);
    for i := 0 to |dims|
      invariant forall k :: 0 <= k < i ==> ad[k] == ext[k]
      invariant forall k :: i <= k < MaxDims ==> ad[k] == 0
    {
      ad[i] := if aligned then Align64Roundup(elsize, dims[i]) else dims[i];
    }
    alignedDims := ad[..];
    assert alignedDims == Padded(ext);
  }

  /** The size loop of do_create: the element size times extent 0 and
      every later extent, taken from `aligned_dims` when aligned. */
  method LayoutSize(dims: seq<int>, elsize: int, aligned: bool, alignedDims: Slots) returns (size: int)
    requires LayoutDefined(dims, elsize, aligned)
    requires alignedDims == Padded(AlignedDims(dims, elsize, aligned))
    ensures size == PayloadSize(dims, elsize, aligned)
  {
    ghost var e := SizeExtents(dims, elsize, aligned);
    size := elsize;
    for i := 0 to |dims|
      invariant size == elsize * Product(e[..i])
    {
      var factor := if aligned && i > 0 then alignedDims[i] else dims[i];
      assert factor == e[i];
      assert e[..i + 1] == e[..i] + [e[i]];
      ProductSnoc(e[..i], e[i]);
      size := size * factor;
    }
    assert e[..|dims|] == e;
  }

  /** The shape loop of do_create over the zero-filled header: the
      requested extents, then zeros. */
  method WriteShape(dims: seq<int>) returns (shape: Slots)
    requires |dims| <= MaxDims
    ensures shape == Padded(dims)
  {
    var a := new int[MaxDims](_ => 0);
    for i := 0 to |dims|
      invariant forall k :: 0 <= k < i ==> a[k] == dims[k]
      invariant forall k :: i <= k < MaxDims ==> a[k] == 0
    {
      a[i] := dims[i];
    }
    shape := a[..];
    assert shape == Padded(dims);
  }

  /** The inner stride loop of do_create: 1 multiplied by every extent
      after i, the padded one from `aligned_dims` when aligned and the
      header's own shape otherwise. */
  method StrideAfter(dims: seq<int>, elsize: int, aligned: bool, alignedDims: Slots, shape: Slots, i: nat)
    returns (st: int)
    requires LayoutDefined(dims, elsize, aligned) && i < |dims|
    requires alignedDims == Padded(AlignedDims(dims, elsize, aligned))
    requires shape == Padded(dims)
    ensures st == Product(AlignedDims(dims, elsize, aligned)[i + 1..])
  {
    ghost var ext := AlignedDims(dims, elsize, aligned);
    st := 1;
    for j := i + 1 to |dims|
      invariant st == Product(ext[i + 1..j])
    {
      var factor := if aligned then alignedDims[j] else shape[j];
      assert factor == ext[j];
      assert ext[i + 1..j + 1] == ext[i + 1..j] + [ext[j]];
      ProductSnoc(ext[i + 1..j], ext[j]);
      st := st * factor;
    }
    assert ext[i + 1..|dims|] == ext[i + 1..];
  }

  /** The outer stride loop of do_create: the header's stride slots over
      the zero-filled header, row-major over the extents of the loop. */
  method WriteStrides(dims: seq<int>, elsize: int, aligned: bool, alignedDims: Slots, shape: Slots)
    returns (stride: Slots)
    requires LayoutDefined(dims, elsize, aligned)
    requires alignedDims == Padded(AlignedDims(dims, elsize, aligned))
    requires shape == Padded(dims)
    ensures stride == Padded(RowMajorStrides(AlignedDims(dims, elsize, aligned)))
  {
    ghost var st := RowMajorStrides(AlignedDims(dims, elsize, aligned));
    var a := new int[MaxDims](_ => 0);
    for i := 0 to |dims|
      invariant forall k :: 0 <= k < i ==> a[k] == st[k]
      invariant forall k :: i <= k < MaxDims ==> a[k] == 0
    {
      a[i] := StrideAfter(dims, elsize, aligned, alignedDims, shape, i);
    }
    stride := a[..];
    assert stride == Padded(st);
  }

  /** The descriptor writing of do_create: the zero-filling compound
      literal with magic and type code, then the shape and stride loops. */
  method WriteDescr(dims: seq<int>, dtype: Dtype, aligned: bool, alignedDims: Slots) returns (d: Descr)
    requires LayoutDefined(dims, dtype.elsize, aligned)
    requires alignedDims == Padded(AlignedDims(dims, dtype.elsize, aligned))
    ensures d == CreateDescr(dims, dtype, aligned)
  {
    var shape := WriteShape(dims);
    var stride := WriteStrides(dims, dtype.elsize, aligned, alignedDims, shape);
    d := Descr(SharedArrayMagic, dtype.typeNum, shape, stride, [0, 0]);
  }

  /** Padding of the aligned layout: each rounded extent is a multiple of
      `64/elsize`, no smaller than the requested extent and less than one
      unit above it; the unaligned layout keeps the extents as given. */
  lemma AlignedDimsPadding(dims: seq<int>, elsize: int, aligned: bool)
    requires aligned ==> ElsizeFitsLine(elsize)
    requires forall i :: 0 <= i < |dims| ==> dims[i] >= 0
    ensures !aligned ==> AlignedDims(dims, elsize, aligned) == dims
    ensures aligned ==> forall i :: 0 <= i < |dims| ==>
      var ext := AlignedDims(dims, elsize, aligned);
      ext[i] % LineElems(elsize) == 0 && dims[i] <= ext[i] < dims[i] + LineElems(elsize)
  {
    if aligned {
      forall i | 0 <= i < |dims|
        ensures var ext := AlignedDims(dims, elsize, aligned);
          ext[i] % LineElems(elsize) == 0 && dims[i] <= ext[i] < dims[i] + LineElems(elsize)
      {
        Align64RoundupBounds(elsize, dims[i]);
      }
    }
  }

  /** The element strides written by create are row-major over the
      extents of the stride loop: the innermost stride is 1 and each other
      stride is the next extent times the next stride. */
  lemma {:induction false} StrideRecurrence(dims: seq<int>, dtype: Dtype, aligned: bool)
    requires LayoutDefined(dims, dtype.elsize, aligned)
    ensures var d, ext := CreateDescr(dims, dtype, aligned), AlignedDims(dims, dtype.elsize, aligned);
      && (|dims| >= 1 ==> d.stride[|dims| - 1] == 1)
      && (forall i :: 0 <= i < |dims| - 1 ==> d.stride[i] == ext[i + 1] * d.stride[i + 1])
  {
    var d, ext := CreateDescr(dims, dtype, aligned), AlignedDims(dims, dtype.elsize, aligned);
    if |dims| >= 1 {
      assert d.stride[|dims| - 1] == Product(ext[|dims|..]);
      assert ext[|dims|..] == [];
    }
    forall i | 0 <= i < |dims| - 1
      ensures d.stride[i] == ext[i + 1] * d.stride[i + 1]
    {
      assert ext[i + 1..][1..] == ext[i + 2..];
    }
  }

  /** Create's descriptor holds the magic, the type code and the requested
      extents, and zero in every slot past the dimension count and in both
      pad words. */
  lemma CreateDescrFields(dims: seq<int>, dtype: Dtype, aligned: bool)
    requires LayoutDefined(dims, dtype.elsize, aligned)
    ensures var d := CreateDescr(dims, dtype, aligned);
      && d.magic == SharedArrayMagic && d.typenum == dtype.typeNum && d.pad == [0, 0]
      && (forall i :: 0 <= i < |dims| ==> d.shape[i] == dims[i])
      && (forall i :: |dims| <= i < MaxDims ==> d.shape[i] == 0 && d.stride[i] == 0)
  {
  }

  /** Dimension 0 is never padded: the payload is the element size times
      the first extent times the first stride, or a single element for a
      zero-dimensional array. */
  lemma PayloadFromStride(dims: seq<int>, dtype: Dtype, aligned: bool)
    requires LayoutDefined(dims, dtype.elsize, aligned)
    ensures var d := CreateDescr(dims, dtype, aligned);
      && (|dims| == 0 ==> PayloadSize(dims, dtype.elsize, aligned) == dtype.elsize)
      && (|dims| >= 1 ==> PayloadSize(dims, dtype.elsize, aligned) == dtype.elsize * dims[0] * d.stride[0])
  {
    var d := CreateDescr(dims, dtype, aligned);
    var e, ext := SizeExtents(dims, dtype.elsize, aligned), AlignedDims(dims, dtype.elsize, aligned);
    if |dims| >= 1 {
      assert e[1..] == ext[1..];
      assert d.stride[0] == Product(ext[1..]);
      assert Product(e) == dims[0] * d.stride[0];
    }
  }

  /** For non-negative extents and element size the payload is not
      negative, so the requested mapping holds at least the header. */
  lemma PayloadNonneg(dims: seq<int>, elsize: int, aligned: bool)
    requires aligned ==> ElsizeFitsLine(elsize)
    requires elsize >= 0 && forall i :: 0 <= i < |dims| ==> dims[i] >= 0
    ensures PayloadSize(dims, elsize, aligned) >= 0
    ensures MapSize(dims, elsize, aligned) >= DescrSize
  {
    AlignedDimsPadding(dims, elsize, aligned);
    ProductNonneg(SizeExtents(dims, elsize, aligned));
    MulNonneg(elsize, Product(SizeExtents(dims, elsize, aligned)));
  }

  /** The element offset of an index under the given strides. */
  function Dot(idx: seq<int>, st: seq<int>): int
    requires |idx| <= |st|
  {
    if idx == [] then 0 else idx[0] * st[0] + Dot(idx[1..], st[1..])
  }

  /** Row-major strides over extents e place every in-bounds index inside
      the product of the extents. */
  lemma {:induction false} RowMajorOffsetBound(idx: seq<int>, e: seq<int>)
    requires |idx| == |e|
    requires forall i :: 0 <= i < |e| ==> 0 <= idx[i] < e[i]
    ensures 0 <= Dot(idx, RowMajorStrides(e)) < Product(e)
  {
    if idx != [] {
      var st := RowMajorStrides(e);
      forall i | 0 <= i < |e| - 1
        ensures st[1..][i] == RowMajorStrides(e[1..])[i]
      {
        assert e[1..][i + 1..] == e[i + 2..];
      }
      assert st[1..] == RowMajorStrides(e[1..]);
      RowMajorOffsetBound(idx[1..], e[1..]);
      var p := Product(e[1..]);
      assert st[0] == p;
      MulNonneg(idx[0], p);
      MulNonneg(e[0] - idx[0] - 1, p);
    }
  }

  /** Create's strides over its first |dims| slots are the row-major
      strides of the size loop's extents: only extent 0 differs, and no
      stride multiplies it. */
  lemma CreateStridesOverSizeExtents(dims: seq<int>, dtype: Dtype, aligned: bool)
    requires LayoutDefined(dims, dtype.elsize, aligned)
    ensures CreateDescr(dims, dtype, aligned).stride[..|dims|]
         == RowMajorStrides(SizeExtents(dims, dtype.elsize, aligned))
  {
    var e, ext := SizeExtents(dims, dtype.elsize, aligned), AlignedDims(dims, dtype.elsize, aligned);
    forall i | 0 <= i < |dims|
      ensures RowMajorStrides(ext)[i] == RowMajorStrides(e)[i]
    {
      assert ext[i + 1..] == e[i + 1..];
    }
    assert CreateDescr(dims, dtype, aligned).stride[..|dims|] == RowMajorStrides(ext);
  }

  /** Every index in bounds of the requested extents addresses an element
      that lies wholly inside the payload, and so inside the requested
      mapping. (Such an index exists only when no extent is zero.) */
  lemma InBoundsFitsPayload(dims: seq<int>, dtype: Dtype, aligned: bool, idx: seq<int>)
    requires LayoutDefined(dims, dtype.elsize, aligned)
    requires dtype.elsize > 0
    requires |idx| == |dims|
    requires forall i :: 0 <= i < |dims| ==> 0 <= idx[i] < dims[i]
    ensures var off := Dot(idx, CreateDescr(dims, dtype, aligned).stride[..|dims|]);
      && 0 <= off
      && (off + 1) * dtype.elsize <= PayloadSize(dims, dtype.elsize, aligned)
      && DescrSize + off * dtype.elsize + dtype.elsize <= MapSize(dims, dtype.elsize, aligned)
  {
    var elsize := dtype.elsize;
    var e := SizeExtents(dims, elsize, aligned);
    assert forall i :: 0 <= i < |dims| ==> dims[i] >= 0;
    AlignedDimsPadding(dims, elsize, aligned);
    assert forall i :: 0 <= i < |e| ==> 0 <= idx[i] < e[i] by {
      forall i | 0 <= i < |e|
        ensures 0 <= idx[i] < e[i]
      {
        assert e[i] >= dims[i];
      }
    }
    CreateStridesOverSizeExtents(dims, dtype, aligned);
    RowMajorOffsetBound(idx, e);
    var off := Dot(idx, RowMajorStrides(e));
    ElementFits(off, Product(e), elsize);
  }

  /** The dimension count create reports is the position of the first zero
      extent: at most the requested count, and equal to it exactly when no
      extent is zero. The view shows the header's shape and the byte
      strides of that many dimensions, with data right after the header. */
  lemma CreateViewFacts(dims: seq<int>, dtype: Dtype, aligned: bool, fileSize: int)
    requires LayoutDefined(dims, dtype.elsize, aligned)
    ensures var v, d := CreateView(dims, dtype, aligned, fileSize), CreateDescr(dims, dtype, aligned);
      && v.ndims == FirstZero(dims) <= |dims|
      && (v.ndims == |dims| <==> forall i :: 0 <= i < |dims| ==> dims[i] != 0)
      && v.shape == dims[..v.ndims]
      && |v.strides| == v.ndims
      && (forall i :: 0 <= i < v.ndims ==> v.strides[i] == d.stride[i] * dtype.elsize)
      && v.typeNum == dtype.typeNum && v.dataOffset == 128 && v.flags == Behaved
  {
    FirstZeroPadded(dims, seq(MaxDims - |dims|, _ => 0));
    FirstZeroFull(dims);
    DescrLayout();
  }

  /** The index lies in bounds of the given shape. */
  predicate InBounds(idx: seq<int>, shape: seq<int>)
  {
    |idx| == |shape| && forall i :: 0 <= i < |idx| ==> 0 <= idx[i] < shape[i]
  }

  /** Every index in bounds of the view's shape reaches, through the view's
      byte strides, `elsize` bytes that lie inside a payload of the given
      size. */
  ghost predicate ElementsWithin(v: View, elsize: int, payload: int)
  {
    forall idx :: InBounds(idx, v.shape) && |idx| <= |v.strides| ==>
      0 <= Dot(idx, v.strides) && Dot(idx, v.strides) + elsize <= payload
  }

  /** Byte strides that scale element strides by c scale every offset by c. */
  lemma {:induction false} DotScaled(idx: seq<int>, bytes: seq<int>, st: seq<int>, c: int)
    requires |idx| <= |bytes| == |st|
    requires forall i :: 0 <= i < |st| ==> bytes[i] == st[i] * c
    ensures Dot(idx, bytes) == Dot(idx, st) * c
  {
    if idx != [] {
      DotScaled(idx[1..], bytes[1..], st[1..], c);
      assert idx[0] * (st[0] * c) + Dot(idx[1..], st[1..]) * c == (idx[0] * st[0] + Dot(idx[1..], st[1..])) * c;
    }
  }

  /** The view create would return if its dimension count were the
      requested one: all requested extents as shape, with their byte
      strides. */
  function IntendedCreateView(dims: seq<int>, dtype: Dtype, aligned: bool, fileSize: int): View
    requires LayoutDefined(dims, dtype.elsize, aligned)
  {
    var d := CreateDescr(dims, dtype, aligned);
    View(|dims|, dims, dtype.typeNum, ScaledStrides(d.stride, |dims|, dtype.elsize)[..|dims|],
         DescrSize, fileSize, Behaved)
  }

  /** The view with the requested dimension count never addresses a byte
      outside the payload, whatever the extents. */
  lemma IntendedViewWithinPayload(dims: seq<int>, dtype: Dtype, aligned: bool, fileSize: int)
    requires LayoutDefined(dims, dtype.elsize, aligned) && dtype.elsize > 0
    ensures ElementsWithin(IntendedCreateView(dims, dtype, aligned, fileSize), dtype.elsize,
                           PayloadSize(dims, dtype.elsize, aligned))
  {
    var v, d := IntendedCreateView(dims, dtype, aligned, fileSize), CreateDescr(dims, dtype, aligned);
    var elsize := dtype.elsize;
    forall idx | InBounds(idx, v.shape) && |idx| <= |v.strides|
      ensures 0 <= Dot(idx, v.strides) && Dot(idx, v.strides) + elsize <= PayloadSize(dims, elsize, aligned)
    {
      InBoundsFitsPayload(dims, dtype, aligned, idx);
      DotScaled(idx, v.strides, d.stride[..|dims|], elsize);
      var off := Dot(idx, d.stride[..|dims|]);
      MulNonneg(off, elsize);
      assert (off + 1) * elsize == off * elsize + elsize;
    }
  }

  /** Without a zero extent create's view is the intended one. */
  lemma IntendedAgreesWithoutZero(dims: seq<int>, dtype: Dtype, aligned: bool, fileSize: int)
    requires LayoutDefined(dims, dtype.elsize, aligned)
    ensures (forall i :: 0 <= i < |dims| ==> dims[i] != 0) <==>
      CreateView(dims, dtype, aligned, fileSize) == IntendedCreateView(dims, dtype, aligned, fileSize)
  {
    CreateViewFacts(dims, dtype, aligned, fileSize);
  }

  /** So, when no extent is zero, every element of the view create returns
      lies inside the payload. */
  lemma CreateViewWithinPayload(dims: seq<int>, dtype: Dtype, aligned: bool, fileSize: int)
    requires LayoutDefined(dims, dtype.elsize, aligned) && dtype.elsize > 0
    requires forall i :: 0 <= i < |dims| ==> dims[i] != 0
    ensures ElementsWithin(CreateView(dims, dtype, aligned, fileSize), dtype.elsize,
                           PayloadSize(dims, dtype.elsize, aligned))
  {
    IntendedAgreesWithoutZero(dims, dtype, aligned, fileSize);
    IntendedViewWithinPayload(dims, dtype, aligned, fileSize);
  }

  /** A zero extent past the first truncates create's view at it: for the
      extents [3, 0, 5] of doubles the view is one-dimensional with shape
      [3] and byte stride 0 over an empty payload, so its elements lie
      past the payload. */
  lemma ZeroExtentEscapesPayload(fileSize: int)
    ensures var dims, dtype := [3, 0, 5], Dtype(NpyDouble, 8);
      var v := CreateView(dims, dtype, false, fileSize);
      && v.ndims == 1 && v.shape == [3] && v.strides == [0]
      && PayloadSize(dims, 8, false) == 0
      && !ElementsWithin(v, 8, PayloadSize(dims, 8, false))
  {
    var dims, dtype := [3, 0, 5], Dtype(NpyDouble, 8);
    var d := CreateDescr(dims, dtype, false);
    CreateViewFacts(dims, dtype, false, fileSize);
    assert FirstZero(dims) == 1;
    assert d.stride[0] == Product(dims[1..]) == 0;
    var v := CreateView(dims, dtype, false, fileSize);
    assert SizeExtents(dims, 8, false) == dims;
    assert Product(dims) == 0 by { assert dims[1..][1..] == [5]; }
    assert InBounds([0], v.shape);
    assert Dot([0], v.strides) == 0;
  }

  /** A single zero extent makes the view zero-dimensional: one element of
      `elsize` bytes over an empty payload. */
  lemma ZeroLeadingExtentEscapesPayload(dtype: Dtype, fileSize: int)
    requires dtype.elsize > 0
    ensures var v := CreateView([0], dtype, false, fileSize);
      && v.ndims == 0 && PayloadSize([0], dtype.elsize, false) == 0
      && !ElementsWithin(v, dtype.elsize, PayloadSize([0], dtype.elsize, false))
  {
    var v := CreateView([0], dtype, false, fileSize);
    CreateViewFacts([0], dtype, false, fileSize);
    assert SizeExtents([0], dtype.elsize, false) == [0];
    assert Product([0]) == 0;
    assert InBounds([], v.shape);
    assert Dot([], v.strides) == 0;
  }
}
