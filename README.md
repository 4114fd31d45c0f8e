# SharedArray header and layout, in Dafny

SharedArray keeps a NumPy array in a named, memory-mapped file so that
several processes can share it. Every such file starts with a 128-byte
header, `struct array_descr`. The header holds:

- a magic word;
- the NumPy element type code;
- seven `int64_t` shape slots, zero-filled past the used dimensions;
- seven `int64_t` element-stride slots;
- two pad words.

The element data follows the header.

This project models the core of the C extension:

- the header itself and the scan that derives the dimension count from it;
- the whitelist of element types;
- the create path's layout engine: cache-line rounding of extents when
  `aligned` is set, the payload size, the row-major element strides, and
  the header create writes;
- the ordered checks create performs before it creates anything;
- the attach path: its ordered checks, the recomputed byte strides and
  the contiguity test that picks the capability tag (CARRAY or BEHAVED);
- the round trip between the two paths.

The modules follow the source files:

- `Descriptor` (`descriptor.dfy`) holds `src/shared_array.h`.
- `Create` (`create.dfy`) holds the layout and header writing of
  `src/shared_array_create.c`.
- `Attach` (`attach.dfy`) holds the checks and decoding of
  `src/shared_array_attach.c`.
- `Views` (`views.dfy`) holds what both paths hand to NumPy: a view
  record with dimension count, shape, type, byte strides, data offset,
  mapping size and tag, or a Python exception.
- `RoundTrip` (`roundtrip.dfy`) relates the two paths.
- `Protocol` (`protocol.dfy`) runs `do_create` and `do_attach` over a
  `Host` object. The host's fields are a map from file name to file and
  the list of live mappings, and both methods update them in place.

The header is a record, `Descriptor.Descr`, with its shape and stride slots
as seven-element sequences. Two functions compute what the C functions of the
same name compute:

- `Create.Align64Roundup` is `align64_roundup`, written with `CDiv` and
  `CMod`, C's truncating `/` and `%`;
- `Descriptor.SupportedType` is the `supported_type` switch.

Each loop of the C code is a Dafny method with a loop of its own, proved
equal to a specification function. The properties are lemmas about those
functions:

- `FirstZero`/`Ndims` for the dimension count;
- `AlignedDims`, `SizeExtents`, `PayloadSize`, `MapSize`,
  `RowMajorStrides` and `CreateDescr` for create;
- `RowMajor`, `Tag` and `AttachOutcome` for attach.

Some inputs come from outside the modelled files and are parameters:

- `ACTUAL_MAXDIMS` is `actualMaxDims`;
- `to_pytype` is `toPyType`;
- the element size NumPy gives a type code is `elsizeOf`.

The operating system is modelled in two parameters:

- `failing` is the set of system calls (`open`, `ftruncate`, `fstat`,
  `mmap`) that fail on this run;
- `slack` is how far the platform rounds the file up past the size
  asked of `ftruncate`.

NumPy type codes take the values of NumPy 1.x's `enum NPY_TYPES`.

## Model

| member | source | states |
|---|---|---|
| Descriptor.DescrLayout | src/shared_array.h:39-47 | the fields pack with no padding into 4+4+7·8+7·8+2·4 = 128 bytes, with both int64 arrays on 8-byte boundaries, so the static size assertion holds |
| Descriptor.FirstZero | src/shared_array.h:53 | the count is at most the length, every entry before it is non-zero, and the entry at it (if any) is zero |
| Descriptor.FirstZeroUnique | src/shared_array.h:49-55 | any count with that characterisation is the count |
| Descriptor.FirstZeroPadded | src/shared_array.h:53 | appending zero slots to the extents does not change the count |
| Descriptor.FirstZeroFull | src/shared_array.h:53 | the count reaches the end exactly when no entry is zero |
| Descriptor.ArrayDescrNdims | src/shared_array.h:49-55 | the scan loop, with its `& INT_MAX` mask, returns at most 7, with all earlier shape slots non-zero and the slot at the result zero unless it is 7; so it equals `Ndims` |
| Descriptor.StridesBytes | src/shared_array_attach.c:99-101 | the first n byte strides are stride[i]·elsize and the remaining slots stay zero (the same loop appears at src/shared_array_create.c:128-130) |
| Descriptor.SupportedTypeExactly | src/shared_array.h:57-93 | the switch accepts exactly the 18 numeric codes (NPY_BOOL..NPY_CLONGDOUBLE and NPY_HALF) and refuses every other code, the explicitly listed time, string, object, void and marker codes included |
| Create.LineElems | src/shared_array_create.c:38 | `64/elsz` lies in 1..64 and that many elements fit in 64 bytes |
| Create.Align64RoundupBounds | src/shared_array_create.c:35-41 | for val ≥ 0 the result is a multiple of `64/elsz`, at least val and below val plus one unit; a multiple comes back unchanged |
| Create.Align64RoundupLeast | src/shared_array_create.c:35-41 | no multiple of the unit that is ≥ val lies below the result |
| Create.Align64RoundupIdempotent | src/shared_array_create.c:35-41 | rounding a rounded value changes nothing |
| Create.AlignDims | src/shared_array_create.c:75-77 | the `aligned_dims` loop yields the extents (rounded when aligned), zero-filled to seven slots |
| Create.LayoutSize | src/shared_array_create.c:80-82 | the size loop yields elsize times extent 0 times every later extent (rounded when aligned) |
| Create.WriteShape | src/shared_array_create.c:119-120 | the shape slots hold the requested extents followed by zeros |
| Create.StrideAfter | src/shared_array_create.c:123-125 | the inner stride loop yields the product of the extents after i |
| Create.WriteStrides | src/shared_array_create.c:122-126 | the outer stride loop yields the row-major strides of the loop's extents, zero-filled |
| Create.WriteDescr | src/shared_array_create.c:113-126 | the header written is the compound literal's magic and type code with the shape and stride loops' results and zero pad words, i.e. `CreateDescr` |
| Create.AlignedDimsPadding | src/shared_array_create.c:75-77 | unaligned extents are the requested ones; each aligned extent is a multiple of `64/elsize`, at least the requested extent and less than one unit above it |
| Create.StrideRecurrence | src/shared_array_create.c:122-126 | the innermost written stride is 1 and every other stride is the next loop extent times the next stride |
| Create.CreateDescrFields | src/shared_array_create.c:113-120 | the header carries the magic, the type code and the requested extents, with zeros in every slot past the dimension count and in both pad words |
| Create.PayloadFromStride | src/shared_array_create.c:80-82 | the payload is elsize·dims[0]·stride[0], or one element for zero dimensions: dimension 0 is never padded |
| Create.PayloadNonneg | src/shared_array_create.c:80-86 | with non-negative extents and element size the payload is ≥ 0 and the mapping size is at least the header size |
| Create.CreateStridesOverSizeExtents | src/shared_array_create.c:122-126 | the written strides are also the row-major strides of the size loop's extents, since only extent 0 differs and no stride multiplies it |
| Create.RowMajorOffsetBound | src/shared_array_create.c:122-126 | under row-major strides every in-bounds index has an element offset in [0, product of the extents) |
| Create.InBoundsFitsPayload | src/shared_array_create.c:80-86 | every index in bounds of the requested extents addresses an element lying wholly inside the payload, and so inside the mapping create asks for (such an index exists only when no extent is zero) |
| Create.CreateViewFacts | src/shared_array_create.c:128-143 | the view create returns has as many dimensions as the extents before the first zero (all of them exactly when none is zero), that prefix as shape, byte strides stride[i]·elsize, data at offset 128 and the BEHAVED tag |
| Create.IntendedAgreesWithoutZero | src/shared_array_create.c:141-143 | the view create returns, whose dimension count comes from `array_descr_ndims`, equals the view with the requested count exactly when no requested extent is zero |
| Create.CreateViewWithinPayload | src/shared_array_create.c:80-143 | when no extent is zero, every index in bounds of the returned view's shape reaches, through its byte strides, an element lying wholly inside the payload |
| Create.ZeroExtentEscapesPayload | src/shared_array_create.c:119-143 | for extents [3, 0, 5] of doubles the returned view has shape [3] and byte stride 0 over an empty payload, so its elements lie outside the payload |
| Create.ZeroLeadingExtentEscapesPayload | src/shared_array_create.c:119-143 | for the single extent [0] the returned view is zero-dimensional, one element over an empty payload, which lies outside the payload |
| Create.IntendedViewWithinPayload | src/shared_array_create.c:80-143 | the view with the requested dimension count and all requested extents never addresses a byte outside the payload, for any extents |
| Attach.IsContiguous | src/shared_array_attach.c:105-112 | the loop reports contiguous exactly when every stride but the last is the next extent times the next stride |
| Attach.AttachCheckOrder | src/shared_array_attach.c:58-86 | a file shorter than the header or a wrong magic gives the IOError, whatever the rest holds; the ValueError comes exactly when both pass and the mapped type is unsupported; success exactly when all three pass |
| Attach.AttachViewFacts | src/shared_array_attach.c:96-117 | an accepted header yields the leading non-zero extents as shape, byte strides stride[i]·elsize of the mapped type, data at offset 128 over the whole file, and CARRAY exactly when the strides are row-major (always with at most one dimension) |
| RoundTrip.RowMajorFromTop | src/shared_array_attach.c:107-108 | strides passing the test equal the innermost stride times the product of the later extents |
| RoundTrip.RowMajorClosedForm | src/shared_array_attach.c:105-112 | the contiguity test holds exactly when every stride is the innermost stride times the product of the later extents |
| RoundTrip.UnalignedCreateIsContiguous | src/shared_array_create.c:122-126 | an unaligned header passes attach's contiguity test at every dimension count up to the requested one, so its tag is CARRAY |
| RoundTrip.AlignedContiguousIffUnpadded | src/shared_array_create.c:122-126 | with positive extents an aligned header gets CARRAY exactly when no extent past the first was padded |
| RoundTrip.CreateThenAttach | src/shared_array_attach.c:72-117 | attaching create's header in a file at least as large as create's request succeeds and gives create's view back (same dimension count, shape, byte strides, data offset and mapping size), with the type mapped through `to_pytype` and the tag from the contiguity test, CARRAY when unaligned |
| Protocol.Host.Create | src/shared_array_create.c:57-143 | the dimension check, then the type check, with their messages and nothing touched; then exclusive open (an existing name is kept); a file left behind at size 0 if ftruncate fails, which it does on a negative length, or at its grown size with a zero header if fstat or mmap fails; on success the file holds `CreateDescr`, the new mapping covers the grown size and the result is `CreateView` over it |
| Protocol.Host.Attach | src/shared_array_attach.c:48-117 | OSError for a missing file or a failed open or fstat, IOError for a short file, OSError for a failed mmap, all with no mapping left; otherwise `AttachOutcome` of the file, a bad magic unmapping again and an unsupported type leaving the mapping live |
| Protocol.CreateThenAttach | src/shared_array_attach.c:96-117 | on one host, a successful create followed by attach of the same name sees the same dimension count, shape, byte strides and data offset, tagged CARRAY when unaligned |

## Findings

| source | as written | input that shows it | evidently intended | confidence | as-written member | corrected member |
|---|---|---|---|---|---|---|
| src/shared_array_create.c:141 | the view create returns takes its dimension count from `array_descr_ndims`, which stops at the first zero extent, while the size loop multiplies a zero extent into a zero payload | extents [3, 0, 5] of doubles: a view of shape [3] with byte stride 0 over a 0-byte payload, all three elements on the bytes past the header; extents [0]: a zero-dimensional view of one element over a 0-byte payload | the view has the requested dimension count and extents, and so no element outside the payload | not executed | Create.ZeroExtentEscapesPayload | Create.IntendedViewWithinPayload |

The header format itself ends the shape at the first zero, so attach reads
such a file with the same truncated count. `Protocol.Host.Create` and the
round-trip lemmas therefore keep the view as written (`Create.CreateView`).
`Create.IntendedCreateView` is the corrected view, and
`Create.IntendedAgreesWithoutZero` shows that the two agree exactly when no
extent is zero.

## Left out

- The Python entry points (`shared_array_create` argument parsing, its default element type, the attach wrapper, `delete`, `list`) and the `MapOwner` type are glue around the modelled functions and are not part of this model. So is the release of a mapping when its array is freed: mappings are only added, except for the `munmap` that follows a bad magic.
- Real system calls are replaced by the `failing` and `slack` parameters. The errno text, file modes, `close` and file-descriptor handling are not modelled. An OSError carries only the file name.
- NumPy calls are not modelled. `PyArray_New` is assumed to succeed in both paths. Attach's `if(!array) return NULL` and its `abort()` on a missing dtype are left out, and so is create's unchecked result. `to_pytype` and the element size of a type are parameters.
- `ACTUAL_MAXDIMS` is defined outside the modelled files. It is the parameter `actualMaxDims`, which `Protocol.Host.Create` requires to be at most `SHARED_ARRAY_MAX_DIMS`.
- Protocol.Host.Create: requires, for a supported type, an element size in 1..64, so that `64/elsz` is defined (as it is for every numeric NumPy type). An element size of 0 or above 64 is not modelled.
- Byte representation: the header is a record, so host byte order and the bytes of the payload are not modelled. Element values are therefore not compared across the round trip.
- In-place writing: the C code writes the header directly into mapped memory. The model builds it in local arrays and stores it in the host's file map as a value, so aliasing between a mapping and its file is not modelled.
- Fixed-width arithmetic: `size_t`, `int64_t` and `long` products are unbounded integers here. While a product stays within ±2^63, the model's size is the value C's `size_t` arithmetic wraps to, read back as the `off_t` that `ftruncate` receives. Negative extents such as [-2, -3] give the same positive size in both. Where that `off_t` is negative, `Protocol.Host.Create` makes `ftruncate` fail, as it does with EINVAL. Products beyond ±2^63, which wrap differently, are not modelled.
- Create's `strides_bytes` loop calls `array_descr_ndims` on every iteration. The model scans once (`ArrayDescrNdims`) and passes the count to `StridesBytes`. The header does not change in between, so the count is the same.
- The fact that exactly 18 codes are supported is stated by `Descriptor.SupportedTypeExactly` as membership of a set and as a range of codes, not as a set cardinality.
- Concurrency between processes sharing a file is not modelled.
