/** The create and attach protocols over an abstract host: a namespace of
    backing files, each reduced to its length and the header its first 128
    bytes hold, and this process's live shared mappings. */
module Protocol {
  import opened Descriptor
  import opened Views
  import opened Create
  import opened Attach
  import RoundTrip

  /** A backing file: its size in bytes and the header at offset 0 (the
      payload bytes are not modelled). */
  datatype Region = Region(size: int, header: Descr)

  /** A live MAP_SHARED mapping of a whole file. */
  datatype Mapping = Mapping(name: string, size: int)

  /** The create call passes its two argument checks. */
  predicate Validated(dims: seq<int>, dtype: Dtype, actualMaxDims: int)
  {
    |dims| <= actualMaxDims && SupportedType(dtype.typeNum)
  }

  class Host {
    var files: map<string, Region>
    var mappings: seq<Mapping>

    constructor (existing: map<string, Region>)
      ensures files == existing && mappings == []
    {
      files := existing;
      mappings := [];
    }

    /** do_create. `actualMaxDims` is ACTUAL_MAXDIMS, `failing` the system
        calls that fail on this run, and `slack` how far the platform rounds
        the file up past the size ftruncate asked for. */
    method Create(name: string, dims: seq<int>, dtype: Dtype, aligned: bool,
                  actualMaxDims: int, failing: set<Syscall>, slack: nat) returns (r: Result<View>)
      requires actualMaxDims <= MaxDims
      requires SupportedType(dtype.typeNum) ==> ElsizeFitsLine(dtype.elsize)
      modifies this
      // the argument checks come first and touch nothing
      ensures |dims| > actualMaxDims ==>
        r == Err(ValueError("number of dimensions must be within [0, " + FormatInt(actualMaxDims) + "]"))
      ensures |dims| <= actualMaxDims && !SupportedType(dtype.typeNum) ==>
        r == Err(ValueError("Unsupported data type " + FormatInt(dtype.typeNum)))
      ensures !Validated(dims, dtype, actualMaxDims) ==> files == old(files) && mappings == old(mappings)
      ensures r.Err? && r.error.ValueError? <==> !Validated(dims, dtype, actualMaxDims)
      // exclusive creation: an existing name is never overwritten
      ensures Validated(dims, dtype, actualMaxDims) && (name in old(files) || Open in failing) ==>
        r == Err(OSError(name)) && files == old(files) && mappings == old(mappings)
      // once created, the file stays behind whatever fails next
      ensures Validated(dims, dtype, actualMaxDims) && name !in old(files) && Open !in failing ==>
        var mapSize := MapSize(dims, dtype.elsize, aligned);
        var grown := mapSize + slack;
        // a length that reads as a negative off_t makes ftruncate fail (EINVAL)
        && (Ftruncate in failing || mapSize < 0 ==>
              r == Err(OSError(name)) && files == old(files)[name := Region(0, ZeroDescr)]
              && mappings == old(mappings))
        && (Ftruncate !in failing && mapSize >= 0 && (Fstat in failing || Mmap in failing) ==>
              r == Err(OSError(name)) && files == old(files)[name := Region(grown, ZeroDescr)]
              && mappings == old(mappings))
        && (Ftruncate !in failing && mapSize >= 0 && Fstat !in failing && Mmap !in failing ==>
              && r == Ok(CreateView(dims, dtype, aligned, grown))
              && files == old(files)[name := Region(grown, CreateDescr(dims, dtype, aligned))]
              && mappings == old(mappings) + [Mapping(name, grown)])
    {
      if |dims| > actualMaxDims {
        return Err(ValueError("number of dimensions must be within [0, " + FormatInt(actualMaxDims) + "]"));
      }
      if !SupportedType(dtype.typeNum) {
        return Err(ValueError("Unsupported data type " + FormatInt(dtype.typeNum)));
      }
      var alignedDims := AlignDims(dims, dtype.elsize, aligned);
      var size := LayoutSize(dims, dtype.elsize, aligned, alignedDims);
      var mapSize := size + DescrSize;

      // open_file with O_RDWR | O_CREAT | O_EXCL
      if name in files || Open in failing {
        return Err(OSError(name));
      }
      files := files[name := Region(0, ZeroDescr)];
      if Ftruncate in failing || mapSize < 0 {
        return Err(OSError(name));
      }
      var fileSize := mapSize + slack;
      files := files[name := Region(fileSize, ZeroDescr)];
      if Fstat in failing {
        return Err(OSError(name));
      }
      if Mmap in failing {
        return Err(OSError(name));
      }
      mappings := mappings + [Mapping(name, fileSize)];

      var descr := WriteDescr(dims, dtype, aligned, alignedDims);
      files := files[name := Region(fileSize, descr)];
      var ndims := ArrayDescrNdims(descr);
      var stridesBytes := StridesBytes(descr.stride, ndims, dtype.elsize);
      r := Ok(View(ndims, descr.shape[..ndims], descr.typenum, stridesBytes[..ndims],
                   DescrSize, fileSize, Behaved));
    }

    /** do_attach. `toPyType` is `to_pytype`, `elsizeOf` the element size
        of a type code, `failing` the system calls that fail on this run. */
    method Attach(name: string, toPyType: int -> int, elsizeOf: int -> int, failing: set<Syscall>)
      returns (r: Result<View>)
      modifies this`mappings
      ensures name !in files || Open in failing ==>
        r == Err(OSError(name)) && mappings == old(mappings)
      ensures name in files && Open !in failing && Fstat in failing ==>
        r == Err(OSError(name)) && mappings == old(mappings)
      // a short file is refused before anything is mapped
      ensures name in files && Open !in failing && Fstat !in failing && files[name].size < DescrSize ==>
        r == Err(IOError(NoSharedArray)) && mappings == old(mappings)
      ensures name in files && Open !in failing && Fstat !in failing && files[name].size >= DescrSize ==>
        && (Mmap in failing ==> r == Err(OSError(name)) && mappings == old(mappings))
        && (Mmap !in failing ==>
              && r == AttachOutcome(files[name].size, files[name].header, toPyType, elsizeOf)
              // a bad magic unmaps again; an unsupported type leaves the mapping live
              && (files[name].header.magic != SharedArrayMagic ==> mappings == old(mappings))
              && (files[name].header.magic == SharedArrayMagic ==>
                    mappings == old(mappings) + [Mapping(name, files[name].size)]))
    {
      if name !in files || Open in failing {
        return Err(OSError(name));
      }
      if Fstat in failing {
        return Err(OSError(name));
      }
      var region := files[name];
      if region.size < DescrSize {
        return Err(IOError(NoSharedArray));
      }
      var mapSize := region.size;
      if Mmap in failing {
        return Err(OSError(name));
      }
      mappings := mappings + [Mapping(name, mapSize)];

      var descr := region.header;
      if descr.magic != SharedArrayMagic {
        // munmap of the mapping just made
        mappings := mappings[..|mappings| - 1];
        return Err(IOError(NoSharedArray));
      }
      var t := toPyType(descr.typenum);
      if !SupportedType(t) {
        return Err(ValueError("Unsupported data type " + FormatInt(t)));
      }

      var elsize := elsizeOf(t);
      var ndims := ArrayDescrNdims(descr);
      var stridesBytes := StridesBytes(descr.stride, ndims, elsize);
      var contig := IsContiguous(descr, ndims);
      r := Ok(View(ndims, descr.shape[..ndims], t, stridesBytes[..ndims],
                   DescrSize, mapSize, if contig then CArray else Behaved));
    }
  }

  /** A create followed by an attach of the same name sees create's shape
      and byte strides again, tagged CARRAY when the layout is unaligned.
      The payload is not modelled, so element values are not compared. */
  method CreateThenAttach(host: Host, name: string, dims: seq<int>, dtype: Dtype, aligned: bool,
                          actualMaxDims: int, slack: nat, toPyType: int -> int, elsizeOf: int -> int)
    returns (created: Result<View>, attached: Result<View>)
    requires actualMaxDims <= MaxDims
    requires SupportedType(dtype.typeNum) ==> ElsizeFitsLine(dtype.elsize)
    requires forall i :: 0 <= i < |dims| ==> dims[i] >= 0
    requires SupportedType(toPyType(dtype.typeNum)) && elsizeOf(toPyType(dtype.typeNum)) == dtype.elsize
    modifies host
    ensures created.Ok? ==>
      && attached.Ok?
      && attached.value.ndims == created.value.ndims
      && attached.value.shape == created.value.shape
      && attached.value.strides == created.value.strides
      && attached.value.dataOffset == created.value.dataOffset == DescrSize
      && (!aligned ==> attached.value.flags == CArray)
  {
    created := host.Create(name, dims, dtype, aligned, actualMaxDims, {}, slack);
    attached := host.Attach(name, toPyType, elsizeOf, {});
    if created.Ok? {
      RoundTrip.CreateThenAttach(dims, dtype, aligned, MapSize(dims, dtype.elsize, aligned) + slack,
                                 toPyType, elsizeOf);
    }
  }
}
