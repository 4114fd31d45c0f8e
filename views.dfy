/** The values that SharedArray hands back to its caller: an error of one of
    the three Python exception classes it raises, or the description of the
    array view it passes on to the array library. */
module Views {

  /** The exceptions raised by create and attach. An OSError carries the
      file name it was raised for (the errno text is not modelled). */
  datatype Error =
    | ValueError(message: string)
    | IOError(message: string)
    | OSError(filename: string)

  datatype Result<T> = Ok(value: T) | Err(error: Error)

  /** The capability flags passed to the array library: NPY_ARRAY_CARRAY
      (aligned, writeable and C-contiguous) or NPY_ARRAY_BEHAVED (aligned and
      writeable only). */
  datatype Capability = CArray | Behaved

  /** An element type as the array library describes it: its type code and
      its element size in bytes. */
  datatype Dtype = Dtype(typeNum: int, elsize: int)

  /** The view handed to the array library: dimension count, shape, type
      code, byte strides, the offset of the data inside the mapping, the
      size of the whole mapping and the capability tag. */
  datatype View = View(
    ndims: nat,
    shape: seq<int>,
    typeNum: int,
    strides: seq<int>,
    dataOffset: nat,
    mapSize: int,
    flags: Capability)

  /** The system calls whose failure the create and attach paths handle. */
  datatype Syscall = Open | Ftruncate | Fstat | Mmap

  /** The message of the IOError raised for a file that holds no array. */
  const NoSharedArray: string := "No SharedArray at this address"

  /** Decimal rendering of an integer, as printf's `%d` writes it. */
  function FormatInt(i: int): string
  {
    if i < 0 then "-" + DecimalDigits(-i) else DecimalDigits(i)
  }

  function DecimalDigits(n: nat): string
  {
    if n < 10 then ["0123456789"[n]] else DecimalDigits(n / 10) + ["0123456789"[n % 10]]
  }
}
