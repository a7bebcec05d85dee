/** File: the wrapper's open flags, their translation to the library's
    H5F_ACC_* bits, and the constructor's open-then-create decision.
    H5Fopen and H5Fcreate are oracles from the access mode to the id they
    return (negative on failure). */
module Files {
  import opened Wrappers

  // File::OpenFlag (H5File.hpp is not part of this model; these are the
  // values of the library this wrapper descends from)
  const ReadOnly: bv32 := 0x00
  const ReadWrite: bv32 := 0x01
  const Truncate: bv32 := 0x02
  const Excl: bv32 := 0x04
  const Debug: bv32 := 0x08
  const Create: bv32 := 0x10

  // H5Fpublic.h
  const H5F_ACC_RDONLY: bv32 := 0x0000
  const H5F_ACC_RDWR: bv32 := 0x0001
  const H5F_ACC_TRUNC: bv32 := 0x0002
  const H5F_ACC_EXCL: bv32 := 0x0004
  const H5F_ACC_CREAT: bv32 := 0x0010

  /** convert_open_flag: one test and one `|=` per wrapper flag. */
  method ConvertOpenFlag(openFlags: bv32) returns (resOpen: bv32)
    ensures (resOpen & H5F_ACC_RDWR != 0) <==> (openFlags & ReadWrite != 0)
    ensures (resOpen & H5F_ACC_TRUNC != 0) <==> (openFlags & Truncate != 0)
    ensures (resOpen & H5F_ACC_EXCL != 0) <==> (openFlags & Excl != 0)
    ensures (resOpen & H5F_ACC_CREAT != 0) <==> (openFlags & Create != 0)
    ensures resOpen & !(H5F_ACC_RDWR | H5F_ACC_TRUNC | H5F_ACC_EXCL | H5F_ACC_CREAT) == 0
    ensures openFlags == 0 ==> resOpen == 0
  {
    resOpen := 0;
    if openFlags & ReadOnly != 0 {
      resOpen := resOpen | H5F_ACC_RDONLY;
    }
    if openFlags & ReadWrite != 0 {
      resOpen := resOpen | H5F_ACC_RDWR;
    }
    if openFlags & Create != 0 {
      resOpen := resOpen | H5F_ACC_CREAT;
    }
    if openFlags & Truncate != 0 {
      resOpen := resOpen | H5F_ACC_TRUNC;
    }
    if openFlags & Excl != 0 {
      resOpen := resOpen | H5F_ACC_EXCL;
    }
  }

  /** One call into the library. */
  datatype Call = Open(mode: bv32) | CreateCall(mode: bv32)

  /** The library as the constructor sees it. */
  datatype FileLibrary = FileLibrary(
    open: bv32 -> int,     // H5Fopen(filename, mode, fapl)
    create: bv32 -> int)   // H5Fcreate(filename, mode, H5P_DEFAULT, fapl)

  /** File(filename, openFlags, fapl): unless creation is required
      (Truncate or Excl), open first and stop on success; a failed open
      is an error without Create, and otherwise becomes an exclusive
      create, so that no existing file is clobbered. */
  method OpenFile(openFlags: bv32, lib: FileLibrary) returns (r: Result<int>, calls: seq<Call>)
    ensures var flags := openFlags & (ReadWrite | Create | Truncate | Excl);
      var mustCreate := flags & (Truncate | Excl) != 0;
      var openMode := flags & ReadWrite;
      var orCreate := flags & Create != 0;
      && (!mustCreate ==> |calls| > 0 && calls[0] == Open(openMode))
      && (!mustCreate && lib.open(openMode) >= 0 ==> calls == [Open(openMode)] && r == Ok(lib.open(openMode)))
      && (!mustCreate && lib.open(openMode) < 0 && !orCreate ==>
            calls == [Open(openMode)] && Raises(r, FileException))
      && (!mustCreate && lib.open(openMode) < 0 && orCreate ==>
            calls == [Open(openMode), CreateCall(H5F_ACC_EXCL)])
      && (mustCreate ==> calls == [CreateCall(flags & (Truncate | Excl))])
      && (|calls| > 0 && calls[|calls| - 1].CreateCall? ==>
            (lib.create(calls[|calls| - 1].mode) < 0 ==> Raises(r, FileException)) &&
            (lib.create(calls[|calls| - 1].mode) >= 0 ==> r == Ok(lib.create(calls[|calls| - 1].mode))))
  {
    var flags := ConvertOpenFlag(openFlags);
    var createMode := flags & (H5F_ACC_TRUNC | H5F_ACC_EXCL);
    var openMode := flags & (H5F_ACC_RDWR | H5F_ACC_RDONLY);
    var mustCreate := createMode > 0;
    var openOrCreate := (flags & H5F_ACC_CREAT) > 0;
    FlagBits(openFlags, flags);
    calls := [];
    if !mustCreate {
      var hid := lib.open(openMode);
      calls := calls + [Open(openMode)];
      if hid >= 0 {
        return Ok(hid), calls;
      }
      if openOrCreate {
        createMode := H5F_ACC_EXCL;
      } else {
        return Throw(FileException, "Unable to open file "), calls;
      }
    }
    var hid := lib.create(createMode);
    calls := calls + [CreateCall(createMode)];
    if hid < 0 {
      return Throw(FileException, "Unable to create file "), calls;
    }
    return Ok(hid), calls;
  }

  /** With the flag values above, the translated flags are the wrapper
      flags restricted to the four bits the library knows. */
  lemma FlagBits(openFlags: bv32, flags: bv32)
    requires (flags & H5F_ACC_RDWR != 0) <==> (openFlags & ReadWrite != 0)
    requires (flags & H5F_ACC_TRUNC != 0) <==> (openFlags & Truncate != 0)
    requires (flags & H5F_ACC_EXCL != 0) <==> (openFlags & Excl != 0)
    requires (flags & H5F_ACC_CREAT != 0) <==> (openFlags & Create != 0)
    requires flags & !(H5F_ACC_RDWR | H5F_ACC_TRUNC | H5F_ACC_EXCL | H5F_ACC_CREAT) == 0
    ensures flags == openFlags & (ReadWrite | Create | Truncate | Excl)
  {
  }

  /** The first scenarios of the open-mode tests: ReadWrite alone on a
      missing file fails without creating, and ReadWrite | Create then
      creates it exclusively. */
  method OpenModeExample() returns (failed: bool, created: bool, secondCalls: seq<Call>)
    ensures failed && created && secondCalls == [Open(H5F_ACC_RDWR), CreateCall(H5F_ACC_EXCL)]
  {
    var missing := FileLibrary(_ => -1, _ => 3);
    var r1, c1 := OpenFile(ReadWrite, missing);
    failed := r1.Err?;
    var r2, c2 := OpenFile(ReadWrite | Create, missing);
    created := r2.Ok?;
    secondCalls := c2;
  }
}
