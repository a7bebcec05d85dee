/** PropertyList: a handle on an HDF5 property list, its reference
    counting (on the same identifier table as Object), the class checks of
    FromId, and the dataset-creation queries and settings. The library's
    answers (H5Pcreate, H5Pget_class, H5Pget_chunk, H5Zfilter_avail,
    H5Pset_*) are parameters. */
module PropertyLists {
  import opened Wrappers
  import opened Objects
  import Paths
  import Compound

  // ---------------------------------------------------------------------
  // Property list categories and layouts
  // ---------------------------------------------------------------------

  datatype PropertyType =
    | ObjectCreate | FileCreate | FileAccess | DatasetCreate | DatasetAccess
    | DatasetXfer | GroupCreate | GroupAccess | DatatypeCreate | DatatypeAccess
    | StringCreate | AttributeCreate | ObjectCopy | LinkCreate | LinkAccess

  /** The library's predefined property list classes (H5P_OBJECT_CREATE, ...);
      their ids are only known at run time, so they are named here. */
  datatype PlistClass =
    | H5P_OBJECT_CREATE | H5P_FILE_CREATE | H5P_FILE_ACCESS | H5P_DATASET_CREATE
    | H5P_DATASET_ACCESS | H5P_DATASET_XFER | H5P_GROUP_CREATE | H5P_GROUP_ACCESS
    | H5P_DATATYPE_CREATE | H5P_DATATYPE_ACCESS | H5P_STRING_CREATE
    | H5P_ATTRIBUTE_CREATE | H5P_OBJECT_COPY | H5P_LINK_CREATE | H5P_LINK_ACCESS

  /** convert_plist_type. */
  function ConvertPlistType(t: PropertyType): PlistClass {
    match t
    case ObjectCreate => H5P_OBJECT_CREATE
    case FileCreate => H5P_FILE_CREATE
    case FileAccess => H5P_FILE_ACCESS
    case DatasetCreate => H5P_DATASET_CREATE
    case DatasetAccess => H5P_DATASET_ACCESS
    case DatasetXfer => H5P_DATASET_XFER
    case GroupCreate => H5P_GROUP_CREATE
    case GroupAccess => H5P_GROUP_ACCESS
    case DatatypeCreate => H5P_DATATYPE_CREATE
    case DatatypeAccess => H5P_DATATYPE_ACCESS
    case StringCreate => H5P_STRING_CREATE
    case AttributeCreate => H5P_ATTRIBUTE_CREATE
    case ObjectCopy => H5P_OBJECT_COPY
    case LinkCreate => H5P_LINK_CREATE
    case LinkAccess => H5P_LINK_ACCESS
  }

  /** The category a predefined class belongs to. */
  function PropertyTypeOf(c: PlistClass): (t: PropertyType)
    ensures ConvertPlistType(t) == c
  {
    match c
    case H5P_OBJECT_CREATE => ObjectCreate
    case H5P_FILE_CREATE => FileCreate
    case H5P_FILE_ACCESS => FileAccess
    case H5P_DATASET_CREATE => DatasetCreate
    case H5P_DATASET_ACCESS => DatasetAccess
    case H5P_DATASET_XFER => DatasetXfer
    case H5P_GROUP_CREATE => GroupCreate
    case H5P_GROUP_ACCESS => GroupAccess
    case H5P_DATATYPE_CREATE => DatatypeCreate
    case H5P_DATATYPE_ACCESS => DatatypeAccess
    case H5P_STRING_CREATE => StringCreate
    case H5P_ATTRIBUTE_CREATE => AttributeCreate
    case H5P_OBJECT_COPY => ObjectCopy
    case H5P_LINK_CREATE => LinkCreate
    case H5P_LINK_ACCESS => LinkAccess
  }

  /** Every category has its own class, and every class is reached. */
  lemma ConvertPlistTypeBijective(s: PropertyType, t: PropertyType, c: PlistClass)
    ensures ConvertPlistType(s) == ConvertPlistType(t) ==> s == t
    ensures PropertyTypeOf(ConvertPlistType(s)) == s
    ensures exists u :: ConvertPlistType(u) == c
  {
    assert ConvertPlistType(PropertyTypeOf(c)) == c;
  }

  // H5D_layout_t
  const H5D_LAYOUT_ERROR: int := -1
  const H5D_COMPACT: int := 0
  const H5D_CONTIGUOUS: int := 1
  const H5D_CHUNKED: int := 2
  const H5D_VIRTUAL: int := 3

  /** LayoutType, with Unknown for static_cast<LayoutType>(-1). */
  datatype LayoutType = Compact | Contiguous | Chunked | Virtual | Unknown

  /** _convert_layout_type. */
  function ConvertLayoutType(code: int): (l: LayoutType)
    ensures l == Unknown <==> code !in {H5D_COMPACT, H5D_CONTIGUOUS, H5D_CHUNKED, H5D_VIRTUAL}
  {
    if code == H5D_COMPACT then Compact
    else if code == H5D_CONTIGUOUS then Contiguous
    else if code == H5D_CHUNKED then Chunked
    else if code == H5D_VIRTUAL then Virtual
    else Unknown
  }

  function LayoutCode(l: LayoutType): (code: int)
    requires l != Unknown
    ensures ConvertLayoutType(code) == l
  {
    match l
    case Compact => H5D_COMPACT
    case Contiguous => H5D_CONTIGUOUS
    case Chunked => H5D_CHUNKED
    case Virtual => H5D_VIRTUAL
  }

  /** isCompact, isContiguous, isChunked, isVirtual, given what H5Pget_layout
      reports. */
  predicate IsCompact(code: int) { ConvertLayoutType(code) == Compact }
  predicate IsContiguous(code: int) { ConvertLayoutType(code) == Contiguous }
  predicate IsChunked(code: int) { ConvertLayoutType(code) == Chunked }
  predicate IsVirtual(code: int) { ConvertLayoutType(code) == Virtual }

  function LayoutHits(code: int): nat {
    (if IsCompact(code) then 1 else 0) + (if IsContiguous(code) then 1 else 0) +
    (if IsChunked(code) then 1 else 0) + (if IsVirtual(code) then 1 else 0)
  }

  /** For each known layout exactly one of the four queries holds; for
      anything else (an H5Pget_layout error included) none does. */
  lemma LayoutQueriesExclusive(code: int)
    ensures LayoutHits(code) == if code in {H5D_COMPACT, H5D_CONTIGUOUS, H5D_CHUNKED, H5D_VIRTUAL} then 1 else 0
    ensures IsCompact(code) <==> code == H5D_COMPACT
    ensures IsContiguous(code) <==> code == H5D_CONTIGUOUS
    ensures IsChunked(code) <==> code == H5D_CHUNKED
    ensures IsVirtual(code) <==> code == H5D_VIRTUAL
  {
  }

  // ---------------------------------------------------------------------
  // The handle
  // ---------------------------------------------------------------------

  /** H5P_DEFAULT: the default property list, never closed. */
  const H5P_DEFAULT: int := 0

  /** What the destructor does to the counts: H5Pclose, except on
      H5P_DEFAULT. */
  function Release(refs: map<int, nat>, hid: int): (m: map<int, nat>)
    ensures hid == H5P_DEFAULT ==> m == refs
    ensures hid != H5P_DEFAULT ==> m == Dec(refs, hid)
  {
    if hid == H5P_DEFAULT then refs else Dec(refs, hid)
  }

  class PropertyList {
    /** The template argument T. */
    const kind: PropertyType
    const ids: IdTable
    var hid: int

    /** PropertyList(hid): adopts the id without touching its count. */
    constructor FromHid(ids: IdTable, kind: PropertyType, hid: int)
      ensures this.ids == ids && this.kind == kind && this.hid == hid
    {
      this.ids := ids;
      this.kind := kind;
      this.hid := hid;
    }

    /** PropertyList() through initializeId: H5Pcreate of the category's
        class, which hands out a fresh id or a negative code. */
    static method Create(ids: IdTable, kind: PropertyType, pcreate: PlistClass -> int)
      returns (r: Result<PropertyList>)
      requires ids.Valid()
      requires var id := pcreate(ConvertPlistType(kind)); id < 0 || (id !in ids.refs && id != H5P_DEFAULT)
      modifies ids`refs
      ensures ids.Valid()
      ensures r.Ok? <==> pcreate(ConvertPlistType(kind)) >= 0
      ensures r.Err? ==> r.error.kind == PropertyException && ids.refs == old(ids.refs)
      ensures r.Ok? ==>
        (fresh(r.value) && r.value.ids == ids && r.value.kind == kind &&
         r.value.hid == pcreate(ConvertPlistType(kind)) &&
         ids.refs == old(ids.refs)[r.value.hid := 1])
    {
      var id := pcreate(ConvertPlistType(kind));
      if id < 0 {
        return Throw(PropertyException, "Unable to create property list");
      }
      ids.Register(id);
      var p := new PropertyList.FromHid(ids, kind, id);
      return Ok(p);
    }

    /** The copy constructor: shares the id through getId(true). */
    constructor Copy(other: PropertyList)
      requires other.ids.Valid()
      modifies other.ids`refs
      ensures ids == other.ids && kind == other.kind && hid == other.hid && ids.Valid()
      ensures ids.refs == Inc(old(other.ids.refs), other.hid)
    {
      ids := other.ids;
      kind := other.kind;
      hid := other.hid;
      new;
      var _ := ids.IncRef(hid);
    }

    /** The move constructor: takes the id over, counts unchanged. */
    constructor Move(other: PropertyList)
      modifies other`hid
      ensures ids == other.ids && kind == other.kind && hid == old(other.hid)
      ensures other.hid == H5I_INVALID_HID
    {
      ids := other.ids;
      kind := other.kind;
      hid := other.hid;
      new;
      other.hid := H5I_INVALID_HID;
    }

    /** Copy assignment as written: takes the other id with a new
        reference and forgets the old one without giving its reference
        back, even when assigning to itself. */
    method CopyAssignAsWritten(other: PropertyList)
      requires ids == other.ids && ids.Valid()
      modifies this`hid, ids`refs
      ensures ids.Valid()
      ensures hid == old(other.hid) && ids.refs == Inc(old(ids.refs), old(other.hid))
    {
      var h := other.hid;
      var _ := ids.IncRef(h);
      hid := h;
    }

    /** Copy assignment as intended: a no-op on itself; otherwise the
        other id gains a reference and the old one is released as the
        destructor would. */
    method CopyAssign(other: PropertyList)
      requires ids == other.ids && ids.Valid()
      modifies this`hid, ids`refs
      ensures ids.Valid()
      ensures this == other ==> hid == old(hid) && ids.refs == old(ids.refs)
      ensures this != other ==> hid == old(other.hid) && ids.refs == Release(Inc(old(ids.refs), old(other.hid)), old(hid))
    {
      if this != other {
        var old_hid := hid;
        var _ := ids.IncRef(other.hid);
        hid := other.hid;
        if old_hid != H5P_DEFAULT {
          var _ := ids.DecRef(old_hid);
        }
      }
    }

    /** Move assignment as written: takes the other id and invalidates the
        source, never releasing the old id; on itself it ends invalid. */
    method MoveAssignAsWritten(other: PropertyList)
      modifies this`hid, other`hid
      ensures other.hid == H5I_INVALID_HID
      ensures this != other ==> hid == old(other.hid)
    {
      hid := other.hid;
      other.hid := H5I_INVALID_HID;
    }

    /** Move assignment as intended: a no-op on itself; otherwise the old id
        is released and the other's is taken over. */
    method MoveAssign(other: PropertyList)
      requires ids == other.ids && ids.Valid()
      modifies this`hid, other`hid, ids`refs
      ensures ids.Valid()
      ensures this == other ==> hid == old(hid) && ids.refs == old(ids.refs)
      ensures this != other ==>
        hid == old(other.hid) && other.hid == H5I_INVALID_HID && ids.refs == Release(old(ids.refs), old(hid))
    {
      if this != other {
        if hid != H5P_DEFAULT {
          var _ := ids.DecRef(hid);
        }
        hid := other.hid;
        other.hid := H5I_INVALID_HID;
      }
    }

    /** The destructor: H5Pclose unless the id is H5P_DEFAULT (closing an
        id that is not live changes nothing). */
    method Destroy()
      requires ids.Valid()
      modifies ids`refs
      ensures ids.Valid()
      ensures ids.refs == Release(old(ids.refs), hid)
    {
      if hid != H5P_DEFAULT {
        var _ := ids.DecRef(hid);
      }
    }

    /** getId(increaseRefCount). */
    method GetId(increaseRefCount: bool) returns (id: int)
      requires ids.Valid()
      modifies ids`refs
      ensures ids.Valid() && id == hid
      ensures ids.refs == if increaseRefCount then Inc(old(ids.refs), hid) else old(ids.refs)
    {
      if increaseRefCount {
        var _ := ids.IncRef(hid);
      }
      id := hid;
    }

    /** getObjectType: the template argument. */
    function GetObjectType(): PropertyType
      reads this
    {
      kind
    }

    /** DataSetCreateProps::FromId and DataSetAccessProps::FromId: the class
        H5Pget_class reports (None when it fails) must be the category's
        own; the reference is taken iff asked for. */
    static method FromId(ids: IdTable, id: int, expected: PropertyType, increaseRefCount: bool,
                         propClass: Option<PlistClass>)
      returns (r: Result<PropertyList>)
      requires expected == DatasetCreate || expected == DatasetAccess
      requires ids.Valid()
      modifies ids`refs
      ensures ids.Valid()
      ensures r.Ok? <==> propClass == Some(ConvertPlistType(expected))
      ensures r.Err? ==> r.error.kind == PropertyException && ids.refs == old(ids.refs)
      ensures r.Ok? ==>
        (fresh(r.value) && r.value.ids == ids && r.value.hid == id &&
         r.value.GetObjectType() == expected)
      ensures r.Ok? ==> ids.refs == if increaseRefCount then Inc(old(ids.refs), id) else old(ids.refs)
    {
      if propClass.None? {
        return Throw(PropertyException, "Unable to get property class");
      }
      if propClass.value != ConvertPlistType(expected) {
        return Throw(PropertyException, "Property id is of different class");
      }
      if increaseRefCount {
        var _ := ids.IncRef(id);
      }
      var p := new PropertyList.FromHid(ids, expected, id);
      return Ok(p);
    }
  }

  /** LinkCreateProps(): a new link-creation list with create-intermediate-
      group switched on. `setIntermediate` is H5Pset_create_intermediate_group
      on the new list; when it fails, the list's destructor closes the id. */
  method NewLinkCreateProps(ids: IdTable, pcreate: PlistClass -> int, setIntermediate: nat -> int)
    returns (r: Result<PropertyList>, requested: seq<nat>)
    requires ids.Valid()
    requires var id := pcreate(H5P_LINK_CREATE); id < 0 || (id !in ids.refs && id != H5P_DEFAULT)
    modifies ids`refs
    ensures ids.Valid()
    ensures r.Ok? <==> pcreate(H5P_LINK_CREATE) >= 0 && setIntermediate(1) >= 0
    ensures pcreate(H5P_LINK_CREATE) >= 0 ==> requested == [1]
    ensures r.Err? ==> r.error.kind == PropertyException && ids.refs == old(ids.refs)
    ensures r.Ok? ==>
      (r.value.kind == LinkCreate && r.value.hid == pcreate(H5P_LINK_CREATE) &&
       ids.refs == old(ids.refs)[r.value.hid := 1])
  {
    requested := [];
    var p :- PropertyList.Create(ids, LinkCreate, pcreate);
    requested := [1];
    if setIntermediate(1) < 0 {
      p.Destroy();
      assert ids.refs == old(ids.refs)[p.hid := 1] - {p.hid};
      assert ids.refs == old(ids.refs);
      return Throw(PropertyException, "Unable to set create intermediate group property"), requested;
    }
    return Ok(p), requested;
  }

  /** a = b on two lists holding ids 5 and 6 (one reference each), then
      both destroyed: as written id 5 stays open with nobody holding it. */
  method CopyAssignLeaks() returns (left: map<int, nat>)
    ensures left == map[5 := 1]
  {
    var ids := new IdTable(map[5 := 1, 6 := 1], map[], map[]);
    var a := new PropertyList.FromHid(ids, DatasetCreate, 5);
    var b := new PropertyList.FromHid(ids, DatasetCreate, 6);
    a.CopyAssignAsWritten(b);
    assert ids.refs == map[5 := 1, 6 := 2];
    a.Destroy();
    assert ids.refs == map[5 := 1, 6 := 1];
    b.Destroy();
    left := ids.refs;
  }

  /** The same with the intended copy assignment: every id is closed. */
  method CopyAssignCloses() returns (left: map<int, nat>)
    ensures left == map[]
  {
    var ids := new IdTable(map[5 := 1, 6 := 1], map[], map[]);
    var a := new PropertyList.FromHid(ids, DatasetCreate, 5);
    var b := new PropertyList.FromHid(ids, DatasetCreate, 6);
    a.CopyAssign(b);
    assert ids.refs == map[6 := 2];
    a.Destroy();
    assert ids.refs == map[6 := 1];
    b.Destroy();
    left := ids.refs;
  }

  /** a = std::move(b) on the same two lists, then both destroyed: as
      written id 5 leaks. */
  method MoveAssignLeaks() returns (left: map<int, nat>)
    ensures left == map[5 := 1]
  {
    var ids := new IdTable(map[5 := 1, 6 := 1], map[], map[]);
    var a := new PropertyList.FromHid(ids, DatasetCreate, 5);
    var b := new PropertyList.FromHid(ids, DatasetCreate, 6);
    a.MoveAssignAsWritten(b);
    a.Destroy();
    assert ids.refs == map[5 := 1];
    b.Destroy();
    left := ids.refs;
  }

  /** The same with the intended move assignment: nothing leaks. */
  method MoveAssignCloses() returns (left: map<int, nat>)
    ensures left == map[]
  {
    var ids := new IdTable(map[5 := 1, 6 := 1], map[], map[]);
    var a := new PropertyList.FromHid(ids, DatasetCreate, 5);
    var b := new PropertyList.FromHid(ids, DatasetCreate, 6);
    a.MoveAssign(b);
    assert ids.refs == map[6 := 1];
    a.Destroy();
    b.Destroy();
    left := ids.refs;
  }

  // ---------------------------------------------------------------------
  // DataSetCreateProps
  // ---------------------------------------------------------------------

  /** getChunk(max_ndims): `dims` is the zero-initialised buffer after
      H5Pget_chunk (status) filled it; the dimensions are read up to the
      first zero. */
  method GetChunk(maxNdims: nat, status: int, dims: array<u64>) returns (r: Result<seq<u64>>)
    requires dims.Length == maxNdims
    ensures r.Err? <==> status < 0
    ensures r.Err? ==> r.error.kind == PropertyException
    ensures r.Ok? ==> r.value == dims[..Compound.FirstZero(dims[..])]
    ensures r.Ok? ==> |r.value| <= maxNdims && forall k :: 0 <= k < |r.value| ==> r.value[k] > 0
    ensures r.Ok? && |r.value| < maxNdims ==> dims[|r.value|] == 0
  {
    if status < 0 {
      return Throw(PropertyException, "Unable to get chunk property");
    }
    var v: seq<u64> := [];
    var i := 0;
    while i < maxNdims
      invariant 0 <= i <= maxNdims
      invariant v == dims[..i]
      invariant forall k :: 0 <= k < i ==> dims[k] > 0
    {
      if dims[i] == 0 {
        break;
      }
      v := v + [dims[i]];
      i := i + 1;
    }
    ChunkPrefix(dims[..], i);
    return Ok(v);
  }

  lemma ChunkPrefix(dims: seq<u64>, i: nat)
    requires i <= |dims| && forall k :: 0 <= k < i ==> dims[k] > 0
    requires i < |dims| ==> dims[i] == 0
    ensures Compound.FirstZero(dims) == i
  {
  }

  /** A chunk of {2, 3} asked for with max_ndims 4 reads back as {2, 3}. */
  method GetChunkExample() returns (chunk: Result<seq<u64>>)
    ensures chunk == Ok([2, 3])
  {
    var dims := new u64[4](_ => 0);
    dims[0], dims[1] := 2, 3;
    assert dims[..] == [2, 3, 0, 0];
    chunk := GetChunk(4, 1, dims);
    assert dims[..][..2] == [2, 3];
    ChunkPrefix(dims[..], 2);
  }

  /** The size addExternalFile passes to H5Pset_external: a size of 0 means
      "to the end of the file", file_size - offset in unsigned 64-bit
      arithmetic; when the file size cannot be read, it stays 0. */
  function ExternalSize(offset: int, size: u64, fileSize: Option<u64>): u64 {
    if size != 0 then size
    else match fileSize
      case None => 0
      case Some(fs) => SubU64(fs, (offset % TWO64) as u64)
  }

  /** What the size rule means: a given size is kept; an omitted one maps
      the rest of the file (offset + size == file size), wrapping when the
      offset lies beyond the end. */
  lemma ExternalSizeSpec(offset: int, size: u64, fileSize: Option<u64>)
    ensures size != 0 ==> ExternalSize(offset, size, fileSize) == size
    ensures size == 0 && fileSize.None? ==> ExternalSize(offset, size, fileSize) == 0
    ensures size == 0 && fileSize.Some? && 0 <= offset <= fileSize.value as int ==>
      offset + ExternalSize(offset, size, fileSize) as int == fileSize.value as int
    ensures size == 0 && fileSize.Some? && fileSize.value as int < offset < TWO64 ==>
      ExternalSize(offset, size, fileSize) as int == fileSize.value as int - offset + TWO64
  {
  }

  /** addExternalFile(file, offset, size): `fileSize` is what
      std::filesystem::file_size reports (None when it throws),
      `setExternal` is H5Pset_external. */
  method AddExternalFile(file: string, offset: int, size: u64, fileSize: Option<u64>,
                         setExternal: (string, int, u64) -> int)
    returns (o: Outcome, passed: u64)
    ensures passed == ExternalSize(offset, size, fileSize)
    ensures o.Pass? <==> setExternal(file, offset, passed) >= 0
    ensures o.Fail? ==> o.error.kind == PropertyException
  {
    passed := size;
    if passed == 0 {
      if fileSize.Some? {
        passed := fileSize.value;
        passed := SubU64(passed, (offset % TWO64) as u64);
      }
    }
    if setExternal(file, offset, passed) < 0 {
      return Fail(Error(PropertyException, "Unable to add external file")), passed;
    }
    return Pass, passed;
  }

  /** H5Z filter identifiers. */
  datatype FilterId = H5Z_FILTER_DEFLATE | H5Z_FILTER_SHUFFLE

  /** setShuffle: the shuffle filter must be available, then H5Pset_shuffle
      must succeed. */
  function SetShuffle(avail: FilterId -> bool, status: int): (o: Outcome)
    ensures o.Pass? <==> avail(H5Z_FILTER_SHUFFLE) && status >= 0
    ensures o.Fail? ==> o.error.kind == PropertyException
  {
    if !avail(H5Z_FILTER_SHUFFLE) then Fail(Error(PropertyException, "Z-FILTER is unavailable"))
    else if status < 0 then Fail(Error(PropertyException, "Unable to set shuffle property"))
    else Pass
  }

  /** setDeflate as written: guarded by the availability of the shuffle
      filter. */
  function SetDeflateAsWritten(avail: FilterId -> bool, status: int): (o: Outcome)
    ensures o.Pass? <==> avail(H5Z_FILTER_SHUFFLE) && status >= 0
    ensures o.Fail? ==> o.error.kind == PropertyException
  {
    if !avail(H5Z_FILTER_SHUFFLE) then Fail(Error(PropertyException, "Z-FILTER is unavailable"))
    else if status < 0 then Fail(Error(PropertyException, "Unable to set deflate property"))
    else Pass
  }

  /** setDeflate as intended: guarded by the deflate filter it installs. */
  function SetDeflate(avail: FilterId -> bool, status: int): (o: Outcome)
    ensures o.Pass? <==> avail(H5Z_FILTER_DEFLATE) && status >= 0
    ensures o.Fail? ==> o.error.kind == PropertyException
  {
    if !avail(H5Z_FILTER_DEFLATE) then Fail(Error(PropertyException, "Z-FILTER is unavailable"))
    else if status < 0 then Fail(Error(PropertyException, "Unable to set deflate property"))
    else Pass
  }

  /** With only the shuffle filter available, the written setDeflate goes
      ahead although deflate is missing; and with only deflate available
      it refuses. The intended one does the opposite in both cases. */
  lemma SetDeflateGuard()
    ensures SetDeflateAsWritten(f => f == H5Z_FILTER_SHUFFLE, 0).Pass?
    ensures SetDeflate(f => f == H5Z_FILTER_SHUFFLE, 0).Fail?
    ensures SetDeflateAsWritten(f => f == H5Z_FILTER_DEFLATE, 0).Fail?
    ensures SetDeflate(f => f == H5Z_FILTER_DEFLATE, 0).Pass?
  {
  }

  /** getVirtualDataSetName(idx): H5Pget_virtual_dsetname through the
      two-buffer name protocol. */
  method GetVirtualDataSetName(q: Paths.NameQuery) returns (r: Result<string>, sizes: seq<nat>)
    ensures q.QueryFails? ==> Raises(r, PropertyException) && sizes == [Paths.MAX_PATH_LEN + 1]
    ensures q.Named? ==> r == Ok(q.name)
    ensures q.Named? && |q.name| > Paths.MAX_PATH_LEN ==> sizes == [Paths.MAX_PATH_LEN + 1, |q.name| + 1]
    ensures q.Named? && |q.name| <= Paths.MAX_PATH_LEN ==> sizes == [Paths.MAX_PATH_LEN + 1]
  {
    r, sizes := Paths.GetName(q, PropertyException);
  }

  /** getVirtualFileName(idx): H5Pget_virtual_filename, the same protocol. */
  method GetVirtualFileName(q: Paths.NameQuery) returns (r: Result<string>, sizes: seq<nat>)
    ensures q.QueryFails? ==> Raises(r, PropertyException) && sizes == [Paths.MAX_PATH_LEN + 1]
    ensures q.Named? ==> r == Ok(q.name)
    ensures q.Named? && |q.name| > Paths.MAX_PATH_LEN ==> sizes == [Paths.MAX_PATH_LEN + 1, |q.name| + 1]
    ensures q.Named? && |q.name| <= Paths.MAX_PATH_LEN ==> sizes == [Paths.MAX_PATH_LEN + 1]
  {
    r, sizes := Paths.GetName(q, PropertyException);
  }
}
