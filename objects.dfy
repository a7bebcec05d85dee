/** Object: an HDF5 identifier with shared ownership. The library's
    identifier table (H5Iinc_ref, H5Idec_ref, H5Iis_valid, H5Iget_type,
    H5Iget_file_id) is modelled by IdTable, a map from live ids to their
    reference counts; an Object handle updates it as the C++ class does. */
module Objects {
  import opened Wrappers

  datatype ObjectType = File | Group | UserDataType | DataSpace | Dataset | Attribute | Other

  datatype LinkType = Hard | Soft | External | Other

  /** H5I_type_t, as H5Iget_type reports it. */
  datatype IdType =
    | IFile | IGroup | IDatatype | IDataspace | IDataset | IMap | IAttr
    | IBadId                      // H5I_BADID: not a live identifier
    | IOther(code: int)           // the library's remaining id classes

  /** _convert_object_type: total, with every unrecognised class mapped to
      Other. */
  function ConvertObjectType(t: IdType): (o: ObjectType)
    ensures o == ObjectType.Other <==> !(t.IFile? || t.IGroup? || t.IDatatype? || t.IDataspace? || t.IDataset? || t.IAttr?)
  {
    match t
    case IFile => File
    case IGroup => Group
    case IDatatype => UserDataType
    case IDataspace => DataSpace
    case IDataset => Dataset
    case IAttr => Attribute
    case _ => ObjectType.Other
  }

  /** The identifier class of each object kind other than Other. */
  function IdTypeOf(o: ObjectType): (t: IdType)
    requires o != ObjectType.Other
    ensures ConvertObjectType(t) == o
  {
    match o
    case File => IFile
    case Group => IGroup
    case UserDataType => IDatatype
    case DataSpace => IDataspace
    case Dataset => IDataset
    case Attribute => IAttr
  }

  /** Two recognised id classes never map to the same object type. */
  lemma ConvertObjectTypeInjective(s: IdType, t: IdType)
    requires ConvertObjectType(s) != ObjectType.Other && ConvertObjectType(s) == ConvertObjectType(t)
    ensures s == t
  {
  }

  // H5L_type_t
  const H5L_TYPE_ERROR: int := -1
  const H5L_TYPE_HARD: int := 0
  const H5L_TYPE_SOFT: int := 1
  const H5L_TYPE_EXTERNAL: int := 64

  /** _convert_link_type: total, with unrecognised codes mapped to Other. */
  function ConvertLinkType(ltype: int): (l: LinkType)
    ensures l == LinkType.Other <==> ltype !in {H5L_TYPE_HARD, H5L_TYPE_SOFT, H5L_TYPE_EXTERNAL}
  {
    if ltype == H5L_TYPE_HARD then Hard
    else if ltype == H5L_TYPE_SOFT then Soft
    else if ltype == H5L_TYPE_EXTERNAL then External
    else LinkType.Other
  }

  function LinkCode(l: LinkType): (code: int)
    requires l != LinkType.Other
    ensures ConvertLinkType(code) == l
  {
    match l
    case Hard => H5L_TYPE_HARD
    case Soft => H5L_TYPE_SOFT
    case External => H5L_TYPE_EXTERNAL
  }

  // ---------------------------------------------------------------------
  // Reference counts
  // ---------------------------------------------------------------------

  /** H5Iinc_ref on the count map: a live id gains one reference. */
  function Inc(refs: map<int, nat>, id: int): (m: map<int, nat>)
    ensures id in refs ==> id in m && m[id] == refs[id] + 1
    ensures m.Keys == refs.Keys
    ensures forall j :: j in refs && j != id ==> m[j] == refs[j]
  {
    if id in refs then refs[id := refs[id] + 1] else refs
  }

  /** H5Idec_ref on the count map: a live id loses one reference and is
      closed when that was its last one. */
  function Dec(refs: map<int, nat>, id: int): (m: map<int, nat>)
    ensures id in refs && refs[id] > 1 ==> id in m && m[id] == refs[id] - 1
    ensures id in refs && refs[id] <= 1 ==> m.Keys == refs.Keys - {id}
    ensures id !in refs ==> m == refs
    ensures forall j :: j != id ==> (j in m <==> j in refs) && (j in m ==> m[j] == refs[j])
  {
    if id !in refs then refs
    else if refs[id] <= 1 then refs - {id}
    else refs[id := refs[id] - 1]
  }

  /** Taking a reference and giving it back leaves every count as it was. */
  lemma DecAfterInc(refs: map<int, nat>, id: int)
    requires id in refs ==> refs[id] > 0
    ensures Dec(Inc(refs, id), id) == refs
  {
    if id in refs {
      assert Dec(Inc(refs, id), id) == refs[id := refs[id]];
    }
  }

  /** Giving back a reference and taking one: unchanged while another
      reference remains, the id closed for good when it was the last one. */
  lemma IncAfterDec(refs: map<int, nat>, id: int)
    requires id in refs
    ensures refs[id] > 1 ==> Inc(Dec(refs, id), id) == refs
    ensures refs[id] <= 1 ==> Inc(Dec(refs, id), id) == refs - {id}
  {
    if refs[id] > 1 {
      assert Inc(Dec(refs, id), id) == refs[id := refs[id]];
    }
  }

  class IdTable {
    /** The live ids and their reference counts. */
    var refs: map<int, nat>
    /** H5Iget_type of the live ids. */
    var kinds: map<int, IdType>
    /** H5Iget_file_id: the file an object id belongs to. */
    var fileOf: map<int, int>

    constructor (refs: map<int, nat>, kinds: map<int, IdType>, fileOf: map<int, int>)
      ensures this.refs == refs && this.kinds == kinds && this.fileOf == fileOf
    {
      this.refs, this.kinds, this.fileOf := refs, kinds, fileOf;
    }

    ghost predicate Valid()
      reads this
    {
      H5I_INVALID_HID !in refs && forall id :: id in refs ==> refs[id] > 0
    }

    /** H5Iis_valid. */
    predicate IsLive(id: int)
      reads this
    {
      id in refs
    }

    /** H5Iget_type: IBadId for an id that is not live. */
    function GetType(id: int): (t: IdType)
      reads this
      ensures id !in refs ==> t == IBadId
    {
      if id in refs && id in kinds then kinds[id] else IBadId
    }

    method IncRef(id: int) returns (count: int)
      requires Valid()
      modifies this`refs
      ensures Valid()
      ensures refs == Inc(old(refs), id)
      ensures count == if id in old(refs) then old(refs)[id] + 1 else -1
    {
      if id in refs {
        refs := refs[id := refs[id] + 1];
        count := refs[id];
      } else {
        count := -1;
      }
    }

    method DecRef(id: int) returns (count: int)
      requires Valid()
      modifies this`refs
      ensures Valid()
      ensures refs == Dec(old(refs), id)
      ensures count == if id in old(refs) then old(refs)[id] - 1 else -1
    {
      if id !in refs {
        count := -1;
      } else if refs[id] <= 1 {
        refs := refs - {id};
        count := 0;
      } else {
        refs := refs[id := refs[id] - 1];
        count := refs[id];
      }
    }

    /** A fresh id the library hands out (H5Pcreate, H5Fopen, ...), holding
        its first reference. */
    method Register(id: int)
      requires Valid() && id >= 0 && id !in refs
      modifies this`refs
      ensures Valid()
      ensures refs == old(refs)[id := 1]
    {
      refs := refs[id := 1];
    }

    /** Whether H5Iget_file_id succeeds on id: the object id itself is live
        and so is the file it belongs to. */
    predicate HasLiveFile(id: int)
      reads this
    {
      id in refs && id in fileOf && fileOf[id] in refs
    }

    /** H5Iget_file_id: a new reference to the file of a live object, or
        H5I_INVALID_HID for an id that is not live. */
    method GetFileIdOf(id: int) returns (fileId: int)
      requires Valid()
      modifies this`refs
      ensures Valid()
      ensures old(HasLiveFile(id)) ==> fileId == fileOf[id] && refs == Inc(old(refs), fileId)
      ensures !old(HasLiveFile(id)) ==> fileId == H5I_INVALID_HID && refs == old(refs)
      ensures id !in old(refs) ==> fileId == H5I_INVALID_HID
    {
      if HasLiveFile(id) {
        fileId := fileOf[id];
        var _ := IncRef(fileId);
      } else {
        fileId := H5I_INVALID_HID;
      }
    }
  }

  class Object {
    var hid: int
    const ids: IdTable

    /** isValid(): not H5I_INVALID_HID and live in the table. */
    predicate IsValid()
      reads this, ids
    {
      hid != H5I_INVALID_HID && ids.IsLive(hid)
    }

    /** Object(): no identifier. */
    constructor (ids: IdTable)
      ensures this.ids == ids && hid == H5I_INVALID_HID
    {
      this.ids := ids;
      hid := H5I_INVALID_HID;
    }

    /** Object(hid): adopts the id without touching its count. */
    constructor FromHid(ids: IdTable, hid: int)
      ensures this.ids == ids && this.hid == hid
    {
      this.ids := ids;
      this.hid := hid;
    }

    /** The copy constructor: shares the id and takes a reference when it
        is valid. */
    constructor Copy(other: Object)
      requires other.ids.Valid()
      modifies other.ids`refs
      ensures ids == other.ids && hid == other.hid && ids.Valid()
      ensures ids.refs == if old(other.IsValid()) then Inc(old(other.ids.refs), hid) else old(other.ids.refs)
    {
      ids := other.ids;
      hid := other.hid;
      new;
      if other.IsValid() {
        var _ := ids.IncRef(hid);
      }
    }

    /** The move constructor: takes the id over, counts unchanged. */
    constructor Move(other: Object)
      modifies other`hid
      ensures ids == other.ids && hid == old(other.hid)
      ensures other.hid == H5I_INVALID_HID
    {
      ids := other.ids;
      hid := other.hid;
      new;
      other.hid := H5I_INVALID_HID;
    }

    /** Object(hid, objType, increaseRefCount), behind every FromId: refuses
        a negative id and an id of another kind, then takes a reference iff
        asked to. */
    static method OfType(ids: IdTable, hid: int, objType: ObjectType, increaseRefCount: bool)
      returns (r: Result<Object>)
      requires ids.Valid()
      modifies ids`refs
      ensures ids.Valid()
      ensures r.Ok? <==> hid >= 0 && ConvertObjectType(ids.GetType(hid)) == objType
      ensures r.Err? ==> r.error.kind == ObjectException && ids.refs == old(ids.refs)
      ensures r.Ok? ==> fresh(r.value) && r.value.hid == hid && r.value.ids == ids
      ensures r.Ok? ==> ids.refs == if increaseRefCount then Inc(old(ids.refs), hid) else old(ids.refs)
    {
      if hid < 0 {
        return Throw(ObjectException, "Invalid id to initialize the object");
      }
      if ConvertObjectType(ids.GetType(hid)) != objType {
        return Throw(ObjectException, "Given ID doesn't belong to the requested type (or it is invalid)");
      }
      if increaseRefCount {
        var _ := ids.IncRef(hid);
      }
      var o := new Object.FromHid(ids, hid);
      return Ok(o);
    }

    /** Copy assignment: unless assigning to itself, gives back the old id's
        reference (when there is an id), then shares the other id and takes
        a reference when it is still valid. */
    method Assign(other: Object)
      requires ids == other.ids && ids.Valid()
      modifies this`hid, ids`refs
      ensures ids.Valid()
      ensures this == other ==> hid == old(hid) && ids.refs == old(ids.refs)
      ensures this != other ==>
        (hid == other.hid && ids.refs == Inc(Dec(old(ids.refs), old(hid)), other.hid))
    {
      if this != other {
        if hid != H5I_INVALID_HID {
          var _ := ids.DecRef(hid);
        }
        hid := other.hid;
        if other.IsValid() {
          var _ := ids.IncRef(hid);
        }
      }
    }

    /** The destructor: gives back one reference of a valid id. */
    method Destroy()
      requires ids.Valid()
      modifies ids`refs
      ensures ids.Valid()
      ensures ids.refs == Dec(old(ids.refs), hid)
    {
      if IsValid() {
        var _ := ids.DecRef(hid);
      }
    }

    /** getId(increaseRefCount). */
    method GetId(increaseRefCount: bool) returns (id: int)
      requires ids.Valid()
      modifies ids`refs
      ensures ids.Valid() && id == hid
      ensures ids.refs == if increaseRefCount then Inc(old(ids.refs), hid) else old(ids.refs)
    {
      if increaseRefCount {
        var _ := ids.IncRef(hid);
      }
      id := hid;
    }

    /** getFileId(increaseRefCount): the file id, with the reference
        H5Iget_file_id took given back unless the caller keeps it. */
    method GetFileId(increaseRefCount: bool) returns (r: Result<int>)
      requires ids.Valid()
      modifies ids`refs
      ensures ids.Valid()
      ensures r.Ok? <==> old(ids.HasLiveFile(hid))
      ensures old(hid !in ids.refs) ==> Raises(r, ObjectException)
      ensures r.Err? ==> r.error.kind == ObjectException && ids.refs == old(ids.refs)
      ensures r.Ok? ==> r.value == ids.fileOf[hid]
      ensures r.Ok? ==> ids.refs == if increaseRefCount then Inc(old(ids.refs), r.value) else old(ids.refs)
    {
      var fileId := ids.GetFileIdOf(hid);
      if !ids.IsLive(fileId) {
        return Throw(ObjectException, "File ID is invalid");
      }
      if !increaseRefCount {
        var _ := ids.DecRef(fileId);
        DecAfterInc(old(ids.refs), fileId);
      }
      return Ok(fileId);
    }
  }

  /** Repeated FromId(id, true) on a file opened once: the count goes to 2,
      then to 3. */
  method FromIdExample() returns (second: int, third: int)
    ensures second == 2 && third == 3
  {
    var ids := new IdTable(map[7 := 1], map[7 := IFile], map[]);
    var f2 := Object.OfType(ids, 7, File, true);
    second := ids.refs[7];
    var f3 := Object.OfType(ids, 7, File, true);
    third := ids.refs[7];
  }

  /** getFileId on a dataset of file 7: it succeeds while the dataset is
      open and throws ObjectException once its last reference is gone. */
  method FileIdAfterDestroyExample() returns (before: Result<int>, after: Result<int>)
    ensures before == Ok(7)
    ensures Raises(after, ObjectException)
  {
    var ids := new IdTable(map[7 := 1, 5 := 1], map[7 := IFile, 5 := IDataset], map[5 := 7]);
    var dset := new Object.FromHid(ids, 5);
    before := dset.GetFileId(false);
    dset.Destroy();
    after := dset.GetFileId(false);
  }
}
