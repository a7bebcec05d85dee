/** DataSet and Group: the parent lookup both share, the rank check before
    a resize, and the link operations that act on the object's own path.
    getPath() is the name the library reports for the object, kept as a
    field; H5Dset_extent, H5Dget_space and H5Gopen2 are parameters. */
module DataSets {
  import opened Wrappers
  import opened Objects
  import Paths
  import Nodes

  /** The parent path is defined for a path with at least one segment. */
  predicate HasParentPath(path: string) {
    path != [] && Paths.Segments(path) != [] && Paths.ParentOf(path) != ""
  }

  /** getParent of a DataSet (kind DataSetException) or a Group (kind
      GroupException): "/" and a path whose splitPathToParentAndObj parent
      is empty have no parent; otherwise the parent group is opened
      (`isGroup` says whether H5Gopen2 succeeds on it, raising
      GroupException when it does not). */
  method ParentGroup(path: string, kind: ErrorKind, isGroup: string -> bool) returns (r: Result<string>)
    ensures r.Ok? <==> HasParentPath(path) && isGroup(Paths.ParentOf(path))
    ensures r.Ok? ==> r.value == Paths.ParentOf(path)
    ensures r.Ok? ==>
      (var segs := Paths.Segments(path);
       Paths.Segments(r.value) == segs[..|segs| - 1])
    ensures !HasParentPath(path) ==> Raises(r, kind)
    ensures HasParentPath(path) && !isGroup(Paths.ParentOf(path)) ==> Raises(r, GroupException)
  {
    if path == "/" {
      return Throw(kind, path + " has no parent");
    }
    var split := Paths.SplitPathToParentAndObj(path);
    if split.parent == "" {
      var objName := if split.objName.Some? then split.objName.value else "";
      return Throw(kind, objName + " has no parent");
    }
    assert path != [] && Paths.Segments(path) != [];
    Paths.ParentSegments(path);
    if !isGroup(split.parent) {
      return Throw(GroupException, "Unable to open the group \"" + split.parent + "\":");
    }
    return Ok(split.parent);
  }

  /** The test's chain: "/path/to/group" has parent "/path/to", then
      "/path", then "/", and the root has none. */
  method GetParentChain() returns (p1: Result<string>, p2: Result<string>, p3: Result<string>, p4: Result<string>)
    ensures p1 == Ok("/path/to") && p2 == Ok("/path") && p3 == Ok("/")
    ensures Raises(p4, GroupException)
  {
    var open: string -> bool := _ => true;
    ParentChainPaths();
    p1 := ParentGroup("/path/to/group", GroupException, open);
    p2 := ParentGroup(p1.value, GroupException, open);
    p3 := ParentGroup(p2.value, GroupException, open);
    p4 := ParentGroup(p3.value, GroupException, open);
  }

  lemma ParentChainPaths()
    ensures Paths.Segments("/path/to/group") == ["path", "to", "group"]
    ensures Paths.ParentOf("/path/to/group") == "/path/to"
    ensures Paths.Segments("/path/to") == ["path", "to"]
    ensures Paths.ParentOf("/path/to") == "/path"
    ensures Paths.Segments("/path") == ["path"]
    ensures Paths.ParentOf("/path") == "/"
    ensures Paths.Segments("/") == []
  {
    ChainThree();
    ChainTwo();
    ChainOne();
    assert "/"[1..] == "";
    Paths.SegmentsSlashPrefix("");
  }

  lemma ChainThree()
    ensures Paths.Segments("/path/to/group") == ["path", "to", "group"]
    ensures Paths.ParentOf("/path/to/group") == "/path/to"
  {
    var p3 := ["path", "to", "group"];
    assert p3[1..] == ["to", "group"] && p3[1..][1..] == ["group"];
    assert Paths.JoinSlash(p3) == "path/to/group";
    var p2 := p3[..2];
    assert p2 == ["path", "to"] && p2[1..] == ["to"];
    assert Paths.JoinSlash(p2) == "path/to";
    AbsoluteSegments(p3, "/path/to/group");
  }

  lemma ChainTwo()
    ensures Paths.Segments("/path/to") == ["path", "to"]
    ensures Paths.ParentOf("/path/to") == "/path"
  {
    var p2 := ["path", "to"];
    assert p2[1..] == ["to"];
    assert Paths.JoinSlash(p2) == "path/to";
    assert p2[..1] == ["path"];
    AbsoluteSegments(p2, "/path/to");
  }

  lemma ChainOne()
    ensures Paths.Segments("/path") == ["path"]
    ensures Paths.ParentOf("/path") == "/"
  {
    var p1 := ["path"];
    assert p1[..0] == [];
    AbsoluteSegments(p1, "/path");
  }

  /** An absolute path written as "/" followed by slash-joined segments
      splits back into them, its parent joining all but the last. */
  lemma AbsoluteSegments(xs: seq<string>, path: string)
    requires xs != [] && Paths.AllSegments(xs) && path == "/" + Paths.JoinSlash(xs)
    ensures Paths.Segments(path) == xs
    ensures Paths.ParentOf(path) == "/" + Paths.JoinSlash(xs[..|xs| - 1])
  {
    Paths.SegmentsJoinSlash(xs);
    Paths.SegmentsSlashPrefix(Paths.JoinSlash(xs));
  }

  /** A maximum dimension of a dataspace. */
  datatype Limit = Bounded(n: u64) | Unlimited

  /** The extent H5Dset_extent accepts on a chunked dataset: within the
      maximum dimensions. */
  predicate WithinMax(d: seq<u64>, maxDims: seq<Limit>) {
    |d| == |maxDims| && forall i :: 0 <= i < |d| ==> (maxDims[i].Bounded? ==> d[i] <= maxDims[i].n)
  }

  class DataSet {
    /** getPath(). */
    var path: string
    /** The dimensions of the dataset's dataspace. */
    var dims: seq<u64>

    constructor (path: string, dims: seq<u64>)
      ensures this.path == path && this.dims == dims
    {
      this.path := path;
      this.dims := dims;
    }

    /** getSpace(): the dataspace, through H5Dget_space (status). */
    function GetSpace(status: int): (r: Result<seq<u64>>)
      reads this
      ensures r.Ok? <==> status >= 0
      ensures r.Ok? ==> r.value == dims
      ensures r.Err? ==> r.error.kind == DataSetException
    {
      if status < 0 then Throw(DataSetException, "Unable to get DataSpace out of DataSet")
      else Ok(dims)
    }

    /** getMemSpace(): the same space as getSpace(). */
    function GetMemSpace(status: int): (r: Result<seq<u64>>)
      reads this
      ensures r == GetSpace(status)
    {
      GetSpace(status)
    }

    /** resize(dims): a vector of another rank is refused before the
        library is asked; otherwise H5Dset_extent (`setExtent`) decides. */
    method Resize(newDims: seq<u64>, setExtent: seq<u64> -> bool) returns (o: Outcome)
      modifies this`dims
      ensures o.Pass? <==> |newDims| == |old(dims)| && setExtent(newDims)
      ensures o.Pass? ==> dims == newDims
      ensures o.Fail? ==> o.error.kind == DataSetException && dims == old(dims)
    {
      var numDimensions := |dims|;
      if |newDims| != numDimensions {
        return Fail(Error(DataSetException, "Invalid dataspace dimensions, got " + Decimal(|newDims|) +
          " expected " + Decimal(numDimensions)));
      }
      if !setExtent(newDims) {
        return Fail(Error(DataSetException, "Could not resize dataset."));
      }
      dims := newDims;
      return Pass;
    }

    /** rename(dst): H5Lmove of the dataset's own link in `container`,
        raising DataSetException on failure; the dataset is then known
        under dst. */
    method Rename(container: Nodes.Node, dst: string) returns (r: Result<bool>)
      modifies container`links, this`path
      ensures r.Ok? <==> old(path) in old(container.links) && dst !in old(container.links)
      ensures r.Ok? ==>
        (r.value && path == dst &&
         container.links == (old(container.links) - {old(path)})[dst := old(container.links)[old(path)]])
      ensures r.Err? ==> r.error.kind == DataSetException && container.links == old(container.links) && path == old(path)
    {
      var moved := container.Rename(path, dst);
      if moved.Err? {
        return Throw(DataSetException, "Unable to move link to \"" + dst + "\":");
      }
      path := dst;
      return Ok(true);
    }

    /** getParent(). */
    method GetParent(isGroup: string -> bool) returns (r: Result<string>)
      ensures r.Ok? <==> HasParentPath(path) && isGroup(Paths.ParentOf(path))
      ensures r.Ok? ==> r.value == Paths.ParentOf(path)
      ensures !HasParentPath(path) ==> Raises(r, DataSetException)
      ensures HasParentPath(path) && !isGroup(Paths.ParentOf(path)) ==> Raises(r, GroupException)
    {
      r := ParentGroup(path, DataSetException, isGroup);
    }
  }

  /** The extensible-dataset test: a 4 x 5 dataset with maximum 17 x
      unlimited grows to 4 x 6, and then refuses 18 x 1 (beyond the
      maximum) and a rank-3 vector. */
  method ResizeExample() returns (grown: seq<u64>, tooLarge: Outcome, wrongRank: Outcome, kept: seq<u64>)
    ensures grown == [4, 6]
    ensures tooLarge.Fail? && tooLarge.error.kind == DataSetException
    ensures wrongRank.Fail? && wrongRank.error.kind == DataSetException
    ensures kept == [4, 6]
  {
    var maxDims := [Bounded(17), Unlimited];
    var extent: seq<u64> -> bool := d => WithinMax(d, maxDims);
    var ds := new DataSet("/dset", [4, 5]);
    var o := ds.Resize([4, 6], extent);
    grown := ds.dims;
    assert !WithinMax([18, 1], maxDims) by {
      assert [18, 1][0] == 18;
    }
    tooLarge := ds.Resize([18, 1], extent);
    wrongRank := ds.Resize([1, 2, 3], extent);
    kept := ds.dims;
  }

  class Group {
    /** getPath(). */
    var path: string
    /** The file number and object token H5Oget_info reports. */
    const token: (int, int)

    constructor (path: string, token: (int, int))
      ensures this.path == path && this.token == token
    {
      this.path := path;
      this.token := token;
    }

    /** operator==: the same object of the same file. */
    predicate Equals(other: Group)
      reads {}
    {
      token == other.token
    }

    /** operator!=: the negation of operator==. */
    predicate NotEquals(other: Group)
      reads {}
    {
      !Equals(other)
    }

    /** rename(dest): NodeTraits::rename from getPath() to dest. */
    method Rename(container: Nodes.Node, dst: string) returns (r: Result<bool>)
      modifies container`links, this`path
      ensures r.Ok? <==> old(path) in old(container.links) && dst !in old(container.links)
      ensures r.Ok? ==>
        (r.value && path == dst &&
         container.links == (old(container.links) - {old(path)})[dst := old(container.links)[old(path)]])
      ensures r.Err? ==> r.error.kind == GroupException && container.links == old(container.links) && path == old(path)
    {
      r := container.Rename(path, dst);
      if r.Ok? {
        path := dst;
      }
    }

    /** unlink(): removes the link at getPath(). */
    method Unlink(container: Nodes.Node) returns (o: Outcome)
      modifies container`links
      ensures o.Pass? <==> path in old(container.links)
      ensures o.Pass? ==> container.links == old(container.links) - {path}
      ensures o.Fail? ==> container.links == old(container.links)
    {
      o := container.Unlink(path);
    }

    /** getParent(). */
    method GetParent(isGroup: string -> bool) returns (r: Result<string>)
      ensures r.Ok? <==> HasParentPath(path) && isGroup(Paths.ParentOf(path))
      ensures r.Ok? ==> r.value == Paths.ParentOf(path)
      ensures r.Err? ==> r.error.kind == GroupException
    {
      r := ParentGroup(path, GroupException, isGroup);
    }
  }

  /** operator!= is the negation of operator==, and both are symmetric. */
  lemma EqualityLaws(a: Group, b: Group)
    ensures a.NotEquals(b) <==> !a.Equals(b)
    ensures a.Equals(b) <==> b.Equals(a)
    ensures a.Equals(a)
  {
  }

  /** Group::FromId: an Object of kind Group, copied into the Group; the
      copy's extra reference is given back when the temporary goes away. */
  method GroupFromId(ids: IdTable, id: int, increaseRefCount: bool) returns (r: Result<Object>)
    requires ids.Valid()
    modifies ids`refs
    ensures ids.Valid()
    ensures r.Ok? <==> id >= 0 && ConvertObjectType(ids.GetType(id)) == ObjectType.Group
    ensures r.Err? ==> r.error.kind == ObjectException && ids.refs == old(ids.refs)
    ensures r.Ok? ==> fresh(r.value) && r.value.hid == id && r.value.ids == ids
    ensures r.Ok? ==> ids.refs == if increaseRefCount then Inc(old(ids.refs), id) else old(ids.refs)
  {
    var obj :- Object.OfType(ids, id, ObjectType.Group, increaseRefCount);
    ghost var before := ids.refs;
    assert obj.IsValid();
    var group := new Object.Copy(obj);
    obj.Destroy();
    DecAfterInc(before, id);
    return Ok(group);
  }
}
