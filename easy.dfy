/** H5Easy's dump helpers over an abstract file: a map from absolute path to
    the object stored there. exist() is the NodeTraits probe over that map;
    the library calls behind createGroup, createDataSet and createAttribute
    add an entry and fail only on a taken or empty name. */
module Easy {
  import opened Wrappers
  import Objects
  import Paths
  import Nodes
  import Inspector
  import PropertyLists

  /** A filter in a dataset's pipeline. */
  datatype Filter = Shuffle | Deflate(level: nat)

  /** An object of the file: its kind and, for a dataset, its dimensions,
      its chunk dimensions (None when contiguous), its filters and the
      dimensions of its attributes. */
  datatype Entry = Entry(
    kind: Objects.ObjectType,
    dims: seq<nat>,
    chunk: Option<seq<nat>>,
    filters: seq<Filter>,
    attrs: map<string, seq<nat>>)

  function GroupEntry(): Entry {
    Entry(Objects.ObjectType.Group, [], None, [], map[])
  }

  function DatasetEntry(dims: seq<nat>, chunk: Option<seq<nat>>, filters: seq<Filter>): Entry {
    Entry(Objects.Dataset, dims, chunk, filters, map[])
  }

  /** DumpOptions (H5Easy.hpp is not part of this model): overwrite mode,
      compression and its level, and the chunk size, where an empty chunk
      size means isChunked() is false. */
  datatype DumpOptions = DumpOptions(overwrite: bool, compress: bool, level: nat, chunkSize: seq<nat>)

  /** H5Lexists over the map. */
  function Status(objects: map<string, Entry>): string -> int {
    n => if n in objects then 1 else 0
  }

  /** What exist(path) reports over a file whose root is in the map. */
  predicate Present(objects: map<string, Entry>, path: string) {
    path != "" && path in objects
  }

  /** exist() over the map never raises, and answers Present. */
  lemma ExistSpec(objects: map<string, Entry>, path: string)
    requires "/" in objects
    ensures Nodes.Lookup(Status(objects), path, false, "Invalid link for exist()") == Ok(Present(objects, path))
  {
    Nodes.LookupSpec(Status(objects), path, false, "Invalid link for exist()");
  }

  /** The proper ancestors of path in absolute spelling, outermost first:
      "/a" and "/a/b" for "/a/b/c". */
  function Ancestors(path: string): seq<string> {
    var segs := Paths.Segments(path);
    seq(if segs == [] then 0 else |segs| - 1, k requires 0 <= k < |segs| - 1 => "/" + Paths.JoinSlash(segs[..k + 1]))
  }

  /** H5Gcreate2 and H5Dcreate2 under the default LinkCreateProps
      (create-intermediate-group 1) can reach a name: it is non-empty and
      free, and every ancestor that exists is a group. */
  predicate Linkable(objects: map<string, Entry>, path: string) {
    var anc := Ancestors(path);
    path != "" && path !in objects &&
    forall k :: 0 <= k < |anc| && anc[k] in objects ==> objects[anc[k]].kind == Objects.ObjectType.Group
  }

  /** The objects after such a creation: every missing ancestor becomes a
      group, then the entry is linked under path. */
  function Linked(objects: map<string, Entry>, path: string, entry: Entry): map<string, Entry> {
    var anc := Ancestors(path);
    var withGroups := map n | n in objects.Keys + (set k | 0 <= k < |anc| :: anc[k]) ::
      if n in objects then objects[n] else GroupEntry();
    withGroups[path := entry]
  }

  /** Linking keeps every other object, adds path, and leaves every
      ancestor present, the new ones as groups. */
  lemma LinkedSpec(objects: map<string, Entry>, path: string, entry: Entry)
    ensures var l := Linked(objects, path, entry);
      path in l && l[path] == entry &&
      (forall n :: n in objects && n != path ==> n in l && l[n] == objects[n]) &&
      (forall k :: 0 <= k < |Ancestors(path)| ==> Ancestors(path)[k] in l) &&
      (forall n :: n in l && n !in objects && n != path ==> n in Ancestors(path) && l[n] == GroupEntry())
  {
    var l := Linked(objects, path, entry);
    forall n | n in l && n !in objects && n != path
      ensures n in Ancestors(path)
    {
      var k :| 0 <= k < |Ancestors(path)| && Ancestors(path)[k] == n;
    }
  }

  /** When every ancestor already exists, linking adds only path. */
  lemma LinkedUnderExisting(objects: map<string, Entry>, path: string, entry: Entry)
    requires forall k :: 0 <= k < |Ancestors(path)| ==> Ancestors(path)[k] in objects
    ensures Linked(objects, path, entry) == objects[path := entry]
  {
    var anc := Ancestors(path);
    var withGroups := map n | n in objects.Keys + (set k | 0 <= k < |anc| :: anc[k]) ::
      if n in objects then objects[n] else GroupEntry();
    assert withGroups.Keys == objects.Keys;
    assert withGroups == objects;
  }

  /** Whether createGroupsToDataSet(path) goes through: getParentName's
      group exists already or can be created. */
  predicate ParentReady(objects: map<string, Entry>, path: string) {
    var group := Paths.EasyParentName(path);
    Present(objects, group) || Linkable(objects, group)
  }

  /** The objects after createGroupsToDataSet(path): the parent group
      getParentName names is created, with its missing ancestors, when it
      does not exist yet. */
  function WithParentGroup(objects: map<string, Entry>, path: string): map<string, Entry> {
    var group := Paths.EasyParentName(path);
    if Present(objects, group) || !Linkable(objects, group) then objects else Linked(objects, group, GroupEntry())
  }

  /** error(file, path, message). */
  function EasyError(fileName: string, path: string, message: string): Error {
    Error(EasyException, message + "\n" + "Path: " + path + "\n" + "Filename: " + fileName + "\n")
  }

  const EasyPrefix: string := "H5Easy: "
  const DatasetExistsMessage: string := EasyPrefix + "Dataset already exists, " +
    "dump with H5Easy::DumpMode::Overwrite to overwrite (with an array of the same shape)."
  const NotADatasetMessage: string := EasyPrefix + "path exists, " +
    "but does not correspond to a Dataset. Dump not possible."
  const AttributeExistsMessage: string := EasyPrefix + "Attribute exists, " +
    "overwrite with H5Easy::DumpMode::Overwrite."

  /** Whether s begins with prefix. */
  predicate StartsWith(s: string, prefix: string) {
    |prefix| <= |s| && s[..|prefix|] == prefix
  }

  /** The diagnostic of error() begins with the message it was given. */
  lemma EasyErrorStarts(fileName: string, path: string, message: string)
    ensures StartsWith(EasyError(fileName, path, message).message, message)
  {
    var tail := "\n" + "Path: " + path + "\n" + "Filename: " + fileName + "\n";
    assert EasyError(fileName, path, message).message == message + tail;
    assert (message + tail)[..|message|] == message;
  }

  /** dump_error(file, path), given the type of the object at path: its
      message tells whether the object in the way is a dataset. */
  function DumpError(kind: Objects.ObjectType, fileName: string, path: string): (e: Error)
    ensures e.kind == EasyException
    ensures StartsWith(e.message, DatasetExistsMessage) <==> kind == Objects.Dataset
    ensures StartsWith(e.message, NotADatasetMessage) <==> kind != Objects.Dataset
  {
    if kind == Objects.Dataset then
      var e := EasyError(fileName, path, DatasetExistsMessage);
      EasyErrorStarts(fileName, path, DatasetExistsMessage);
      assert DatasetExistsMessage[8] == 'D' && NotADatasetMessage[8] == 'p';
      assert e.message[8] == 'D';
      e
    else
      var e := EasyError(fileName, path, NotADatasetMessage);
      EasyErrorStarts(fileName, path, NotADatasetMessage);
      assert DatasetExistsMessage[8] == 'D' && NotADatasetMessage[8] == 'p';
      assert e.message[8] == 'p';
      e
  }

  /** H5Pset_chunk's own condition: at least one dimension, none of them 0. */
  predicate ChunkAccepted(chunks: seq<nat>) {
    |chunks| > 0 && forall i :: 0 <= i < |chunks| ==> chunks[i] > 0
  }

  /** The chunk dimensions initDataset asks for: the chunk size when one is
      given, the shape otherwise. */
  function ChunkFor(shape: seq<nat>, options: DumpOptions): seq<nat> {
    if |options.chunkSize| > 0 then options.chunkSize else shape
  }

  /** The filters initDataset installs: shuffle then deflate when
      compressing. */
  function FiltersFor(options: DumpOptions): seq<Filter> {
    if options.compress then [Shuffle, Deflate(options.level)] else []
  }

  /** Whether setShuffle and setDeflate both go through (H5Pset_deflate
      refuses a level above 9). */
  predicate FiltersAccepted(options: DumpOptions, avail: PropertyLists.FilterId -> bool) {
    !options.compress ||
    (PropertyLists.SetShuffle(avail, 0).Pass? &&
     PropertyLists.SetDeflate(avail, if options.level > 9 then -1 else 0).Pass?)
  }

  /** H5Dcreate2's check of a chunked layout against a dataspace whose
      maximum dimensions are its dimensions: one chunk dimension per
      dimension, none of them larger. */
  predicate ChunkWithin(chunks: seq<nat>, dims: seq<nat>) {
    |chunks| == |dims| && forall i :: 0 <= i < |dims| ==> chunks[i] <= dims[i]
  }

  /** Whether H5Dcreate2 accepts the layout of entry. */
  predicate LayoutFits(entry: Entry) {
    entry.chunk.None? || ChunkWithin(entry.chunk.value, entry.dims)
  }

  class File {
    /** getFileName(). */
    const fileName: string
    var objects: map<string, Entry>

    ghost predicate Valid()
      reads this
    {
      "/" in objects && objects["/"].kind == Objects.ObjectType.Group
    }

    /** A new file holds its root group. */
    constructor (fileName: string)
      ensures Valid() && this.fileName == fileName && objects == map["/" := GroupEntry()]
    {
      this.fileName := fileName;
      objects := map["/" := GroupEntry()];
    }

    /** exist(path), with raise_errors left false. */
    function Exist(path: string): (r: Result<bool>)
      reads this
    {
      Nodes.Lookup(Status(objects), path, false, "Invalid link for exist()")
    }

    /** createGroup(name) with the default LinkCreateProps: H5Gcreate2
        refuses an empty or taken name and an ancestor that is not a
        group; otherwise it creates the missing ancestors and the group. */
    method CreateGroup(name: string) returns (o: Outcome)
      requires Valid()
      modifies this`objects
      ensures Valid()
      ensures o.Pass? <==> Linkable(old(objects), name)
      ensures o.Pass? ==> objects == Linked(old(objects), name, GroupEntry())
      ensures o.Fail? ==> o.error.kind == GroupException && objects == old(objects)
    {
      if !Linkable(objects, name) {
        return Fail(Error(GroupException, "Unable to create the group \"" + name + "\":"));
      }
      objects := Linked(objects, name, GroupEntry());
      return Pass;
    }

    /** createGroupsToDataSet(path): the parent group is created, with its
        missing ancestors, only when it does not exist yet; createGroup's
        exception passes through. */
    method CreateGroupsToDataSet(path: string) returns (o: Outcome)
      requires Valid()
      modifies this`objects
      ensures Valid()
      ensures objects == WithParentGroup(old(objects), path)
      ensures o.Pass? <==> ParentReady(old(objects), path)
      ensures o.Fail? ==> o.error.kind == GroupException
    {
      var group := Paths.EasyParentName(path);
      ExistSpec(objects, group);
      var present := Exist(group);
      if !present.value {
        o := CreateGroup(group);
      } else {
        o := Pass;
      }
    }

    /** createDataSet(path, space, LinkCreateProps(), props): H5Dcreate2
        refuses what createGroup refuses and a chunk larger than a fixed
        dimension; otherwise it creates the missing ancestors and the
        dataset. */
    method CreateDataSet(path: string, entry: Entry) returns (r: Result<Entry>)
      requires Valid() && entry.kind == Objects.Dataset
      modifies this`objects
      ensures Valid()
      ensures r.Ok? <==> Linkable(old(objects), path) && LayoutFits(entry)
      ensures r.Ok? ==> r.value == entry && objects == Linked(old(objects), path, entry)
      ensures r.Err? ==> r.error.kind == DataSetException && objects == old(objects)
    {
      if !Linkable(objects, path) || !LayoutFits(entry) {
        return Throw(DataSetException, "Unable to create dataset \"" + path + "\":");
      }
      objects := Linked(objects, path, entry);
      return Ok(entry);
    }

    /** initDataset(file, path, shape, options). A new path gets its parent
        group (a failure to create it is a GroupException) and a dataset of
        that shape: plain without compression or chunking, else chunked (by
        the chunk size, which must have the shape's rank, or by the shape)
        and, when compressing, shuffled and deflated. An existing dataset is
        reused under Overwrite if its dimensions are the shape; anything
        else is a dump error. */
    method InitDataset(path: string, shape: seq<nat>, options: DumpOptions, avail: PropertyLists.FilterId -> bool)
      returns (r: Result<Entry>)
      requires Valid()
      modifies this`objects
      ensures Valid()
      ensures !Present(old(objects), path) && !ParentReady(old(objects), path) ==>
        Raises(r, GroupException) && objects == old(objects)
      ensures !Present(old(objects), path) && ParentReady(old(objects), path) &&
              !options.compress && |options.chunkSize| == 0 ==>
        var parented := WithParentGroup(old(objects), path);
        var entry := DatasetEntry(shape, None, []);
        (Linkable(parented, path) ==> r == Ok(entry) && objects == Linked(parented, path, entry)) &&
        (!Linkable(parented, path) ==> Raises(r, DataSetException) && objects == parented)
      ensures !Present(old(objects), path) && ParentReady(old(objects), path) &&
              |options.chunkSize| > 0 && |options.chunkSize| != |shape| ==>
        r == Err(EasyError(fileName, path, "H5Easy::dump: Incorrect rank ChunkSize")) &&
        objects == WithParentGroup(old(objects), path)
      ensures !Present(old(objects), path) && ParentReady(old(objects), path) &&
              (options.compress || |options.chunkSize| > 0) && |ChunkFor(shape, options)| == |shape| ==>
        var parented := WithParentGroup(old(objects), path);
        var chunks := ChunkFor(shape, options);
        var entry := DatasetEntry(shape, Some(chunks), FiltersFor(options));
        var accepted := ChunkAccepted(chunks) && FiltersAccepted(options, avail);
        (!accepted ==> Raises(r, PropertyException) && objects == parented) &&
        (accepted && Linkable(parented, path) && ChunkWithin(chunks, shape) ==>
           r == Ok(entry) && objects == Linked(parented, path, entry)) &&
        (accepted && !(Linkable(parented, path) && ChunkWithin(chunks, shape)) ==>
           Raises(r, DataSetException) && objects == parented)
      ensures Present(old(objects), path) && options.overwrite && old(objects)[path].kind == Objects.Dataset ==>
        objects == old(objects) &&
        (old(objects)[path].dims == shape ==> r == Ok(old(objects)[path])) &&
        (old(objects)[path].dims != shape ==> r == Err(EasyError(fileName, path, "H5Easy::dump: Inconsistent dimensions")))
      ensures Present(old(objects), path) && !(options.overwrite && old(objects)[path].kind == Objects.Dataset) ==>
        objects == old(objects) && r == Err(DumpError(old(objects)[path].kind, fileName, path))
    {
      ExistSpec(objects, path);
      var found := Exist(path);
      if !found.value {
        var grouped := CreateGroupsToDataSet(path);
        if grouped.Fail? {
          return Err(grouped.error);
        }
        if !options.compress && |options.chunkSize| == 0 {
          r := CreateDataSet(path, DatasetEntry(shape, None, []));
          return;
        }
        var chunks := shape;
        if |options.chunkSize| > 0 {
          chunks := options.chunkSize;
          if |chunks| != |shape| {
            return Err(EasyError(fileName, path, "H5Easy::dump: Incorrect rank ChunkSize"));
          }
        }
        if !ChunkAccepted(chunks) {
          return Throw(PropertyException, "Unable to set chunk property");
        }
        var filters: seq<Filter> := [];
        if options.compress {
          var shuffled := PropertyLists.SetShuffle(avail, 0);
          if shuffled.Fail? {
            return Err(shuffled.error);
          }
          var deflated := PropertyLists.SetDeflate(avail, if options.level > 9 then -1 else 0);
          if deflated.Fail? {
            return Err(deflated.error);
          }
          filters := [Shuffle, Deflate(options.level)];
        }
        r := CreateDataSet(path, DatasetEntry(shape, Some(chunks), filters));
        return;
      }
      if options.overwrite && objects[path].kind == Objects.Dataset {
        var dataset := objects[path];
        if dataset.dims != shape {
          return Err(EasyError(fileName, path, "H5Easy::dump: Inconsistent dimensions"));
        }
        return Ok(dataset);
      }
      return Err(DumpError(objects[path].kind, fileName, path));
    }

    /** initScalarDataset(file, path, data, options): a new path gets its
        parent group (or a GroupException) and a scalar dataset; an existing dataset is reused
        under Overwrite if it holds exactly one element; anything else is
        a dump error. */
    method InitScalarDataset(path: string, options: DumpOptions) returns (r: Result<Entry>)
      requires Valid()
      modifies this`objects
      ensures Valid()
      ensures !Present(old(objects), path) && !ParentReady(old(objects), path) ==>
        Raises(r, GroupException) && objects == old(objects)
      ensures !Present(old(objects), path) && ParentReady(old(objects), path) ==>
        var parented := WithParentGroup(old(objects), path);
        var entry := DatasetEntry([], None, []);
        (Linkable(parented, path) ==> r == Ok(entry) && objects == Linked(parented, path, entry)) &&
        (!Linkable(parented, path) ==> Raises(r, DataSetException) && objects == parented)
      ensures Present(old(objects), path) && options.overwrite && old(objects)[path].kind == Objects.Dataset ==>
        objects == old(objects) &&
        (Inspector.Product(old(objects)[path].dims) == 1 ==> r == Ok(old(objects)[path])) &&
        (Inspector.Product(old(objects)[path].dims) != 1 ==>
           r == Err(EasyError(fileName, path, "H5Easy::dump: Existing field not a scalar")))
      ensures Present(old(objects), path) && !(options.overwrite && old(objects)[path].kind == Objects.Dataset) ==>
        objects == old(objects) && r == Err(DumpError(old(objects)[path].kind, fileName, path))
    {
      ExistSpec(objects, path);
      var found := Exist(path);
      if !found.value {
        var grouped := CreateGroupsToDataSet(path);
        if grouped.Fail? {
          return Err(grouped.error);
        }
        r := CreateDataSet(path, DatasetEntry([], None, []));
        return;
      }
      if options.overwrite && objects[path].kind == Objects.Dataset {
        var dataset := objects[path];
        if Inspector.Product(dataset.dims) != 1 {
          return Err(EasyError(fileName, path, "H5Easy::dump: Existing field not a scalar"));
        }
        return Ok(dataset);
      }
      return Err(DumpError(objects[path].kind, fileName, path));
    }

    /** The checks initAttribute and initScalarAttribute share: the path
        must exist and be a dataset. */
    method AttributeTarget(path: string) returns (r: Result<Entry>)
      requires Valid()
      ensures !Present(objects, path) ==> r == Err(EasyError(fileName, path, "H5Easy::dumpAttribute: DataSet does not exist"))
      ensures Present(objects, path) && objects[path].kind != Objects.Dataset ==>
        r == Err(EasyError(fileName, path, "H5Easy::dumpAttribute: path not a DataSet"))
      ensures Present(objects, path) && objects[path].kind == Objects.Dataset ==> r == Ok(objects[path])
    {
      ExistSpec(objects, path);
      var found := Exist(path);
      if !found.value {
        return Err(EasyError(fileName, path, "H5Easy::dumpAttribute: DataSet does not exist"));
      }
      if objects[path].kind != Objects.Dataset {
        return Err(EasyError(fileName, path, "H5Easy::dumpAttribute: path not a DataSet"));
      }
      return Ok(objects[path]);
    }

    /** createAttribute(key, space) on the dataset at path: H5Acreate2
        refuses an empty or taken name. */
    method CreateAttribute(path: string, key: string, dims: seq<nat>) returns (r: Result<seq<nat>>)
      requires Valid() && path in objects && objects[path].kind == Objects.Dataset
      modifies this`objects
      ensures Valid()
      ensures r.Ok? <==> key != "" && key !in old(objects)[path].attrs
      ensures r.Ok? ==> r.value == dims && objects == old(objects)[path := old(objects)[path].(attrs := old(objects)[path].attrs[key := dims])]
      ensures r.Err? ==> r.error.kind == AttributeException && objects == old(objects)
    {
      var dataset := objects[path];
      if key == "" || key in dataset.attrs {
        return Throw(AttributeException, "Unable to create the attribute \"" + key + "\":");
      }
      objects := objects[path := dataset.(attrs := dataset.attrs[key := dims])];
      return Ok(dims);
    }

    /** initAttribute(file, path, key, shape, options): the attribute is
        created when absent, reused under Overwrite if its dimensions are
        the shape, and refused otherwise. */
    method InitAttribute(path: string, key: string, shape: seq<nat>, options: DumpOptions) returns (r: Result<seq<nat>>)
      requires Valid()
      modifies this`objects
      ensures Valid()
      ensures !Present(old(objects), path) ==>
        r == Err(EasyError(fileName, path, "H5Easy::dumpAttribute: DataSet does not exist")) && objects == old(objects)
      ensures Present(old(objects), path) && old(objects)[path].kind != Objects.Dataset ==>
        r == Err(EasyError(fileName, path, "H5Easy::dumpAttribute: path not a DataSet")) && objects == old(objects)
      ensures Present(old(objects), path) && old(objects)[path].kind == Objects.Dataset ==>
        var attrs := old(objects)[path].attrs;
        (key !in attrs && key != "" ==>
           r == Ok(shape) && objects == old(objects)[path := old(objects)[path].(attrs := attrs[key := shape])]) &&
        (key !in attrs && key == "" ==> Raises(r, AttributeException) && objects == old(objects)) &&
        (key in attrs ==> objects == old(objects)) &&
        (key in attrs && options.overwrite && attrs[key] == shape ==> r == Ok(shape)) &&
        (key in attrs && options.overwrite && attrs[key] != shape ==>
           r == Err(EasyError(fileName, path, "H5Easy::dumpAttribute: Inconsistent dimensions"))) &&
        (key in attrs && !options.overwrite ==> r == Err(EasyError(fileName, path, AttributeExistsMessage)))
    {
      var dataset :- AttributeTarget(path);
      if key !in dataset.attrs {
        r := CreateAttribute(path, key, shape);
        return;
      }
      if options.overwrite {
        var dims := dataset.attrs[key];
        if dims != shape {
          return Err(EasyError(fileName, path, "H5Easy::dumpAttribute: Inconsistent dimensions"));
        }
        return Ok(dims);
      }
      return Err(EasyError(fileName, path, AttributeExistsMessage));
    }

    /** initScalarAttribute(file, path, key, data, options): as
        initAttribute, with a scalar attribute and, under Overwrite, an
        existing one of exactly one element. */
    method InitScalarAttribute(path: string, key: string, options: DumpOptions) returns (r: Result<seq<nat>>)
      requires Valid()
      modifies this`objects
      ensures Valid()
      ensures !Present(old(objects), path) ==>
        r == Err(EasyError(fileName, path, "H5Easy::dumpAttribute: DataSet does not exist")) && objects == old(objects)
      ensures Present(old(objects), path) && old(objects)[path].kind != Objects.Dataset ==>
        r == Err(EasyError(fileName, path, "H5Easy::dumpAttribute: path not a DataSet")) && objects == old(objects)
      ensures Present(old(objects), path) && old(objects)[path].kind == Objects.Dataset ==>
        var attrs := old(objects)[path].attrs;
        (key !in attrs && key != "" ==>
           r == Ok([]) && objects == old(objects)[path := old(objects)[path].(attrs := attrs[key := []])]) &&
        (key !in attrs && key == "" ==> Raises(r, AttributeException) && objects == old(objects)) &&
        (key in attrs ==> objects == old(objects)) &&
        (key in attrs && options.overwrite && Inspector.Product(attrs[key]) == 1 ==> r == Ok(attrs[key])) &&
        (key in attrs && options.overwrite && Inspector.Product(attrs[key]) != 1 ==>
           r == Err(EasyError(fileName, path, "H5Easy::dumpAttribute: Existing field not a scalar"))) &&
        (key in attrs && !options.overwrite ==> r == Err(EasyError(fileName, path, AttributeExistsMessage)))
    {
      var dataset :- AttributeTarget(path);
      if key !in dataset.attrs {
        r := CreateAttribute(path, key, []);
        return;
      }
      if options.overwrite {
        var dims := dataset.attrs[key];
        if Inspector.Product(dims) != 1 {
          return Err(EasyError(fileName, path, "H5Easy::dumpAttribute: Existing field not a scalar"));
        }
        return Ok(dims);
      }
      return Err(EasyError(fileName, path, AttributeExistsMessage));
    }
  }

  /** The ancestors of an absolute path "/x0/x1/.../xn" are "/x0",
      "/x0/x1", ..., up to the one before xn. */
  lemma AbsoluteAncestors(xs: seq<string>)
    requires xs != [] && Paths.AllSegments(xs)
    ensures var anc := Ancestors("/" + Paths.JoinSlash(xs));
      |anc| == |xs| - 1 &&
      forall k :: 0 <= k < |xs| - 1 ==> anc[k] == "/" + Paths.JoinSlash(xs[..k + 1])
  {
    Paths.SegmentsJoinSlash(xs);
    Paths.SegmentsSlashPrefix(Paths.JoinSlash(xs));
  }

  /** A top-level name "/x" has no ancestor. */
  lemma TopAncestors(x: string)
    requires Paths.IsSegment(x)
    ensures Ancestors("/" + x) == []
  {
    assert Paths.JoinSlash([x]) == x;
    AbsoluteAncestors([x]);
  }

  /** "/x/y" has the one ancestor "/x". */
  lemma ChildAncestors(x: string, y: string)
    requires Paths.IsSegment(x) && Paths.IsSegment(y)
    ensures Ancestors("/" + x + "/" + y) == ["/" + x]
  {
    assert Paths.JoinSlash([x, y]) == x + "/" + y by {
      assert [x, y][1..] == [y];
    }
    assert "/" + x + "/" + y == "/" + Paths.JoinSlash([x, y]);
    AbsoluteAncestors([x, y]);
    assert [x, y][..1] == [x];
    assert Paths.JoinSlash([x]) == x;
  }

  /** "/path" has no ancestor, "/path/dset" has "/path". */
  lemma PathAncestors()
    ensures Ancestors("/path") == []
    ensures Ancestors("/path/dset") == ["/path"]
  {
    assert Paths.IsSegment("path") by {
      assert "path"[0] == 'p' && "path"[1] == 'a' && "path"[2] == 't' && "path"[3] == 'h';
    }
    assert Paths.IsSegment("dset") by {
      assert "dset"[0] == 'd' && "dset"[1] == 's' && "dset"[2] == 'e' && "dset"[3] == 't';
    }
    TopAncestors("path");
    assert "/path" == "/" + "path";
    ChildAncestors("path", "dset");
    assert "/path/dset" == "/" + "path" + "/" + "dset";
  }

  /** The group createGroupsToDataSet adds for "/path/dset" to a fresh
      file. */
  lemma ParentGroupExample()
    ensures ParentReady(map["/" := GroupEntry()], "/path/dset")
    ensures WithParentGroup(map["/" := GroupEntry()], "/path/dset") == map["/" := GroupEntry(), "/path" := GroupEntry()]
  {
    assert "/path/dset" == "/path" + ['/'] + "dset";
    Paths.EasyParentNameJoin("/path", '/', "dset");
    PathAncestors();
    LinkedUnderExisting(map["/" := GroupEntry()], "/path", GroupEntry());
  }

  /** The dataset of the first dump to "/path/dset" is linked under the
      new group "/path" and nothing else is added. */
  lemma DatasetUnderPath(entry: Entry)
    ensures Linkable(map["/" := GroupEntry(), "/path" := GroupEntry()], "/path/dset")
    ensures Linked(map["/" := GroupEntry(), "/path" := GroupEntry()], "/path/dset", entry) ==
      map["/" := GroupEntry(), "/path" := GroupEntry(), "/path/dset" := entry]
  {
    var objects := map["/" := GroupEntry(), "/path" := GroupEntry()];
    PathAncestors();
    assert Ancestors("/path/dset")[0] == "/path";
    assert |"/path/dset"| != |"/path"| && |"/path/dset"| != |"/"|;
    LinkedUnderExisting(objects, "/path/dset", entry);
  }

  /** A dump to a new path of a fresh file creates the parent group and
      a plain dataset of the shape. */
  method DumpNewExample() returns (file: File, first: Result<Entry>)
    ensures fresh(file) && file.Valid() && file.fileName == "f.h5"
    ensures first == Ok(DatasetEntry([2, 3], None, []))
    ensures file.objects == map["/" := GroupEntry(), "/path" := GroupEntry(), "/path/dset" := DatasetEntry([2, 3], None, [])]
  {
    file := new File("f.h5");
    ParentGroupExample();
    DatasetUnderPath(DatasetEntry([2, 3], None, []));
    assert !Present(file.objects, "/path/dset");
    first := file.InitDataset("/path/dset", [2, 3], DumpOptions(false, false, 0, []), _ => true);
  }

  /** The same dump again is refused as a dump error without Overwrite,
      reuses the dataset with Overwrite and the same shape, and is refused
      with Overwrite and another shape; the file is left as it was. */
  method DumpAgainExample() returns (plain: Result<Entry>, same: Result<Entry>, other: Result<Entry>)
    ensures plain == Err(DumpError(Objects.Dataset, "f.h5", "/path/dset"))
    ensures same == Ok(DatasetEntry([2, 3], None, []))
    ensures other == Err(EasyError("f.h5", "/path/dset", "H5Easy::dump: Inconsistent dimensions"))
  {
    var file, _ := DumpNewExample();
    var avail: PropertyLists.FilterId -> bool := _ => true;
    var overwrite := DumpOptions(true, false, 0, []);
    plain := file.InitDataset("/path/dset", [2, 3], DumpOptions(false, false, 0, []), avail);
    same := file.InitDataset("/path/dset", [2, 3], overwrite, avail);
    other := file.InitDataset("/path/dset", [3, 2], overwrite, avail);
  }

  /** A chunk size larger than the shape: chunk {10} for shape {5} is
      refused by createDataSet, a chunk {5} is accepted. */
  method ChunkTooLargeExample() returns (large: Result<Entry>, fitting: Result<Entry>)
    ensures Raises(large, DataSetException)
    ensures fitting == Ok(DatasetEntry([5], Some([5]), []))
  {
    var avail: PropertyLists.FilterId -> bool := _ => true;
    assert "/d"[1..] == "d";
    Paths.EasyParentNameSpec("/d");
    assert ChunkAccepted([10]);
    assert !ChunkWithin([10], [5]) by { assert [10][0] > [5][0]; }
    assert ChunkAccepted([5]) && ChunkWithin([5], [5]);
    var first := new File("f.h5");
    assert !Present(first.objects, "/d");
    large := first.InitDataset("/d", [5], DumpOptions(false, false, 0, [10]), avail);
    var second := new File("f.h5");
    assert !Present(second.objects, "/d");
    fitting := second.InitDataset("/d", [5], DumpOptions(false, false, 0, [5]), avail);
  }

  /** getParentName("/a/b/d") is "/a/b", whose one ancestor is "/a". */
  lemma NestedPathParts()
    ensures Paths.EasyParentName("/a/b/d") == "/a/b"
    ensures Ancestors("/a/b") == ["/a"]
  {
    assert Paths.IsSegment("a") && Paths.IsSegment("b") && Paths.NoSeparator("d");
    assert "/a/b/d" == "/a/b" + ['/'] + "d";
    Paths.EasyParentNameJoin("/a/b", '/', "d");
    ChildAncestors("a", "b");
    assert "/a/b" == "/" + "a" + "/" + "b";
    assert "/a" == "/" + "a";
  }

  /** createGroupsToDataSet for "/a/b/d" on a fresh file creates "/a/b"
      and, as an intermediate group, "/a". */
  lemma NestedParentGroups()
    ensures ParentReady(map["/" := GroupEntry()], "/a/b/d")
    ensures var parented := WithParentGroup(map["/" := GroupEntry()], "/a/b/d");
      "/a" in parented && parented["/a"] == GroupEntry() && Linkable(parented, "/a/b/d")
  {
    var root := map["/" := GroupEntry()];
    NestedPathParts();
    assert !Present(root, "/a/b") && Linkable(root, "/a/b");
    var parented := Linked(root, "/a/b", GroupEntry());
    assert WithParentGroup(root, "/a/b/d") == parented;
    LinkedSpec(root, "/a/b", GroupEntry());
    assert Ancestors("/a/b")[0] == "/a";
    assert |"/a/b/d"| != |"/a"| && |"/a/b/d"| != |"/a/b"|;
    assert forall n :: n in parented ==> parented[n] == GroupEntry();
  }

  /** Linking a dataset at "/a/b/d" keeps the group "/a". */
  lemma NestedDatasetKeepsGroup(objects: map<string, Entry>, entry: Entry)
    requires "/a" in objects && objects["/a"] == GroupEntry()
    ensures var linked := Linked(objects, "/a/b/d", entry);
      "/a" in linked && linked["/a"] == GroupEntry()
  {
    LinkedSpec(objects, "/a/b/d", entry);
  }

  /** A dump to "/a/b/d" creates the groups "/a/b" and, as an intermediate
      group, "/a"; a later dump to "/a" is then a dump error. */
  method IntermediateGroupExample() returns (first: Result<Entry>, second: Result<Entry>)
    ensures first.Ok? && second == Err(DumpError(Objects.ObjectType.Group, "f.h5", "/a"))
  {
    var file := new File("f.h5");
    var plain := DumpOptions(false, false, 0, []);
    NestedParentGroups();
    NestedDatasetKeepsGroup(WithParentGroup(file.objects, "/a/b/d"), DatasetEntry([2], None, []));
    first := file.InitDataset("/a/b/d", [2], plain, _ => true);
    assert "/a" in file.objects && file.objects["/a"] == GroupEntry();
    second := file.InitDataset("/a", [2], plain, _ => true);
  }
}
