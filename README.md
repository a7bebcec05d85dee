# h5gt wrapper rules, modelled in Dafny

h5gt is a C++ header-only wrapper around libhdf5. The storage engine is the
library's; what the wrapper owns is a layer of small rules around the C
calls, and that layer is what this project models and proves:

- path utilities: `splitPath`, `splitPathToParentAndObj`, H5Easy's
  `getParentName`, and the fixed-buffer name reader `get_name`
  (`paths.dfy`);
- the shape `inspector<T>::getDimensions` reports for nested containers
  (`inspector.dfy`);
- datatype descriptors: the type-class tables, `DataType::string()`,
  `isTypeEqual`, `isFixedLenStr`, `create_and_check_datatype` and the
  `AtomicType` endianness table (`datatypes.dfy`); the
  `FixedLenStringArray<N>` container (`fixedlen.dfy`); the
  `CompoundType::create` layout in `size_t` arithmetic and `EnumType::create`
  (`compound.dfy`);
- selections: `ElementSet`, hyperslab, element, row and column selections
  and the rank check before `read` and `write` (`selection.dfy`);
- the `NodeTraits` probes `exist`, `resolved`, `existAndResolved`,
  `hasObject` and the link-table operations `unlink`, `rename`,
  `getLinkType`, `_createLink` (`node.dfy`);
- the `File` constructor's open-or-create decision and `convert_open_flag`
  (`file.dfy`);
- handle reference counting of `Object` and `PropertyList` over the
  library's identifier table (`objects.dfy`, `proplist.dfy`);
- the property-list queries and settings: `getChunk`, `addExternalFile`'s
  size rule, `setShuffle` / `setDeflate`, the layout predicates and the
  `FromId` class checks (`proplist.dfy`);
- `DataSet::resize`, `getParent`, `getMemSpace`, `rename` and the `Group`
  members `getParent`, `rename`, `unlink`, `==` / `!=`, `FromId`
  (`dataset.dfy`);
- H5Easy's dump rules `createGroupsToDataSet`, `dump_error`, `initDataset`,
  `initScalarDataset`, `initAttribute`, `initScalarAttribute` over an
  abstract file (`easy.dfy`).

Every libhdf5 call is an oracle: a function-typed parameter giving the
status the call returns, or a small state (the identifier table
`Objects.IdTable`, a group's link table `Nodes.Node`, the object map of
`Easy.File`) whose methods state what the call does to it. Exceptions are
`Err` / `Fail` values carrying the wrapper's exception class. `size_t`,
`hsize_t` and `uint64_t` arithmetic is written out modulo 2^64
(`Wrappers.SubU64`, `AddU64`, `MulU64`).

## Model

| member | source | states |
|---|---|---|
| Paths.SplitPath | include/h5gt/bits/H5Utils.hpp:303-318 | the loop that cuts the path at each '/' and keeps the non-empty pieces yields exactly `Segments(path)` |
| Paths.SegmentsAreSegments | include/h5gt/bits/H5Utils.hpp:303-318 | no segment is empty and no segment contains '/' |
| Paths.SegmentsConcat | include/h5gt/bits/H5Utils.hpp:298-318 | concatenating the segments gives the input with every '/' removed |
| Paths.SegmentsEmptyIff | include/h5gt/bits/H5Utils.hpp:308-315 | the result is empty exactly for "" and for strings made only of '/' |
| Paths.SplitPathExample | include/h5gt/bits/H5Utils.hpp:298-302 | "/a//b/" splits into ["a", "b"]: repeated and trailing slashes give no empty segment |
| Paths.SegmentsJoinSlash | include/h5gt/bits/H5Utils.hpp:303-318 | splitting well-formed segments joined by single slashes gives them back |
| Paths.SplitPathToParentAndObj | include/h5gt/bits/H5Utils.hpp:328-352 | "" gives parent "" with objName untouched; an all-slash path gives "" and clears objName; otherwise objName is the last segment and the parent is the root prefix followed by the other segments joined by '/' |
| Paths.AppendParent | include/h5gt/bits/H5Utils.hpp:340-349 | the parent-building loop appends all segments but the last, separated by single slashes |
| Paths.ParentSegments | include/h5gt/bits/H5Utils.hpp:334-352 | splitting the parent gives all segments of the path but the last |
| Paths.ParentKeepsRoot | include/h5gt/bits/H5Utils.hpp:340-349 | the parent starts with '/' exactly when the path does |
| Paths.ParentExamples | include/h5gt/bits/H5Utils.hpp:340-349 | "/a" has parent "/" and "a" has parent "" |
| Paths.FindLastSeparator | include/h5gt/h5easy_bits/H5Easy_misc.hpp:27 | the index of the last '/' or '\\', or the length when there is none |
| Paths.EasyParentNameSpec | include/h5gt/h5easy_bits/H5Easy_misc.hpp:26-35 | getParentName is "/" without a separator or when the only separator is the first character; otherwise it is a proper prefix followed by a separator and a separator-free name |
| Paths.EasyParentName | include/h5gt/h5easy_bits/H5Easy_misc.hpp:26-35 | getParentName; `Paths.EasyParentNameSpec` and `Paths.EasyParentNameJoin` state its branches |
| Paths.EasyParentNameJoin | include/h5gt/h5easy_bits/H5Easy_misc.hpp:19-35 | getParentName(parent + sep + name) is parent for a separator-free name, as "/path/to/dataset" gives "/path/to" |
| Paths.EasyParentNameExample | include/h5gt/h5easy_bits/H5Easy_misc.hpp:28-31 | "dataset" and "/dataset" both give "/" |
| Paths.QueryName | include/h5gt/bits/H5Utils.hpp:284-285 | the library side of a name query: at most size-1 characters and a NUL are copied, the full length or a negative code is returned |
| Paths.GetName | include/h5gt/bits/H5Utils.hpp:281-296 | a negative return code raises the given exception; otherwise the result is exactly the name, read with one buffer of MAX_PATH_LEN + 1 or, for a longer name, a second one of length + 1 |
| Inspector.GetDimensions | include/h5gt/bits/H5Utils.hpp:49-141 | the result, when there is one, has recursive_ndim entries |
| Inspector.DimensionsShape | include/h5gt/bits/H5Utils.hpp:74-141 | getDimensions fails exactly when a pointer type is on the path; otherwise the outer size comes first (the vector's size, or N) and the dimensions of element 0 follow |
| Inspector.DimensionsCountLeaves | include/h5gt/bits/H5Utils.hpp:74-141 | for a rectangular value the product of the dimensions is the number of scalars it holds |
| Inspector.DimensionsExample | include/h5gt/bits/H5Utils.hpp:74-124 | a 2 x 3 vector of vectors has dimensions {2, 3}; a vector of pointers cannot be sized |
| DataTypes.ConvertTypeClass | include/h5gt/bits/H5DataType_misc.hpp:547-576 | a library class code maps to Invalid exactly when it is not one of the eleven real classes |
| DataTypes.ClassCode | include/h5gt/bits/H5DataType_misc.hpp:547-576 | every real class has a code that convert_type_class maps back to it |
| DataTypes.ConvertTypeClassInjective | include/h5gt/bits/H5DataType_misc.hpp:547-576 | no two real class codes map to the same class |
| DataTypes.TypeClassString | include/h5gt/bits/H5DataType_misc.hpp:579-606 | each name reads back as its own class, is non-empty and has no digit |
| DataTypes.TypeStringInjective | include/h5gt/bits/H5DataType_misc.hpp:80-82 | the printed name of string() determines the class and the bit count 8 * size |
| DataTypes.TypeString | include/h5gt/bits/H5DataType_misc.hpp:80-82 | DataType::string(): the class name followed by the decimal bit count 8 * size in size_t arithmetic; `DataTypes.TypeStringInjective` and `DataTypes.TypeStringExamples` state what it prints |
| DataTypes.TypeStringExamples | include/h5gt/bits/H5DataType_misc.hpp:80-82 | an 8-byte float prints "Float64" (tests/unit/tests_h5gt_base.cpp:1291), a 4-byte integer "Integer32" |
| DataTypes.IsVariableStr | include/h5gt/bits/H5DataType_misc.hpp:55-62 | a negative library answer raises DataTypeException, otherwise the answer is whether it is positive |
| DataTypes.IsFixedLenStr | include/h5gt/bits/H5DataType_misc.hpp:64-66 | true exactly for a String class that is not variable length; only a string type can raise |
| DataTypes.IsTypeEqual | include/h5gt/bits/H5DataType_misc.hpp:42-53 | two variable-length strings are equal; otherwise the answer is H5Tequal's, the mixed-case test never firing |
| DataTypes.CreateAndCheck | include/h5gt/bits/H5DataType_misc.hpp:618-642 | passes exactly for a non-empty type whose variable-string query succeeds and which is a variable string, a reference or of size sizeof(T); failures are DataTypeException |
| DataTypes.AtomicTypeEndianSpec | include/h5gt/bits/H5DataType_misc.hpp:85-257 | Big picks the byte-swapped type of Little, Native a native type, and string types and object references (H5T_STD_REF_OBJ, lines 402-405) ignore the endianness |
| DataTypes.AtomicTypeFor | include/h5gt/bits/H5DataType_misc.hpp:85-257 | the predefined type each AtomicType<T>(endian) constructor picks (object references at lines 402-405); `DataTypes.AtomicTypeEndianSpec` states how it depends on the endianness |
| FixedLen.CString | include/h5gt/bits/H5DataType_misc.hpp:395-398 | the characters before the first NUL: a NUL-free prefix followed by a NUL or the end |
| FixedLen.Entry | include/h5gt/bits/H5DataType_misc.hpp:364-367 | an N-character entry holding the copied characters then a NUL |
| FixedLen.EntryReadsBack | include/h5gt/bits/H5DataType_misc.hpp:360-387 | both ways of storing a string read back as its C string cut to N - 1 characters |
| FixedLen.PushBackRoundTrip | include/h5gt/bits/H5DataType_misc.hpp:381-398 | getString(push_back(s)) == s for a NUL-free s shorter than N |
| FixedLen.FixedLenStringArray.constructor | include/h5gt/H5DataType.hpp:307 | the default constructor holds no entries |
| FixedLen.FixedLenStringArray.FromRaw | include/h5gt/bits/H5DataType_misc.hpp:352-357 | the raw-buffer constructor holds the first `length` arrays as they are |
| FixedLen.FixedLenStringArray.FromRange | include/h5gt/bits/H5DataType_misc.hpp:359-369 | one entry per string of the range, each its truncated C string |
| FixedLen.FixedLenStringArray.FromVectorAsWritten | include/h5gt/bits/H5DataType_misc.hpp:371-374 | the vector constructor as written keeps all strings but the last |
| FixedLen.FixedLenStringArray.FromVector | include/h5gt/bits/H5DataType_misc.hpp:371-374 | the vector constructor with the intended range keeps one entry per string |
| FixedLen.FixedLenStringArray.FromInitList | include/h5gt/bits/H5DataType_misc.hpp:376-379 | the initializer-list constructor keeps every string, each truncated to N - 1 characters |
| FixedLen.FixedLenStringArray.PushBack | include/h5gt/bits/H5DataType_misc.hpp:381-387 | appends min(N - 1, length) characters and a NUL, nothing else changes |
| FixedLen.FixedLenStringArray.PushBackArray | include/h5gt/bits/H5DataType_misc.hpp:389-393 | appends the N characters unchanged |
| FixedLen.FixedLenStringArray.GetString | include/h5gt/bits/H5DataType_misc.hpp:395-398 | entry i read up to its first NUL |
| FixedLen.FixedLenStringArray.Size | include/h5gt/H5DataType.hpp:347-349 | the number of entries |
| FixedLen.FixedLenStringArray.IsEmpty | include/h5gt/H5DataType.hpp:344-346 | true exactly when size() is 0 |
| FixedLen.FixedLenStringArray.Get | include/h5gt/H5DataType.hpp:338-340 | operator[](i) is entry i |
| FixedLen.FixedLenStringArray.At | include/h5gt/H5DataType.hpp:341-343 | at(i) is entry i, or std::out_of_range past the end |
| FixedLen.FixedLenStringArray.Front | include/h5gt/H5DataType.hpp:353-355 | front() is entry 0 |
| FixedLen.FixedLenStringArray.Back | include/h5gt/H5DataType.hpp:356-358 | back() is entry size - 1 |
| FixedLen.FixedLenStringArray.Resize | include/h5gt/H5DataType.hpp:350-352 | size becomes n, the first min(old, n) entries are kept and new ones are zero-filled |
| FixedLen.FixedLenStringArray.WriteData | include/h5gt/H5DataType.hpp:359-361 | a write through data() at an index below N changes that character of entry 0 and nothing else |
| FixedLen.WriteDataExample | tests/unit/tests_h5gt_base.cpp:2016-2018 | writing 'x' through data() over "000" reads back "x00" |
| FixedLen.VectorConstructorExample | include/h5gt/bits/H5DataType_misc.hpp:371-374 | on {"0000", "1111"} the constructor as written keeps one string, the intended one keeps both |
| Compound.Padding | include/h5gt/bits/H5DataType_misc.hpp:408 | the padding macro, (member - current) mod 2^64 mod member, is below the member size |
| Compound.LayoutOffsets | include/h5gt/bits/H5DataType_misc.hpp:414-430 | one offset per member |
| Compound.MaxSize | include/h5gt/bits/H5DataType_misc.hpp:430 | max_type_size is the largest member size |
| Compound.LayoutAligned | include/h5gt/bits/H5DataType_misc.hpp:409-434 | when every size divides 2^64 (a power of two) each offset is a multiple of its size and the total a multiple of the largest size |
| Compound.LayoutEnd | include/h5gt/bits/H5DataType_misc.hpp:413-428 | current_size after the first pass of create(0) over the members |
| Compound.LayoutSize | include/h5gt/bits/H5DataType_misc.hpp:409-431 | the size create(0) computes: current_size padded against the largest member; `Compound.LayoutAligned` states its alignment |
| Compound.NoOverlap | include/h5gt/bits/H5DataType_misc.hpp:423-431 | without wrap-around members never overlap and offsets increase in declaration order |
| Compound.SizeCoversMembers | include/h5gt/bits/H5DataType_misc.hpp:433 | the total size covers every member |
| Compound.LayoutExampleInts | tests/unit/tests_h5gt_base.cpp:1670-1675 | sizes [4, 4, 4] give offsets 0, 4, 8 and size 12 |
| Compound.LayoutExampleMixed | include/h5gt/bits/H5DataType_misc.hpp:409-434 | sizes [4, 8, 4] give offsets 0, 8, 16 and size 24 |
| Compound.MemberOf | include/h5gt/H5DataType.hpp:150-152 | member_def's offset defaults to 0 |
| Compound.FirstZero | include/h5gt/bits/H5DataType_misc.hpp:415-420 | the index of the first member whose size is 0, all members before it positive |
| Compound.CompoundType.constructor | include/h5gt/H5DataType.hpp:165-178 | the members are stored and no library type exists yet |
| Compound.CompoundType.LayOutMembers | include/h5gt/bits/H5DataType_misc.hpp:413-433 | each member gets its padded offset in turn; a size-0 member stops the loop with the earlier offsets set; otherwise the total is the padded end |
| Compound.CompoundType.Create | include/h5gt/bits/H5DataType_misc.hpp:411-450 | size 0 lays the members out (a size-0 member throws before H5Tcreate), a nonzero size keeps the caller's offsets; the outcome passes iff H5Tcreate and every H5Tinsert succeed; failures are DataTypeException |
| Compound.NewCompoundType | include/h5gt/H5DataType.hpp:165-178 | every constructor stores the members and calls create(size), laying them out when size is 0 |
| Compound.EnumType.constructor | include/h5gt/H5DataType.hpp:255-258 | the member-storing part of the constructors |
| Compound.NewEnumType | include/h5gt/H5DataType.hpp:255-261 | both constructors store the members and call create(): the type is the new enum id, and the outcome passes iff H5Tenum_create and every insertion succeed, DataTypeException otherwise |
| Compound.EnumType.Create | include/h5gt/bits/H5DataType_misc.hpp:485-500 | passes iff H5Tenum_create and every insertion succeed; failures are DataTypeException |
| Selections.CollectIds | include/h5gt/bits/H5Slice_traits_misc.hpp:68-72 | the loop appends every vector in order: the result is their concatenation |
| Selections.FlattenElement | include/h5gt/bits/H5Slice_traits_misc.hpp:68-72 | coordinate j of vector i lands after the coordinates of the vectors before it |
| Selections.FlattenLength | include/h5gt/bits/H5Slice_traits_misc.hpp:68-72 | the flattened set holds as many coordinates as all vectors together |
| Selections.ElementSet.FromList | include/h5gt/bits/H5Slice_traits_misc.hpp:59-66 | a flat list is kept as it is |
| Selections.ElementSet.FromNested | include/h5gt/bits/H5Slice_traits_misc.hpp:62-72 | nested vectors are concatenated in order |
| Selections.CountTimesBlock | include/h5gt/bits/H5Slice_traits_misc.hpp:92-98 | one entry per block dimension |
| Selections.SelectHyperslab | include/h5gt/bits/H5Slice_traits_misc.hpp:75-109 | a failed selection raises DataSpaceException; otherwise the file space keeps the dataset's dims and the memory space is count, or count[i] * block[i] with a block |
| Selections.BlockedElementCount | include/h5gt/bits/H5Slice_traits_misc.hpp:92-108 | without wrap-around the blocked memory space holds count x block elements |
| Selections.SelectElements | include/h5gt/bits/H5Slice_traits_misc.hpp:111-141 | succeeds iff the coordinate count is a multiple of the rank and the library accepts; the memory space is 1-D of length count / rank |
| Selections.SelectElementsExamples | tests/unit/tests_h5gt_base.cpp:935-965 | {1, 1} selects one element, {0, 0, 2, 2} and {{0, 1}, {1, 2}} two, {0, 1, 2} throws |
| Selections.SelectRows | include/h5gt/bits/H5Slice_traits_misc.hpp:143-180 | memory dim 0 is the number of rows, dim 1 follows the offset / count rule, the rest are unchanged; one row hyperslab per index, stopping at the first failing one with DataSpaceException |
| Selections.SelectCols | include/h5gt/bits/H5Slice_traits_misc.hpp:182-220 | the last memory dim is the number of columns and the offset / count rule acts on dim 0; one column hyperslab per index |
| Selections.ReadOrWrite | include/h5gt/bits/H5Slice_traits_misc.hpp:222-289 | a rank mismatch throws DataSpaceException without any I/O; otherwise the transfer's status decides |
| Nodes.Probe | include/h5gt/bits/H5Node_traits_misc.hpp:223-269 | "" is absent; a negative status raises GroupException only with raise_errors; "/" is present whenever the probe succeeds |
| Nodes.LookupSpec | include/h5gt/bits/H5Node_traits_misc.hpp:271-297 | exist / resolved: "" is false, "/" is true, a name holding '/' never raises; a plain name raises iff the probe fails and raise_errors is set |
| Nodes.Lookup | include/h5gt/bits/H5Node_traits_misc.hpp:271-297 | the shared body of exist and resolved over a probe; `Nodes.LookupSpec` states its answers |
| Nodes.Exist | include/h5gt/bits/H5Node_traits_misc.hpp:271-283 | exist: Lookup over H5Lexists with the "Invalid link for exist()" message |
| Nodes.Resolved | include/h5gt/bits/H5Node_traits_misc.hpp:285-297 | resolved: Lookup over H5Oexists_by_name with the "Invalid link for resolved()" message |
| Nodes.ExistAndResolved | include/h5gt/bits/H5Node_traits_misc.hpp:299-310 | true iff exist and resolved are both true; resolved is asked only after exist holds |
| Nodes.GetObjectType | include/h5gt/bits/H5Node_traits_misc.hpp:350-354 | the converted type of the opened object, or GroupException when it cannot be opened |
| Nodes.HasObject | include/h5gt/bits/H5Node_traits_misc.hpp:312-324 | true iff existAndResolved holds and the object's type is the requested one |
| Nodes.ExistExamples | tests/unit/tests_h5gt_base.cpp:1241 | a missing intermediate group gives false even with raise_errors, a failing plain name raises |
| Nodes.LinkTypeFromInfo | include/h5gt/bits/H5Node_traits_misc.hpp:337-348 | GroupException when H5Lget_info fails or reports the error type, otherwise the converted type |
| Nodes.Node.constructor | include/h5gt/bits/H5Node_traits_misc.hpp:327-329 | the group's link table |
| Nodes.Node.Unlink | include/h5gt/bits/H5Node_traits_misc.hpp:326-335 | a present link is removed; a missing one raises GroupException and changes nothing |
| Nodes.Node.GetLinkType | include/h5gt/bits/H5Node_traits_misc.hpp:337-348 | the type of a present link, GroupException for a missing one |
| Nodes.Node.Rename | include/h5gt/bits/H5Node_traits_misc.hpp:187-201 | moves src to dst iff src exists and dst is free; otherwise GroupException and no change |
| Nodes.Node.CreateLink | include/h5gt/bits/H5Node_traits_misc.hpp:471-507 | an empty target path means the target's own; Soft, Hard and External create the link when the name is free; any other type fails with GroupException |
| Nodes.Node.AddLink | include/h5gt/bits/H5Node_traits_misc.hpp:481-498 | one H5Lcreate_* call: it succeeds iff the name is free |
| Nodes.NewLinkKind | include/h5gt/bits/H5Node_traits_misc.hpp:481-498 | a created link reports the type it was created with |
| Nodes.ExistAfterUnlink | tests/unit/tests_h5gt_base.cpp:1246-1255 | after unlinking a plain name, exist reports it absent |
| Nodes.ExistAfterCreate | include/h5gt/bits/H5Node_traits_misc.hpp:223-245 | after creating a link under a non-empty name, exist reports it present |
| Files.ConvertOpenFlag | include/h5gt/bits/H5File_misc.hpp:24-37 | each wrapper flag sets exactly its own library bit, no other bit is set, and 0 maps to 0 |
| Files.OpenFile | include/h5gt/bits/H5File_misc.hpp:41-77 | without Truncate or Excl the file is opened first and a success stops there; a failed open raises FileException without Create and becomes an exclusive create with it; with Truncate or Excl only create is called, with exactly those bits; a failed create raises FileException |
| Files.FlagBits | include/h5gt/bits/H5File_misc.hpp:44-47 | the translated flags are the wrapper flags restricted to the four known bits |
| Files.OpenModeExample | tests/unit/tests_h5gt_base.cpp:122-125 | ReadWrite on a missing file fails; ReadWrite \| Create then opens and creates exclusively |
| Objects.ConvertObjectType | include/h5gt/bits/H5Object_misc.hpp:19-38 | total; Other exactly for unrecognised id classes |
| Objects.IdTypeOf | include/h5gt/bits/H5Object_misc.hpp:19-38 | every object kind but Other is reached |
| Objects.ConvertObjectTypeInjective | include/h5gt/bits/H5Object_misc.hpp:19-38 | two recognised classes never map to the same kind |
| Objects.ConvertLinkType | include/h5gt/bits/H5Object_misc.hpp:40-53 | total; Other exactly for codes other than hard, soft and external |
| Objects.LinkCode | include/h5gt/bits/H5Object_misc.hpp:40-53 | every link type but Other has a code mapping back to it |
| Objects.Inc | include/h5gt/bits/H5Object_misc.hpp:59-63 | a live id gains one reference, nothing else changes |
| Objects.Dec | include/h5gt/bits/H5Object_misc.hpp:120-125 | a live id loses one reference and is closed with its last one, nothing else changes |
| Objects.DecAfterInc | include/h5gt/bits/H5Object_misc.hpp:92-103 | taking and giving back a reference restores every count |
| Objects.IncAfterDec | include/h5gt/bits/H5Object_misc.hpp:92-103 | giving back and retaking is a no-op unless it was the last reference, which closes the id |
| Objects.IdTable.GetType | include/h5gt/bits/H5Object_misc.hpp:72-80 | H5Iget_type reports a bad id for an id that is not live |
| Objects.IdTable.IsLive | include/h5gt/bits/H5Object_misc.hpp:127-129 | H5Iis_valid: the id has a positive reference count in the table |
| Objects.IdTable.HasLiveFile | include/h5gt/bits/H5Object_misc.hpp:144-146 | whether H5Iget_file_id succeeds: the object's id and its file's id are both live |
| Objects.IdTable.IncRef | include/h5gt/bits/H5Object_misc.hpp:59-63 | H5Iinc_ref: the count grows by one and is returned, -1 for a dead id |
| Objects.IdTable.DecRef | include/h5gt/bits/H5Object_misc.hpp:120-125 | H5Idec_ref: the count shrinks by one and is returned, -1 for a dead id |
| Objects.IdTable.GetFileIdOf | include/h5gt/bits/H5Object_misc.hpp:144-146 | a new reference to the file when the object's id and its file are both live; otherwise, in particular for an id that is not live, an invalid id and no change |
| Objects.Object.constructor | include/h5gt/bits/H5Object_misc.hpp:55 | Object() holds no id |
| Objects.Object.FromHid | include/h5gt/bits/H5Object_misc.hpp:57 | Object(hid) adopts the id without touching its count |
| Objects.Object.Copy | include/h5gt/bits/H5Object_misc.hpp:59-63 | copying a valid object takes one reference, copying an invalid one changes nothing |
| Objects.Object.Move | include/h5gt/bits/H5Object_misc.hpp:65-68 | the id moves over with counts unchanged and the source becomes invalid |
| Objects.Object.OfType | include/h5gt/bits/H5Object_misc.hpp:70-90 | fails with ObjectException (no count change) on a negative id or another kind; otherwise takes a reference iff asked |
| Objects.Object.Assign | include/h5gt/bits/H5Object_misc.hpp:92-103 | self-assignment changes nothing; otherwise the old id loses a reference and the new one gains one |
| Objects.Object.Destroy | include/h5gt/bits/H5Object_misc.hpp:120-125 | a valid id loses exactly one reference |
| Objects.Object.GetId | include/h5gt/bits/H5Object_misc.hpp:137-142 | returns the id, taking a reference iff asked |
| Objects.Object.GetFileId | include/h5gt/bits/H5Object_misc.hpp:144-155 | the file id when the object and its file are live; ObjectException otherwise, in particular once the object's own id is closed; the reference H5Iget_file_id took is given back unless asked to keep it |
| Objects.FileIdAfterDestroyExample | include/h5gt/bits/H5Object_misc.hpp:144-155 | a dataset of file 7 reports file 7 while open and throws ObjectException after its last reference is released |
| Objects.FromIdExample | tests/unit/tests_h5gt_base.cpp:1398-1401 | repeated FromId(id, true) raises the count to 2, then 3 |
| PropertyLists.PropertyTypeOf | include/h5gt/bits/H5PropertyList_misc.hpp:17-55 | every predefined class is the class of some category |
| PropertyLists.ConvertPlistTypeBijective | include/h5gt/bits/H5PropertyList_misc.hpp:17-55 | the 15 categories map to distinct classes and every class is reached |
| PropertyLists.ConvertPlistType | include/h5gt/bits/H5PropertyList_misc.hpp:17-55 | convert_plist_type, one predefined class per category; `PropertyLists.ConvertPlistTypeBijective` states it is a bijection |
| PropertyLists.PropertyList.GetObjectType | include/h5gt/H5PropertyList.hpp:97-99 | getObjectType: the category (the template argument) the list was made for |
| PropertyLists.ConvertLayoutType | include/h5gt/H5PropertyList.hpp:25-45 | Unknown (-1) exactly for codes other than the four layouts |
| PropertyLists.LayoutCode | include/h5gt/H5PropertyList.hpp:25-45 | every known layout has a code mapping back to it |
| PropertyLists.LayoutQueriesExclusive | include/h5gt/bits/H5PropertyList_misc.hpp:270-297 | for each known layout exactly one of isCompact / isContiguous / isChunked / isVirtual holds, none for anything else |
| PropertyLists.IsCompact | include/h5gt/bits/H5PropertyList_misc.hpp:275-279 | isCompact: the converted layout is COMPACT; `PropertyLists.LayoutQueriesExclusive` relates the four queries |
| PropertyLists.IsContiguous | include/h5gt/bits/H5PropertyList_misc.hpp:281-285 | isContiguous: the converted layout is CONTIGUOUS |
| PropertyLists.IsChunked | include/h5gt/bits/H5PropertyList_misc.hpp:287-291 | isChunked: the converted layout is CHUNKED |
| PropertyLists.IsVirtual | include/h5gt/bits/H5PropertyList_misc.hpp:293-297 | isVirtual: the converted layout is VIRTUAL |
| PropertyLists.Release | include/h5gt/H5PropertyList.hpp:77-81 | the destructor's effect: nothing for H5P_DEFAULT, one reference less otherwise |
| PropertyLists.PropertyList.FromHid | include/h5gt/H5PropertyList.hpp:118 | PropertyList(hid) adopts the id |
| PropertyLists.PropertyList.Create | include/h5gt/bits/H5PropertyList_misc.hpp:59-65 | initializeId: PropertyException without any count change when H5Pcreate fails, otherwise a fresh list on the new id with one reference |
| PropertyLists.PropertyList.Copy | include/h5gt/H5PropertyList.hpp:83-84 | the copy shares the id and takes one reference |
| PropertyLists.PropertyList.Move | include/h5gt/H5PropertyList.hpp:112-115 | the id moves over and the source becomes invalid |
| PropertyLists.PropertyList.CopyAssignAsWritten | include/h5gt/H5PropertyList.hpp:86-89 | takes the other id with a reference and does not release the old one |
| PropertyLists.PropertyList.CopyAssign | include/h5gt/H5PropertyList.hpp:86-89 | self-assignment is a no-op; otherwise the other id gains a reference and the old id is released |
| PropertyLists.PropertyList.MoveAssignAsWritten | include/h5gt/H5PropertyList.hpp:91-95 | takes the other id and invalidates the source without releasing the old id |
| PropertyLists.PropertyList.MoveAssign | include/h5gt/H5PropertyList.hpp:91-95 | self-move is a no-op; otherwise the old id is released, the other's is taken over and the source is invalid |
| PropertyLists.PropertyList.Destroy | include/h5gt/H5PropertyList.hpp:77-81 | H5Pclose unless the id is H5P_DEFAULT |
| PropertyLists.PropertyList.GetId | include/h5gt/H5PropertyList.hpp:101-106 | returns the id, taking a reference iff asked |
| PropertyLists.PropertyList.FromId | include/h5gt/H5PropertyList.hpp:175-190 | DataSetCreateProps / DataSetAccessProps::FromId (also lines 247-262) refuse with PropertyException an id of another class and take a reference iff asked |
| PropertyLists.NewLinkCreateProps | include/h5gt/H5PropertyList.hpp:131-133 | a default LinkCreateProps asks for create-intermediate-group 1; on failure the new id is closed again |
| PropertyLists.CopyAssignLeaks | include/h5gt/H5PropertyList.hpp:86-89 | a = b then destroying both leaves the old id open as written |
| PropertyLists.CopyAssignCloses | include/h5gt/H5PropertyList.hpp:86-89 | with the intended copy assignment every id is closed |
| PropertyLists.MoveAssignLeaks | include/h5gt/H5PropertyList.hpp:91-95 | a = std::move(b) then destroying both leaves the old id open as written |
| PropertyLists.MoveAssignCloses | include/h5gt/H5PropertyList.hpp:91-95 | with the intended move assignment every id is closed |
| PropertyLists.GetChunk | include/h5gt/bits/H5PropertyList_misc.hpp:249-268 | PropertyException iff H5Pget_chunk fails; otherwise the dims up to the first zero: at most max entries, all positive, followed by a zero when shorter |
| PropertyLists.ChunkPrefix | include/h5gt/bits/H5PropertyList_misc.hpp:260-265 | a positive prefix followed by a zero or the end is where getChunk stops |
| PropertyLists.GetChunkExample | tests/unit/tests_h5gt_base.cpp:1425-1433 | chunk {2, 3} with max 4 reads back {2, 3} |
| PropertyLists.ExternalSizeSpec | include/h5gt/bits/H5PropertyList_misc.hpp:111-125 | a nonzero size is kept; size 0 becomes 0 when the file size is unknown, and otherwise maps the rest of the file, wrapping modulo 2^64 past the end |
| PropertyLists.ExternalSize | include/h5gt/bits/H5PropertyList_misc.hpp:111-125 | the size addExternalFile hands to H5Pset_external; `PropertyLists.ExternalSizeSpec` states what it means |
| PropertyLists.AddExternalFile | include/h5gt/bits/H5PropertyList_misc.hpp:111-126 | H5Pset_external receives the file, the offset and that size; its failure raises PropertyException |
| PropertyLists.SetShuffle | include/h5gt/bits/H5PropertyList_misc.hpp:140-150 | PropertyException when the shuffle filter is unavailable or H5Pset_shuffle fails |
| PropertyLists.SetDeflateAsWritten | include/h5gt/bits/H5PropertyList_misc.hpp:152-162 | as written, setDeflate fails when the shuffle filter is unavailable |
| PropertyLists.SetDeflate | include/h5gt/bits/H5PropertyList_misc.hpp:152-162 | fails with PropertyException when the deflate filter is unavailable or H5Pset_deflate fails |
| PropertyLists.SetDeflateGuard | include/h5gt/bits/H5PropertyList_misc.hpp:152-162 | with only one of the two filters available, the written and the intended guard disagree |
| PropertyLists.GetVirtualDataSetName | include/h5gt/bits/H5PropertyList_misc.hpp:203-220 | get_name's buffer and retry rule with PropertyException |
| PropertyLists.GetVirtualFileName | include/h5gt/bits/H5PropertyList_misc.hpp:222-239 | get_name's buffer and retry rule with PropertyException |
| DataSets.ParentGroup | include/h5gt/H5Group.hpp:67-80 | "/" and a path with an empty parent raise the object's exception; otherwise the result is the parent of splitPathToParentAndObj (all segments but the last), provided it opens as a group |
| DataSets.GetParentChain | tests/unit/tests_h5gt_base.cpp:1555-1568 | "/path/to/group" gives "/path/to", then "/path", then "/", and "/" throws |
| DataSets.ParentChainPaths | tests/unit/tests_h5gt_base.cpp:1555-1568 | the segments and parents along that chain |
| DataSets.AbsoluteSegments | include/h5gt/bits/H5Utils.hpp:334-352 | "/" followed by joined segments splits back into them, its parent joining all but the last |
| DataSets.DataSet.constructor | include/h5gt/bits/H5DataSet_misc.hpp:41-48 | a dataset at a path with its dimensions |
| DataSets.DataSet.GetSpace | include/h5gt/bits/H5DataSet_misc.hpp:41-48 | the dataset's dims, or DataSetException when H5Dget_space fails |
| DataSets.DataSet.GetMemSpace | include/h5gt/bits/H5DataSet_misc.hpp:50-52 | the same as getSpace |
| DataSets.DataSet.Resize | include/h5gt/bits/H5DataSet_misc.hpp:119-134 | succeeds iff the rank matches and H5Dset_extent accepts; then the dims are exactly the new ones, else DataSetException and no change |
| DataSets.DataSet.Rename | include/h5gt/bits/H5DataSet_misc.hpp:62-74 | moves the dataset's own link to dst, DataSetException and no change on failure |
| DataSets.DataSet.GetParent | include/h5gt/bits/H5DataSet_misc.hpp:76-90 | the parent of the dataset's path, with DataSetException when there is none |
| DataSets.ResizeExample | tests/unit/tests_h5gt_base.cpp:260-283 | 4 x 5 with maximum 17 x unlimited grows to 4 x 6, then 18 x 1 and a rank-3 vector are refused |
| DataSets.Group.constructor | include/h5gt/H5Group.hpp:98-100 | a group at a path with its file number and token |
| DataSets.Group.Rename | include/h5gt/H5Group.hpp:61-65 | NodeTraits::rename from getPath() to dest, GroupException on failure |
| DataSets.Group.Equals | include/h5gt/H5Group.hpp:85-87 | operator==: the two groups are the same object of the same file |
| DataSets.Group.NotEquals | include/h5gt/H5Group.hpp:89-91 | operator!=: the negation of operator== |
| DataSets.Group.Unlink | include/h5gt/H5Group.hpp:50-52 | removes the link at getPath() |
| DataSets.Group.GetParent | include/h5gt/H5Group.hpp:67-80 | the parent of the group's path, GroupException when there is none |
| DataSets.EqualityLaws | include/h5gt/H5Group.hpp:85-91 | != is the negation of ==, and == is symmetric and reflexive |
| DataSets.GroupFromId | include/h5gt/H5Group.hpp:93-96 | ObjectException unless the id is a group; the temporary's copy leaves a net reference iff increaseRefCount |
| Easy.ExistSpec | include/h5gt/h5easy_bits/H5Easy_misc.hpp:46 | exist() over the file never raises and answers whether the path is a non-empty key of the file |
| Easy.EasyErrorStarts | include/h5gt/h5easy_bits/H5Easy_misc.hpp:52-60 | error()'s text begins with the message, followed by the path and the file name |
| Easy.DumpError | include/h5gt/h5easy_bits/H5Easy_misc.hpp:63-73 | an EasyException whose message begins with "Dataset already exists" iff the object in the way is a dataset, and with "path exists, but does not correspond to a Dataset" otherwise |
| Easy.File.constructor | include/h5gt/h5easy_bits/H5Easy_misc.hpp:44-49 | a new file holds its root group |
| Easy.File.CreateGroup | include/h5gt/bits/H5Node_traits_misc.hpp:125-137 | with the default LinkCreateProps (create-intermediate-group 1, include/h5gt/H5PropertyList.hpp:131-133) the group is created iff the name is non-empty and free and every existing ancestor is a group; then every missing ancestor becomes a group too; otherwise GroupException and no change |
| Easy.File.CreateGroupsToDataSet | include/h5gt/h5easy_bits/H5Easy_misc.hpp:44-49 | getParentName's group is created, with its missing ancestors, only when it does not exist yet; it succeeds iff that group exists or can be created, and createGroup's GroupException propagates otherwise |
| Easy.File.CreateDataSet | include/h5gt/bits/H5Node_traits_misc.hpp:36-53 | with the default LinkCreateProps a dataset is added, with every missing ancestor as a group, iff the name is non-empty and free, every existing ancestor is a group, and its chunk dimensions, if any, do not exceed its dimensions (the dataspace's maximum dimensions are its dimensions); otherwise DataSetException and no change |
| Easy.File.InitDataset | include/h5gt/h5easy_bits/H5Easy_misc.hpp:77-112 | a new path whose parent group cannot be created throws createGroup's GroupException; otherwise it gets its parent group and a plain dataset without compression or chunking, else a chunked one (by the chunk size, whose rank must match, or by the shape) with shuffle and deflate when compressing, the missing ancestors linked as groups, refused with DataSetException when a chunk dimension exceeds the shape or an ancestor is not a group; an existing dataset under Overwrite is returned iff its dims are the shape, else "Inconsistent dimensions"; anything else is dump_error, the file unchanged |
| Easy.File.InitScalarDataset | include/h5gt/h5easy_bits/H5Easy_misc.hpp:116-132 | a new path whose parent group cannot be created throws GroupException; otherwise it gets its parent group and, when it can be linked, a scalar dataset with the missing ancestors as groups (DataSetException otherwise); an existing dataset under Overwrite is returned iff it holds one element, else "Existing field not a scalar"; anything else is dump_error |
| Easy.File.AttributeTarget | include/h5gt/h5easy_bits/H5Easy_misc.hpp:142-148 | "DataSet does not exist" for a missing path, "path not a DataSet" for another kind, else the dataset |
| Easy.File.CreateAttribute | include/h5gt/h5easy_bits/H5Easy_misc.hpp:149-150 | a free non-empty key gets an attribute of the given dims; otherwise AttributeException and no change |
| Easy.File.InitAttribute | include/h5gt/h5easy_bits/H5Easy_misc.hpp:136-161 | a missing or non-dataset path throws; an absent key is created; an existing one is returned under Overwrite iff its dims are the shape ("Inconsistent dimensions" otherwise) and refused without Overwrite |
| Easy.File.InitScalarAttribute | include/h5gt/h5easy_bits/H5Easy_misc.hpp:165-190 | as initAttribute, with a scalar attribute and, under Overwrite, an existing one of one element ("Existing field not a scalar" otherwise) |
| Easy.ParentGroupExample | include/h5gt/h5easy_bits/H5Easy_misc.hpp:44-49 | dumping "/path/dset" into a new file can create the parent and adds only the group "/path" |
| Easy.DumpNewExample | include/h5gt/h5easy_bits/H5Easy_misc.hpp:82-85 | the first dump creates the parent group and a plain dataset of the shape |
| Easy.ChunkTooLargeExample | include/h5gt/h5easy_bits/H5Easy_misc.hpp:86-102 | chunk size {10} for shape {5} throws DataSetException, chunk size {5} gives a chunked dataset |
| Easy.DumpAgainExample | include/h5gt/h5easy_bits/H5Easy_misc.hpp:104-111 | the same dump again is a dump error without Overwrite, returns the dataset with Overwrite and the same shape, and throws "Inconsistent dimensions" with another shape |
| Easy.IntermediateGroupExample | include/h5gt/h5easy_bits/H5Easy_misc.hpp:104-111 | after a dump to "/a/b/d" in a new file, which succeeds, a dump to "/a" is dump_error, because "/a" was created as an intermediate group |
| Easy.NestedParentGroups | include/h5gt/h5easy_bits/H5Easy_misc.hpp:44-49 | createGroupsToDataSet for "/a/b/d" in a new file creates "/a/b" and "/a" as groups and leaves "/a/b/d" linkable |
| Easy.NestedPathParts | include/h5gt/h5easy_bits/H5Easy_misc.hpp:19-35 | getParentName("/a/b/d") is "/a/b", whose one ancestor is "/a" |
| Easy.NestedDatasetKeepsGroup | include/h5gt/bits/H5Node_traits_misc.hpp:36-53 | linking a dataset at "/a/b/d" keeps an existing group "/a" |
| Easy.LinkedSpec | include/h5gt/bits/H5Node_traits_misc.hpp:36-53 | a creation under create-intermediate-group links the new object, keeps every other object, and leaves every ancestor present, the new ones as groups and nothing else new |
| Easy.LinkedUnderExisting | include/h5gt/bits/H5Node_traits_misc.hpp:125-137 | when every ancestor exists, a creation adds only the new object |
| Easy.AbsoluteAncestors | include/h5gt/H5PropertyList.hpp:131-133 | the intermediate groups of "/x0/.../xn" are "/x0", "/x0/x1", ... up to the one before xn |
| Easy.TopAncestors | include/h5gt/H5PropertyList.hpp:131-133 | a top-level name "/x" has no intermediate group |
| Easy.ChildAncestors | include/h5gt/H5PropertyList.hpp:131-133 | "/x/y" has the one intermediate group "/x" |
| Easy.PathAncestors | include/h5gt/H5PropertyList.hpp:131-133 | "/path" has no intermediate group and "/path/dset" has "/path" |
| Easy.DatasetUnderPath | include/h5gt/h5easy_bits/H5Easy_misc.hpp:82-85 | the dataset of the first dump to "/path/dset" can be linked under the new group "/path", adding nothing else |
| Easy.WithParentGroup | include/h5gt/h5easy_bits/H5Easy_misc.hpp:44-49 | the objects after createGroupsToDataSet: getParentName's group, with its missing ancestors, added when it is absent and can be created; this is the state `Easy.File.CreateGroupsToDataSet` ends in |
| Easy.File.Exist | include/h5gt/h5easy_bits/H5Easy_misc.hpp:46 | exist() on the file with raise_errors false; `Easy.ExistSpec` states it never raises and answers whether the path is a non-empty key |

## Left out

- The libhdf5 calls themselves (H5Lexists, H5Fopen, H5Dset_extent, H5Sselect_*, H5Tinsert, H5Pset_*, ...) are oracles; whatever they do beyond the status they return is not modelled.
- Data movement (H5Dread / H5Dwrite, converters, chunk I/O, filters, external files, virtual datasets), console output and `std::filesystem::file_size`, whose result is an input of `PropertyLists.ExternalSize`.
- `Object::operator==` and `File::operator==` compare opaque file numbers and tokens; `DataSets.Group.Equals` compares the pair the library reports and is not derived further.
- `setExternalLinkPrefix`, `setChunkCache` and the other property setters outside the listed core are not part of this model; the chunk cache's `w0` is a double.
- The Eigen, boost, xtensor and OpenCV `inspector` specialisations, complex and floating-point element types; `AtomicType<Reference>` is modelled as `DataTypes.ObjectReference`.
- H5File.hpp is not part of this model: the `File::OpenFlag` values in `Files` are those of the library the wrapper descends from (ReadOnly 0, ReadWrite 1, Truncate 2, Excl 4, Debug 8, Create 16).
- H5Easy.hpp is not part of this model: `Easy.DumpOptions` carries the overwrite mode, compression flag, level and chunk size it exposes, with an empty chunk size standing for `isChunked()` false.
- Files.OpenFile: a successful open is a non-negative id, where the source asks H5Iis_valid.
- FixedLen.FixedLenStringArray.WriteData: data() points at the contiguous storage of all entries, which the library reads and writes as a whole; writes at an index of N or beyond, which reach later entries, are not modelled.
- FixedLen.FixedLenStringArray.GetString: reads up to the first NUL or the end of the entry; the source relies on a NUL inside the entry.
- Compound.CompoundType.Create: requires a member or a nonzero size, because with no member and size 0 the padding macro divides by zero (undefined behaviour).
- Selections.SelectElements: requires a rank above 0, because the source divides by the rank.
- Inspector.GetDimensions: requires element 0 to exist wherever it is read, because reading `val[0]` of an empty container is undefined behaviour.
- Objects.Object.Copy: H5Iinc_ref's failure, which only prints, cannot happen on a valid id in the model.
- Objects.Object.Destroy: H5Idec_ref's failure, which only prints, is not modelled.
- PropertyLists.PropertyList.Create: the default constructor is `noexcept`, so a failing H5Pcreate terminates the program in C++; the model returns the PropertyException that initializeId raises.
- PropertyLists.PropertyList.FromId: the class id H5Pget_class returns is never closed in the source; that reference is not modelled.
- PropertyLists.GetChunk: `max_ndims` is a `nat`, the dimensions H5Pget_chunk filled in are the array.
- Paths.SplitPathExample: the example uses "/a//b/" in place of the longer path of the source's comment.
- Nodes.LookupSpec: the root probe for a name holding '/' is evaluated and its answer dropped, as in the source.
- DataSets.Group.Unlink: `Object::_unlink`'s body is not part of this model, so its failure kind is left open.
- DataSets.DataSet.Resize: a failure of the getSpace call inside resize is not modelled.
- DataSets.DataSet.GetParent: the file-id reference counting around opening the parent group is not modelled.
- Selections.ReadOrWrite: `checkDimensions` is an oracle (`dimsOk`).
- Easy.File.InitDataset: a failing H5Dcreate2 (a chunk larger than the shape, a non-group ancestor) is modelled as leaving the file as createGroupsToDataSet left it; intermediate groups libhdf5 may already have created before the failure are not added. The deflate level check is the library's (levels above 9 refused).
- Easy.File: the file's objects are keyed by the literal path string, so each object is assumed to be named in one absolute, normalised spelling; "dset" and "/dset", or "/a//b" and "/a/b", which libhdf5 resolves to one object, are different keys in the model.
- Easy.File.InitDataset: uses the corrected `PropertyLists.SetDeflate`; the shipped guard is the finding below.

## Findings

| source | as written | input that shows it | evidently intended | confidence | as-written member | corrected member |
|---|---|---|---|---|---|---|
| include/h5gt/bits/H5DataType_misc.hpp:371-374 | the vector constructor forwards `&vec.front()` and `&vec.back()` as the range, so it stops before the last string | {"0000", "1111"} gives one entry | one entry per string of the vector | not executed | FixedLen.FixedLenStringArray.FromVectorAsWritten | FixedLen.FixedLenStringArray.FromVector |
| include/h5gt/bits/H5PropertyList_misc.hpp:152-162 | setDeflate checks that the shuffle filter is available | deflate available, shuffle not: setDeflate fails | check the deflate filter | not executed | PropertyLists.SetDeflateAsWritten | PropertyLists.SetDeflate |
| include/h5gt/H5PropertyList.hpp:86-89 | copy assignment takes the other id without releasing its own and without a self-assignment check | two lists on ids 5 and 6, a = b, both destroyed: id 5 stays open | release the old id unless assigning to itself | not executed | PropertyLists.CopyAssignLeaks | PropertyLists.CopyAssignCloses |
| include/h5gt/H5PropertyList.hpp:91-95 | move assignment takes the other id without releasing its own; a self-move leaves the list invalid | two lists on ids 5 and 6, a = std::move(b), both destroyed: id 5 stays open | release the old id unless moving to itself | not executed | PropertyLists.MoveAssignLeaks | PropertyLists.MoveAssignCloses |
