/** SliceTraits: element sets, hyperslab / element / row / column
    selections and the shape of the memory space each one gets, and the
    rank check in front of read and write. The dataspace is its list of
    dimensions; the H5Sselect_* and H5Dread / H5Dwrite calls are oracles
    returning their status. */
module Selections {
  import opened Wrappers

  // ---------------------------------------------------------------------
  // ElementSet
  // ---------------------------------------------------------------------

  /** The in-order concatenation of the coordinate vectors. */
  function Flatten(vecs: seq<seq<u64>>): seq<u64>
    decreases |vecs|
  {
    if vecs == [] then [] else Flatten(vecs[..|vecs| - 1]) + vecs[|vecs| - 1]
  }

  function TotalLength(vecs: seq<seq<u64>>): nat
    decreases |vecs|
  {
    if vecs == [] then 0 else TotalLength(vecs[..|vecs| - 1]) + |vecs[|vecs| - 1]|
  }

  lemma {:induction false} FlattenAppend(a: seq<seq<u64>>, b: seq<seq<u64>>)
    ensures Flatten(a + b) == Flatten(a) + Flatten(b)
    ensures TotalLength(a + b) == TotalLength(a) + TotalLength(b)
    decreases |b|
  {
    if b == [] {
      assert a + b == a;
    } else {
      var b' := b[..|b| - 1];
      assert (a + b)[..|a + b| - 1] == a + b';
      FlattenAppend(a, b');
    }
  }

  lemma FlattenSingle(x: seq<u64>)
    ensures Flatten([x]) == x
  {
    assert [x][..0] == [];
  }

  lemma SplitAround<T>(s: seq<T>, i: nat)
    requires i < |s|
    ensures s == (s[..i] + [s[i]]) + s[i + 1..]
  {
  }

  lemma FlattenSplit(vecs: seq<seq<u64>>, i: nat)
    requires i < |vecs|
    ensures Flatten(vecs) == Flatten(vecs[..i]) + vecs[i] + Flatten(vecs[i + 1..])
  {
    var pre, one, post := vecs[..i], [vecs[i]], vecs[i + 1..];
    SplitAround(vecs, i);
    FlattenAppend(pre + one, post);
    FlattenAppend(pre, one);
    FlattenSingle(vecs[i]);
  }

  /** Coordinate j of vector i sits at its own place in the flattened set,
      after the coordinates of the vectors before it. */
  lemma FlattenElement(vecs: seq<seq<u64>>, i: nat, j: nat)
    requires i < |vecs| && j < |vecs[i]|
    ensures TotalLength(vecs[..i]) + j < |Flatten(vecs)|
    ensures Flatten(vecs)[TotalLength(vecs[..i]) + j] == vecs[i][j]
  {
    FlattenSplit(vecs, i);
    FlattenLength(vecs[..i]);
    var a, b, c := Flatten(vecs[..i]), vecs[i], Flatten(vecs[i + 1..]);
    assert (a + b + c)[|a| + j] == b[j];
  }

  lemma {:induction false} FlattenLength(vecs: seq<seq<u64>>)
    ensures |Flatten(vecs)| == TotalLength(vecs)
    decreases |vecs|
  {
    if vecs != [] {
      FlattenLength(vecs[..|vecs| - 1]);
    }
  }

  /** The ElementSet(vector<vector<size_t>>) loop: copy every vector, in
      order, to the end of _ids. */
  method CollectIds(elementIds: seq<seq<u64>>) returns (ids: seq<u64>)
    ensures ids == Flatten(elementIds)
  {
    ids := [];
    for k := 0 to |elementIds|
      invariant ids == Flatten(elementIds[..k])
    {
      assert elementIds[..k + 1][..k] == elementIds[..k];
      ids := ids + elementIds[k];
    }
    assert elementIds[..|elementIds|] == elementIds;
  }

  class ElementSet {
    var ids: seq<u64>

    /** ElementSet(initializer_list<size_t>) and ElementSet(vector<size_t>). */
    constructor FromList(list: seq<u64>)
      ensures ids == list
    {
      ids := list;
    }

    /** ElementSet(vector<vector<size_t>>); the initializer-list-of-vectors
        constructor delegates here. */
    constructor FromNested(elementIds: seq<seq<u64>>)
      ensures ids == Flatten(elementIds)
    {
      var collected := CollectIds(elementIds);
      ids := collected;
    }
  }

  // ---------------------------------------------------------------------
  // Selections
  // ---------------------------------------------------------------------

  /** A Selection: the memory space built for the selection, and the file
      space (a clone of the dataset's own space) the selection is made in. */
  datatype Selection = Selection(memDims: seq<u64>, fileDims: seq<u64>)

  /** The number of elements of a dataspace with these dimensions. */
  function Product(d: seq<u64>): int
    decreases |d|
  {
    if d == [] then 1 else Product(d[..|d| - 1]) * d[|d| - 1]
  }

  /** count[i] * block[i] for every i of block, in hsize_t. */
  function CountTimesBlock(count: seq<u64>, block: seq<u64>): (cb: seq<u64>)
    requires |block| <= |count|
    ensures |cb| == |block|
  {
    seq(|block|, i requires 0 <= i < |block| => MulU64(count[i], block[i]))
  }

  /** select(offset, count, stride, block): the oracle `status` is what
      H5Sselect_hyperslab returns on the cloned space. */
  method SelectHyperslab(spaceDims: seq<u64>, offset: seq<u64>, count: seq<u64>,
                         stride: seq<u64>, block: seq<u64>, status: int)
    returns (r: Result<Selection>)
    requires |block| <= |count|
    ensures status < 0 ==> Raises(r, DataSpaceException)
    ensures status >= 0 ==> r.Ok? && r.value.fileDims == spaceDims
    ensures status >= 0 && block == [] ==> r.value.memDims == count
    ensures status >= 0 && block != [] ==> r.value.memDims == CountTimesBlock(count, block)
  {
    if status < 0 {
      return Throw(DataSpaceException, "Unable to select hyperslap");
    }
    if block == [] {
      return Ok(Selection(count, spaceDims));
    }
    var countBlock := seq(|block|, _ => 0);
    for i := 0 to |countBlock|
      invariant |countBlock| == |block|
      invariant forall k :: 0 <= k < i ==> countBlock[k] == MulU64(count[k], block[k])
    {
      countBlock := countBlock[i := MulU64(count[i], block[i])];
    }
    return Ok(Selection(countBlock, spaceDims));
  }

  /** Without wrap-around the memory space of a blocked hyperslab holds
      count[i] * block[i] elements along every dimension i: all the
      selected elements, and no others. */
  lemma {:induction false} BlockedElementCount(count: seq<u64>, block: seq<u64>)
    requires |block| == |count|
    requires forall i :: 0 <= i < |block| ==> count[i] * block[i] < TWO64
    ensures Product(CountTimesBlock(count, block)) == Product(count) * Product(block)
    decreases |block|
  {
    if block != [] {
      var n := |block| - 1;
      var cb := CountTimesBlock(count, block);
      assert cb[..n] == CountTimesBlock(count[..n], block[..n]);
      BlockedElementCount(count[..n], block[..n]);
      var p, q := Product(count[..n]), Product(block[..n]);
      var x, y := Product(cb[..n]), cb[n];
      assert x == p * q;
      assert y == count[n] * block[n];
      assert Product(cb) == x * y;
      assert Product(count) == p * count[n];
      assert Product(block) == q * block[n];
      MulRearrange(p, q, count[n], block[n]);
    }
  }

  lemma MulRearrange(a: int, b: int, c: int, d: int)
    ensures a * b * (c * d) == (a * c) * (b * d)
  {
  }

  /** select(ElementSet): `status` is what H5Sselect_elements returns. A
      rank-0 space is excluded: the source divides by the rank. */
  function SelectElements(spaceDims: seq<u64>, ids: seq<u64>, status: int): (r: Result<Selection>)
    requires |spaceDims| > 0 && |ids| < TWO64
    ensures r.Ok? <==> |ids| % |spaceDims| == 0 && status >= 0
    ensures |ids| % |spaceDims| != 0 ==> Raises(r, DataSpaceException)
    ensures |ids| % |spaceDims| == 0 && status < 0 ==> Raises(r, DataSpaceException)
    ensures r.Ok? ==> r.value.fileDims == spaceDims && |r.value.memDims| == 1
    ensures r.Ok? ==> r.value.memDims[0] * |spaceDims| == |ids|
  {
    var length := |ids|;
    var rank := |spaceDims|;
    if length % rank != 0 then
      Throw(DataSpaceException,
        "Number of coordinates in elements picking should be a multiple of the dimensions.")
    else if status < 0 then
      Throw(DataSpaceException, "Unable to select elements")
    else
      Ok(Selection([length / rank], spaceDims))
  }

  /** The four ElementSet selections of a 3 x 3 dataset: {1, 1} picks one
      element, {0, 0, 2, 2} and {{0, 1}, {1, 2}} pick two, and {0, 1, 2}
      is refused. */
  lemma SelectElementsExamples(status: int)
    requires status >= 0
    ensures SelectElements([3, 3], [1, 1], status) == Ok(Selection([1], [3, 3]))
    ensures SelectElements([3, 3], [0, 0, 2, 2], status) == Ok(Selection([2], [3, 3]))
    ensures Flatten([[0, 1], [1, 2]]) == [0, 1, 1, 2]
    ensures SelectElements([3, 3], [0, 1, 1, 2], status) == Ok(Selection([2], [3, 3]))
    ensures Raises(SelectElements([3, 3], [0, 1, 2], status), DataSpaceException)
  {
    var two: seq<seq<u64>> := [[0, 1], [1, 2]];
    assert two[..1] == [[0, 1]];
    var first: seq<seq<u64>> := two[..1];
    assert first[..0] == [];
    assert Flatten(two) == [0, 1, 1, 2];
  }

  // ---------------------------------------------------------------------
  // select_rows / select_cols
  // ---------------------------------------------------------------------

  /** One H5S_SELECT_OR hyperslab request: its start and count. */
  datatype Slab = Slab(offsets: seq<u64>, counts: seq<u64>)

  /** count after the offset rule: dims - offset (size_t) when the caller
      gave an offset but no count. */
  function EffectiveCount(extent: u64, offset: u64, count: u64): u64 {
    if offset != 0 && count == 0 then SubU64(extent, offset) else count
  }

  /** select_rows(ind, offset, count). `selectOr` is the status of each
      H5Sselect_hyperslab(OR) call; the while loop stops at the first
      failing one. `slabs` are the hyperslabs requested, in order. */
  method SelectRows(spaceDims: seq<u64>, ind: seq<u64>, offset: u64, count: u64,
                    selectOr: Slab -> int)
    returns (r: Result<Selection>, slabs: seq<Slab>)
    requires |spaceDims| > 0 && |ind| < TWO64
    ensures r.Ok? <==> forall k :: 0 <= k < |slabs| ==> selectOr(slabs[k]) >= 0
    ensures r.Ok? ==> |slabs| == |ind|
    ensures r.Err? ==> 0 < |slabs| <= |ind| && Raises(r, DataSpaceException)
    ensures r.Err? ==> forall k :: 0 <= k < |slabs| - 1 ==> selectOr(slabs[k]) >= 0
    // the memory space: |ind| rows, and the columns the offset / count rule leaves
    ensures r.Ok? ==> r.value.fileDims == spaceDims && |r.value.memDims| == |spaceDims|
    ensures r.Ok? ==> r.value.memDims[0] == |ind|
    ensures r.Ok? && |spaceDims| > 1 ==>
      r.value.memDims[1] == (if EffectiveCount(spaceDims[1], offset, count) != 0
                             then EffectiveCount(spaceDims[1], offset, count) else spaceDims[1])
    ensures r.Ok? ==> forall d :: 2 <= d < |spaceDims| ==> r.value.memDims[d] == spaceDims[d]
    // every request is one row (ind[k]) of exactly the memory space's width
    ensures forall k :: 0 <= k < |slabs| ==>
      |slabs[k].offsets| == |slabs[k].counts| == |spaceDims| &&
      slabs[k].offsets[0] == ind[k] && slabs[k].counts[0] == 1
    ensures forall k, d :: 0 <= k < |slabs| && |spaceDims| > 1 && 1 <= d < |spaceDims| ==>
      slabs[k].offsets[d] == (if d == 1 then offset else 0)
    ensures r.Ok? ==> forall k, d :: 0 <= k < |slabs| && 1 <= d < |spaceDims| ==>
      slabs[k].counts[d] == r.value.memDims[d]
  {
    var dims := spaceDims;
    dims := dims[0 := |ind|];
    var counts := dims;
    counts := counts[0 := 1];
    var offsets: seq<u64> := seq(|dims|, _ => 0);
    var cnt := count;
    if offset != 0 && |offsets| > 1 {
      offsets := offsets[1 := offset];
      if cnt == 0 {
        cnt := SubU64(dims[1], offset);
      }
    }
    if cnt != 0 && |counts| > 1 {
      counts := counts[1 := cnt];
      dims := dims[1 := cnt];
    }
    slabs := [];
    var k := 0;
    while k < |ind|
      invariant 0 <= k <= |ind| && |slabs| == k
      invariant |offsets| == |dims| == |counts| == |spaceDims|
      invariant counts[0] == 1
      invariant forall d :: 1 <= d < |offsets| ==> offsets[d] == (if d == 1 then offset else 0)
      invariant forall j :: 0 <= j < k ==> slabs[j] == Slab(offsets[0 := ind[j]], counts)
      invariant forall j :: 0 <= j < k ==> selectOr(slabs[j]) >= 0
    {
      offsets := offsets[0 := ind[k]];
      slabs := slabs + [Slab(offsets, counts)];
      assert slabs[k] == Slab(offsets, counts);
      if selectOr(Slab(offsets, counts)) < 0 {
        return Throw(DataSpaceException, "Unable to select hyperslap"), slabs;
      }
      k := k + 1;
    }
    r := Ok(Selection(dims, spaceDims));
  }

  /** select_cols(ind, offset, count): the same with the last dimension
      picked by ind and the offset / count rule acting on dimension 0. On a
      rank-1 space both act on the same dimension, so count wins there. */
  method SelectCols(spaceDims: seq<u64>, ind: seq<u64>, offset: u64, count: u64,
                    selectOr: Slab -> int)
    returns (r: Result<Selection>, slabs: seq<Slab>)
    requires |spaceDims| > 0 && |ind| < TWO64
    ensures r.Ok? <==> forall k :: 0 <= k < |slabs| ==> selectOr(slabs[k]) >= 0
    ensures r.Ok? ==> |slabs| == |ind|
    ensures r.Err? ==> 0 < |slabs| <= |ind| && Raises(r, DataSpaceException)
    ensures r.Err? ==> forall k :: 0 <= k < |slabs| - 1 ==> selectOr(slabs[k]) >= 0
    ensures r.Ok? ==> r.value.fileDims == spaceDims && |r.value.memDims| == |spaceDims|
    ensures r.Ok? && |spaceDims| > 1 ==>
      r.value.memDims[|spaceDims| - 1] == |ind| &&
      r.value.memDims[0] == (if EffectiveCount(spaceDims[0], offset, count) != 0
                             then EffectiveCount(spaceDims[0], offset, count) else spaceDims[0])
    ensures r.Ok? && |spaceDims| == 1 ==>
      r.value.memDims[0] == (if EffectiveCount(|ind|, offset, count) != 0
                             then EffectiveCount(|ind|, offset, count) else |ind|)
    ensures r.Ok? ==> forall d :: 1 <= d < |spaceDims| - 1 ==> r.value.memDims[d] == spaceDims[d]
    ensures forall k :: 0 <= k < |slabs| ==>
      |slabs[k].offsets| == |slabs[k].counts| == |spaceDims| &&
      slabs[k].offsets[|spaceDims| - 1] == ind[k]
    ensures |spaceDims| > 1 ==> forall k :: 0 <= k < |slabs| ==>
      slabs[k].counts[|spaceDims| - 1] == 1 && slabs[k].offsets[0] == offset
    ensures r.Ok? ==> forall k, d :: 0 <= k < |slabs| && 0 <= d < |spaceDims| - 1 ==>
      slabs[k].counts[d] == r.value.memDims[d]
  {
    var last := |spaceDims| - 1;
    var dims := spaceDims;
    dims := dims[last := |ind|];
    var counts := dims;
    counts := counts[last := 1];
    var offsets: seq<u64> := seq(|dims|, _ => 0);
    var cnt := count;
    if offset != 0 && |offsets| > 0 {
      offsets := offsets[0 := offset];
      if cnt == 0 {
        cnt := SubU64(dims[0], offset);
      }
    }
    if cnt != 0 && |counts| > 0 {
      counts := counts[0 := cnt];
      dims := dims[0 := cnt];
    }
    slabs := [];
    var k := 0;
    while k < |ind|
      invariant 0 <= k <= |ind| && |slabs| == k
      invariant |offsets| == |dims| == |counts| == |spaceDims|
      invariant last > 0 ==> counts[last] == 1 && offsets[0] == offset
      invariant forall j :: 0 <= j < k ==> slabs[j] == Slab(offsets[last := ind[j]], counts)
      invariant forall j :: 0 <= j < k ==> selectOr(slabs[j]) >= 0
    {
      offsets := offsets[last := ind[k]];
      slabs := slabs + [Slab(offsets, counts)];
      assert slabs[k] == Slab(offsets, counts);
      if selectOr(Slab(offsets, counts)) < 0 {
        return Throw(DataSpaceException, "Unable to select hyperslap"), slabs;
      }
      k := k + 1;
    }
    r := Ok(Selection(dims, spaceDims));
  }

  // ---------------------------------------------------------------------
  // read / write
  // ---------------------------------------------------------------------

  /** A transfer: whether H5Dread / H5Dwrite was reached, and how it ended. */
  datatype Transfer = Transfer(performed: bool, outcome: Outcome)

  /** read(array) and write(buffer): `dimsOk` is checkDimensions(mem_space,
      n_dimensions), `status` what H5Dread / H5Dwrite returns. A rank
      mismatch throws before any I/O. */
  function ReadOrWrite(dimsOk: bool, status: int): (t: Transfer)
    ensures t.performed <==> dimsOk
    ensures !dimsOk ==> t.outcome.Fail? && t.outcome.error.kind == DataSpaceException
    ensures dimsOk && status < 0 ==> t.outcome.Fail? && t.outcome.error.kind == DataSetException
    ensures t.outcome.Pass? <==> dimsOk && status >= 0
  {
    if !dimsOk then
      Transfer(false, Fail(Error(DataSpaceException, "Impossible to read DataSet of dimensions")))
    else if status < 0 then
      Transfer(true, Fail(Error(DataSetException, "Error during HDF5 Read: ")))
    else
      Transfer(true, Pass)
  }
}
