/** CompoundType and EnumType: the member layout of CompoundType::create
    under the struct padding rule, computed in size_t arithmetic, and the
    creation of both types through the library. */
module Compound {
  import opened Wrappers

  // ---------------------------------------------------------------------
  // The layout rule, as functions of the member sizes
  // ---------------------------------------------------------------------

  /** _H5_STRUCT_PADDING(current, member): (member - current) % member on
      size_t, so the subtraction wraps modulo 2^64. */
  function Padding(current: u64, member: u64): (p: u64)
    requires member > 0
    ensures p < member
  {
    SubU64(member, current) % member
  }

  /** Offset given to a member of `member` bytes when `current` bytes are
      laid out before it. */
  function Place(current: u64, member: u64): u64
    requires member > 0
  {
    AddU64(current, Padding(current, member))
  }

  predicate AllPositive(sizes: seq<u64>) {
    forall i :: 0 <= i < |sizes| ==> sizes[i] > 0
  }

  function Init<T>(s: seq<T>): seq<T>
    requires s != []
  {
    s[..|s| - 1]
  }

  function Last<T>(s: seq<T>): T
    requires s != []
  {
    s[|s| - 1]
  }

  /** current_size once the members of these sizes are laid out. */
  function LayoutEnd(sizes: seq<u64>): u64
    requires AllPositive(sizes)
    decreases |sizes|
  {
    if sizes == [] then 0
    else
      assert AllPositive(Init(sizes));
      AddU64(Place(LayoutEnd(Init(sizes)), Last(sizes)), Last(sizes))
  }

  /** The offsets the layout gives the members, in declaration order. */
  function LayoutOffsets(sizes: seq<u64>): (offs: seq<u64>)
    requires AllPositive(sizes)
    ensures |offs| == |sizes|
    decreases |sizes|
  {
    if sizes == [] then []
    else
      assert AllPositive(Init(sizes));
      LayoutOffsets(Init(sizes)) + [Place(LayoutEnd(Init(sizes)), Last(sizes))]
  }

  /** max_type_size: the largest member size (0 for no member). */
  function MaxSize(sizes: seq<u64>): (m: u64)
    ensures forall i :: 0 <= i < |sizes| ==> sizes[i] <= m
    ensures sizes != [] ==> exists i :: 0 <= i < |sizes| && sizes[i] == m
    decreases |sizes|
  {
    if sizes == [] then 0
    else
      var m := MaxSize(Init(sizes));
      assert forall i :: 0 <= i < |sizes| - 1 ==> Init(sizes)[i] == sizes[i];
      if m < Last(sizes) then Last(sizes) else m
  }

  /** The total size create() computes when it is given size 0: the end of
      the last member, padded against the largest member. */
  function LayoutSize(sizes: seq<u64>): u64
    requires sizes != [] && AllPositive(sizes)
  {
    Place(LayoutEnd(sizes), MaxSize(sizes))
  }

  // ---------------------------------------------------------------------
  // Alignment: sizes that divide 2^64 (powers of two) are honoured
  // ---------------------------------------------------------------------

  lemma MulBounds(m: int, k: int)
    requires m > 0
    ensures k >= 1 ==> m * k >= m
    ensures k <= -1 ==> m * k <= -m
  {
    if k >= 1 {
      assert m * k == m + m * (k - 1);
    }
    if k <= -1 {
      assert m * k == -m + m * (k + 1);
    }
  }

  lemma MulMod(m: int, z: int)
    requires m > 0
    ensures (m * z) % m == 0
  {
    var x := m * z;
    var k := z - x / m;
    assert x == m * (x / m) + x % m;
    assert m * k == x % m;
    MulBounds(m, k);
  }

  lemma ModOfMultiple(x: int, m: int)
    requires m > 0 && TWO64 % m == 0 && x % m == 0
    ensures (x % TWO64) % m == 0
  {
    var a := x / m;
    var b := TWO64 / m;
    assert x == m * a;
    assert TWO64 == m * b;
    var r := x % TWO64;
    assert r == x - TWO64 * (x / TWO64);
    assert r == m * (a - b * (x / TWO64));
    MulMod(m, a - b * (x / TWO64));
  }

  /** A member whose size divides 2^64 lands on a multiple of its size,
      whatever `current` is, wrap-around included. */
  lemma PlaceAligned(current: u64, m: u64)
    requires m > 0 && TWO64 % m == 0
    ensures Place(current, m) % m == 0
  {
    var d := SubU64(m, current);
    var q := (m - current) / TWO64;
    assert d == (m - current) - TWO64 * q;
    var p := d % m;
    assert p == Padding(current, m);
    assert d == p + m * (d / m);
    var b := TWO64 / m;
    assert TWO64 == m * b;
    assert current + p == m * (1 - b * q - d / m);
    MulMod(m, 1 - b * q - d / m);
    ModOfMultiple(current + p, m);
  }

  predicate DividesTwo64(sizes: seq<u64>) {
    forall i :: 0 <= i < |sizes| ==> sizes[i] > 0 && TWO64 % sizes[i] == 0
  }

  /** Every offset is a multiple of its member's size, and the total size a
      multiple of the largest size, when all sizes are powers of two. */
  lemma {:induction false} LayoutAligned(sizes: seq<u64>)
    requires DividesTwo64(sizes)
    ensures forall i :: 0 <= i < |sizes| ==> LayoutOffsets(sizes)[i] % sizes[i] == 0
    ensures sizes != [] ==> LayoutSize(sizes) % MaxSize(sizes) == 0
    decreases |sizes|
  {
    if sizes != [] {
      var init := Init(sizes);
      assert DividesTwo64(init) by {
        forall i | 0 <= i < |init| ensures init[i] > 0 && TWO64 % init[i] == 0 {
          assert init[i] == sizes[i];
        }
      }
      LayoutAligned(init);
      PlaceAligned(LayoutEnd(init), Last(sizes));
      var offs := LayoutOffsets(sizes);
      forall i | 0 <= i < |sizes| ensures offs[i] % sizes[i] == 0 {
        if i < |sizes| - 1 {
          assert offs[i] == LayoutOffsets(init)[i];
          assert sizes[i] == init[i];
        }
      }
      var k :| 0 <= k < |sizes| && sizes[k] == MaxSize(sizes);
      PlaceAligned(LayoutEnd(sizes), MaxSize(sizes));
    }
  }

  // ---------------------------------------------------------------------
  // Without wrap-around, members are disjoint and in declaration order
  // ---------------------------------------------------------------------

  /** No addition of the layout passes 2^64. */
  predicate Fits(sizes: seq<u64>)
    requires AllPositive(sizes)
    decreases |sizes|
  {
    sizes == [] ||
    (assert AllPositive(Init(sizes));
     var c := LayoutEnd(Init(sizes));
     Fits(Init(sizes)) && c as int + Padding(c, Last(sizes)) as int + Last(sizes) as int < TWO64)
  }

  lemma PrefixPositive(sizes: seq<u64>, k: nat)
    requires AllPositive(sizes) && k <= |sizes|
    ensures AllPositive(sizes[..k])
  {
    assert forall i :: 0 <= i < k ==> sizes[..k][i] == sizes[i];
  }

  /** Offset i is placed after the first i members. */
  lemma {:induction false} OffsetAt(sizes: seq<u64>, i: nat)
    requires AllPositive(sizes) && i < |sizes|
    ensures AllPositive(sizes[..i])
    ensures LayoutOffsets(sizes)[i] == Place(LayoutEnd(sizes[..i]), sizes[i])
    decreases |sizes|
  {
    PrefixPositive(sizes, i);
    var init := Init(sizes);
    if i < |sizes| - 1 {
      OffsetAt(init, i);
      assert init[..i] == sizes[..i];
    } else {
      assert init == sizes[..i];
    }
  }

  /** Under Fits, each member ends exactly where the next layout step starts. */
  lemma EndAfter(sizes: seq<u64>, i: nat)
    requires AllPositive(sizes) && Fits(sizes) && i < |sizes|
    ensures AllPositive(sizes[..i]) && AllPositive(sizes[..i + 1])
    ensures LayoutOffsets(sizes)[i] as int == LayoutEnd(sizes[..i]) as int + Padding(LayoutEnd(sizes[..i]), sizes[i]) as int
    ensures LayoutEnd(sizes[..i + 1]) as int == LayoutOffsets(sizes)[i] as int + sizes[i] as int
  {
    OffsetAt(sizes, i);
    FitsPrefix(sizes, i + 1);
    var pre := sizes[..i + 1];
    assert Init(pre) == sizes[..i];
    assert Last(pre) == sizes[i];
    var c := LayoutEnd(sizes[..i]);
    var pad := Padding(c, sizes[i]);
    assert c as int + pad as int + sizes[i] as int < TWO64;
    assert Place(c, sizes[i]) as int == c as int + pad as int;
    assert LayoutEnd(pre) == AddU64(Place(c, sizes[i]), sizes[i]);
  }

  lemma {:induction false} FitsPrefix(sizes: seq<u64>, k: nat)
    requires AllPositive(sizes) && Fits(sizes) && k <= |sizes|
    ensures AllPositive(sizes[..k]) && Fits(sizes[..k])
    decreases |sizes|
  {
    PrefixPositive(sizes, k);
    if k < |sizes| {
      var init := Init(sizes);
      assert AllPositive(init);
      FitsPrefix(init, k);
      assert init[..k] == sizes[..k];
    } else {
      assert sizes[..k] == sizes;
    }
  }

  /** Under Fits the end only grows as members are added. */
  lemma {:induction false} EndGrows(sizes: seq<u64>, k: nat)
    requires AllPositive(sizes) && Fits(sizes) && k <= |sizes|
    ensures AllPositive(sizes[..k])
    ensures LayoutEnd(sizes[..k]) <= LayoutEnd(sizes)
    decreases |sizes|
  {
    PrefixPositive(sizes, k);
    if k < |sizes| {
      var init := Init(sizes);
      assert AllPositive(init);
      EndGrows(init, k);
      assert init[..k] == sizes[..k];
    } else {
      assert sizes[..k] == sizes;
    }
  }

  /** Members never overlap and their offsets increase in declaration
      order, when no step of the layout wraps around. */
  lemma NoOverlap(sizes: seq<u64>, i: nat, j: nat)
    requires AllPositive(sizes) && Fits(sizes) && i < j < |sizes|
    ensures LayoutOffsets(sizes)[i] as int + sizes[i] as int <= LayoutOffsets(sizes)[j] as int
    ensures LayoutOffsets(sizes)[i] < LayoutOffsets(sizes)[j]
  {
    EndAfter(sizes, i);
    EndAfter(sizes, j);
    FitsPrefix(sizes, j);
    var pre := sizes[..j];
    EndGrows(pre, i + 1);
    assert pre[..i + 1] == sizes[..i + 1];
  }

  /** The total size covers every member. */
  lemma SizeCoversMembers(sizes: seq<u64>, i: nat)
    requires AllPositive(sizes) && Fits(sizes) && i < |sizes|
    requires LayoutEnd(sizes) as int + Padding(LayoutEnd(sizes), MaxSize(sizes)) as int < TWO64
    ensures LayoutOffsets(sizes)[i] as int + sizes[i] as int <= LayoutSize(sizes) as int
  {
    EndAfter(sizes, i);
    EndGrows(sizes, i + 1);
  }

  /** Three ints: offsets 0, 4, 8 and size 12. */
  lemma LayoutExampleInts()
    ensures LayoutOffsets([4, 4, 4]) == [0, 4, 8] && LayoutSize([4, 4, 4]) == 12
  {
    assert Padding(0, 4) == 0 && Place(0, 4) == 0 && AddU64(0, 4) == 4;
    assert Padding(4, 4) == 0 && Place(4, 4) == 4 && AddU64(4, 4) == 8;
    assert Padding(8, 4) == 0 && Place(8, 4) == 8 && AddU64(8, 4) == 12;
    assert Padding(12, 4) == 0 && Place(12, 4) == 12;
    var s1: seq<u64> := [4];
    var s2: seq<u64> := [4, 4];
    var s3: seq<u64> := [4, 4, 4];
    assert Init(s1) == [] && Init(s2) == s1 && Init(s3) == s2;
    assert LayoutEnd(s1) == 4 && LayoutOffsets(s1) == [0];
    assert LayoutEnd(s2) == 8 && LayoutOffsets(s2) == [0, 4];
    assert LayoutEnd(s3) == 12 && LayoutOffsets(s3) == [0, 4, 8];
    assert MaxSize(s1) == 4 && MaxSize(s2) == 4 && MaxSize(s3) == 4;
  }

  /** A 4-byte, an 8-byte and a 4-byte member: offsets 0, 8, 16 and size 24. */
  lemma LayoutExampleMixed()
    ensures LayoutOffsets([4, 8, 4]) == [0, 8, 16] && LayoutSize([4, 8, 4]) == 24
  {
    assert Padding(0, 4) == 0 && Place(0, 4) == 0 && AddU64(0, 4) == 4;
    assert SubU64(8, 4) == 4 && Padding(4, 8) == 4 && Place(4, 8) == 8 && AddU64(8, 8) == 16;
    assert SubU64(4, 16) == TWO64 - 12 && Padding(16, 4) == 0 && Place(16, 4) == 16 && AddU64(16, 4) == 20;
    assert SubU64(8, 20) == TWO64 - 12 && Padding(20, 8) == 4 && Place(20, 8) == 24;
    var s1: seq<u64> := [4];
    var s2: seq<u64> := [4, 8];
    var s3: seq<u64> := [4, 8, 4];
    assert Init(s1) == [] && Init(s2) == s1 && Init(s3) == s2;
    assert LayoutEnd(s1) == 4 && LayoutOffsets(s1) == [0];
    assert LayoutEnd(s2) == 16 && LayoutOffsets(s2) == [0, 8];
    assert LayoutEnd(s3) == 20 && LayoutOffsets(s3) == [0, 8, 16];
    assert MaxSize(s1) == 4 && MaxSize(s2) == 8 && MaxSize(s3) == 8;
  }

  // ---------------------------------------------------------------------
  // CompoundType
  // ---------------------------------------------------------------------

  /** member_def: a name, the size H5Tget_size reports for its base type
      (0 when the query fails) and the offset, 0 unless the caller gives
      one. */
  datatype MemberDef = MemberDef(name: string, baseSize: u64, offset: u64)

  function MemberOf(name: string, baseSize: u64): (m: MemberDef)
    ensures m.offset == 0
  {
    MemberDef(name, baseSize, 0)
  }

  function Sizes(ms: seq<MemberDef>): (s: seq<u64>)
    ensures |s| == |ms|
    ensures forall i :: 0 <= i < |ms| ==> s[i] == ms[i].baseSize
    decreases |ms|
  {
    if ms == [] then [] else [ms[0].baseSize] + Sizes(ms[1..])
  }

  /** The members with the first |offs| offsets replaced. */
  function WithOffsets(ms: seq<MemberDef>, offs: seq<u64>): (r: seq<MemberDef>)
    requires |offs| <= |ms|
    ensures |r| == |ms|
    ensures forall i :: 0 <= i < |offs| ==> r[i] == ms[i].(offset := offs[i])
    ensures forall i :: |offs| <= i < |ms| ==> r[i] == ms[i]
  {
    seq(|ms|, i requires 0 <= i < |ms| => if i < |offs| then ms[i].(offset := offs[i]) else ms[i])
  }

  lemma FirstZeroAt(sizes: seq<u64>, i: nat)
    requires i < |sizes| && sizes[i] == 0 && AllPositive(sizes[..i])
    ensures FirstZero(sizes) == i
  {
    forall k | 0 <= k < i ensures sizes[k] > 0 {
      assert sizes[..i][k] == sizes[k];
    }
  }

  lemma FirstZeroNone(sizes: seq<u64>)
    requires AllPositive(sizes)
    ensures FirstZero(sizes) == |sizes|
  {
    assert forall k :: 0 <= k < |sizes| ==> sizes[k] != 0;
  }

  /** One step of the layout loop: adding member i to the first i. */
  lemma LayoutStep(sizes: seq<u64>, i: nat)
    requires i < |sizes| && AllPositive(sizes[..i]) && sizes[i] > 0
    ensures AllPositive(sizes[..i + 1])
    ensures LayoutEnd(sizes[..i + 1]) == AddU64(Place(LayoutEnd(sizes[..i]), sizes[i]), sizes[i])
    ensures LayoutOffsets(sizes[..i + 1]) == LayoutOffsets(sizes[..i]) + [Place(LayoutEnd(sizes[..i]), sizes[i])]
    ensures MaxSize(sizes[..i + 1]) == if MaxSize(sizes[..i]) < sizes[i] then sizes[i] else MaxSize(sizes[..i])
  {
    var next := sizes[..i + 1];
    assert Init(next) == sizes[..i] && Last(next) == sizes[i];
    assert forall k :: 0 <= k < i ==> next[k] == sizes[..i][k];
  }

  lemma WithOffsetsSnoc(ms: seq<MemberDef>, offs: seq<u64>, x: u64)
    requires |offs| < |ms|
    ensures WithOffsets(ms, offs + [x]) == WithOffsets(ms, offs)[|offs| := ms[|offs|].(offset := x)]
  {
    var a := WithOffsets(ms, offs + [x]);
    var b := WithOffsets(ms, offs)[|offs| := ms[|offs|].(offset := x)];
    assert |a| == |b|;
    forall i | 0 <= i < |a| ensures a[i] == b[i] {
      if i < |offs| {
        assert (offs + [x])[i] == offs[i];
      }
    }
  }

  /** Index of the first member whose size query gave 0, or |sizes|. */
  function FirstZero(sizes: seq<u64>): (j: nat)
    ensures j <= |sizes|
    ensures j < |sizes| ==> sizes[j] == 0
    ensures forall i :: 0 <= i < j ==> sizes[i] > 0
    ensures AllPositive(sizes[..j])
    decreases |sizes|
  {
    var j := if sizes == [] then 0 else if sizes[0] == 0 then 0 else 1 + FirstZero(sizes[1..]);
    assert forall i :: 0 <= i < j ==> sizes[..j][i] == sizes[i];
    j
  }

  /** The library side of create(): H5Tcreate(H5T_COMPOUND, size) gives an
      id (negative on failure), H5Tinsert(id, name, offset, type) a status. */
  datatype CompoundLib = CompoundLib(tcreate: u64 -> int, tinsert: (int, string, u64) -> int)

  class CompoundType {
    var members: seq<MemberDef>
    var hid: int

    /** The member list is stored; no library type exists yet. */
    constructor (ms: seq<MemberDef>)
      ensures members == ms && hid == H5I_INVALID_HID
    {
      members := ms;
      hid := H5I_INVALID_HID;
    }

    /** The first loop of CompoundType::create: each member gets its
        padded offset in turn; a member whose size is 0 stops the loop
        (ok is false), leaving the offsets already set. Otherwise `total`
        is the padded total size. */
    method LayOutMembers() returns (ok: bool, total: u64)
      requires |members| > 0
      modifies this`members
      ensures var sizes := Sizes(old(members));
        var j := FirstZero(sizes);
        ok == (j == |sizes|) &&
        members == WithOffsets(old(members), LayoutOffsets(sizes[..j])) &&
        (ok ==> total == LayoutSize(sizes))
    {
      ghost var sizes := Sizes(members);
      var current: u64 := 0;
      var maxTypeSize: u64 := 0;
      var i := 0;
      while i < |members|
        invariant 0 <= i <= |members| == |sizes|
        invariant AllPositive(sizes[..i])
        invariant current == LayoutEnd(sizes[..i]) && maxTypeSize == MaxSize(sizes[..i])
        invariant members == WithOffsets(old(members), LayoutOffsets(sizes[..i]))
      {
        var memberSize := members[i].baseSize;
        assert memberSize == sizes[i];
        if memberSize == 0 {
          FirstZeroAt(sizes, i);
          return false, 0;
        }
        LayoutStep(sizes, i);
        var offset := AddU64(current, Padding(current, memberSize));
        WithOffsetsSnoc(old(members), LayoutOffsets(sizes[..i]), offset);
        members := members[i := members[i].(offset := offset)];
        current := AddU64(offset, memberSize);
        maxTypeSize := if maxTypeSize < memberSize then memberSize else maxTypeSize;
        i := i + 1;
      }
      assert sizes[..i] == sizes;
      assert FirstZero(sizes) == |sizes|;
      assert sizes[0] <= maxTypeSize;
      return true, AddU64(current, Padding(current, maxTypeSize));
    }

    /** CompoundType::create. With size 0 the offsets and the total size
        come from the layout rule and a member of size 0 throws
        DataTypeException before the library is called; a nonzero size
        keeps the caller's offsets. `requested` is the size handed to
        H5Tcreate, if it is reached. */
    method Create(size: u64, lib: CompoundLib) returns (o: Outcome, requested: Option<u64>)
      requires size != 0 || |members| > 0
      modifies this
      ensures size != 0 ==> members == old(members) && requested == Some(size)
      ensures size == 0 ==>
        var sizes := Sizes(old(members));
        var j := FirstZero(sizes);
        members == WithOffsets(old(members), LayoutOffsets(sizes[..j])) &&
        (j < |sizes| ==> requested == None && o.Fail?) &&
        (j == |sizes| ==> requested == Some(LayoutSize(sizes)))
      ensures requested.None? ==> hid == old(hid)
      ensures requested.Some? ==> hid == lib.tcreate(requested.value)
      ensures requested.Some? ==>
        (o.Pass? <==> hid >= 0 && forall i :: 0 <= i < |members| ==> lib.tinsert(hid, members[i].name, members[i].offset) >= 0)
      ensures o.Fail? ==> o.error.kind == DataTypeException
    {
      var total := size;
      if size == 0 {
        var ok;
        ok, total := LayOutMembers();
        if !ok {
          return Fail(Error(DataTypeException, "Cannot get size of DataType")), None;
        }
      }
      requested := Some(total);
      hid := lib.tcreate(total);
      if hid < 0 {
        return Fail(Error(DataTypeException, "Could not create new compound datatype")), requested;
      }
      var k := 0;
      while k < |members|
        invariant 0 <= k <= |members|
        invariant forall i :: 0 <= i < k ==> lib.tinsert(hid, members[i].name, members[i].offset) >= 0
      {
        if lib.tinsert(hid, members[k].name, members[k].offset) < 0 {
          return Fail(Error(DataTypeException, "Could not add new member to datatype")), requested;
        }
        k := k + 1;
      }
      return Pass, requested;
    }
  }

  /** Every CompoundType constructor (vector, moved vector, initializer
      list) stores the members and calls create(size); size defaults to 0. */
  method NewCompoundType(ms: seq<MemberDef>, size: u64, lib: CompoundLib)
    returns (t: CompoundType, o: Outcome, requested: Option<u64>)
    requires size != 0 || |ms| > 0
    ensures fresh(t)
    ensures size == 0 && ms != [] && AllPositive(Sizes(ms)) ==>
      t.members == WithOffsets(ms, LayoutOffsets(Sizes(ms))) && requested == Some(LayoutSize(Sizes(ms)))
    ensures size != 0 ==> t.members == ms && requested == Some(size)
    ensures size == 0 && !AllPositive(Sizes(ms)) ==> requested == None && o.Fail?
    ensures requested.Some? ==> t.hid == lib.tcreate(requested.value)
    ensures requested.Some? ==>
      (o.Pass? <==> t.hid >= 0 && forall i :: 0 <= i < |t.members| ==> lib.tinsert(t.hid, t.members[i].name, t.members[i].offset) >= 0)
    ensures o.Fail? ==> o.error.kind == DataTypeException
  {
    t := new CompoundType(ms);
    o, requested := t.Create(size, lib);
    if size == 0 && !AllPositive(Sizes(ms)) {
      assert FirstZero(Sizes(ms)) < |Sizes(ms)|;
    }
    if size == 0 && ms != [] && AllPositive(Sizes(ms)) {
      FirstZeroNone(Sizes(ms));
      assert Sizes(ms)[..|ms|] == Sizes(ms);
    }
  }

  // ---------------------------------------------------------------------
  // EnumType
  // ---------------------------------------------------------------------

  datatype EnumMember = EnumMember(name: string, value: int)

  /** H5Tenum_create(base) gives the new id, H5Tenum_insert(id, name, value)
      a status. */
  datatype EnumLib = EnumLib(enumCreate: int, enumInsert: (int, string, int) -> int)

  class EnumType {
    var members: seq<EnumMember>
    var hid: int

    /** The member-storing part of EnumType(vector); NewEnumType adds the
        create() call the constructor makes. */
    constructor (ms: seq<EnumMember>)
      ensures members == ms && hid == H5I_INVALID_HID
    {
      members := ms;
      hid := H5I_INVALID_HID;
    }

    /** EnumType::create: a failed H5Tenum_create or any failed insertion
        throws DataTypeException; members are inserted in order. */
    method Create(lib: EnumLib) returns (o: Outcome)
      modifies this`hid
      ensures hid == lib.enumCreate
      ensures o.Pass? <==> hid >= 0 && forall i :: 0 <= i < |members| ==> lib.enumInsert(hid, members[i].name, members[i].value) >= 0
      ensures o.Fail? ==> o.error.kind == DataTypeException
    {
      hid := lib.enumCreate;
      if hid < 0 {
        return Fail(Error(DataTypeException, "Could not create new enum datatype"));
      }
      var k := 0;
      while k < |members|
        invariant 0 <= k <= |members|
        invariant forall i :: 0 <= i < k ==> lib.enumInsert(hid, members[i].name, members[i].value) >= 0
      {
        if lib.enumInsert(hid, members[k].name, members[k].value) < 0 {
          return Fail(Error(DataTypeException, "Could not add new member to this enum datatype"));
        }
        k := k + 1;
      }
      return Pass;
    }
  }

  /** EnumType(vector) and EnumType(initializer_list), which delegates to
      it: store the members, then create(). */
  method NewEnumType(ms: seq<EnumMember>, lib: EnumLib) returns (t: EnumType, o: Outcome)
    ensures fresh(t) && t.members == ms && t.hid == lib.enumCreate
    ensures o.Pass? <==> lib.enumCreate >= 0 && forall i :: 0 <= i < |ms| ==> lib.enumInsert(lib.enumCreate, ms[i].name, ms[i].value) >= 0
    ensures o.Fail? ==> o.error.kind == DataTypeException
  {
    t := new EnumType(ms);
    o := t.Create(lib);
  }
}
