/** Path utilities of the wrapper: splitting an HDF5 path into its
    segments, separating a path into parent and object name, H5Easy's
    parent-of-a-dataset rule, and the fixed-buffer name reader. */
module Paths {
  import opened Wrappers

  // ---------------------------------------------------------------------
  // splitPath
  // ---------------------------------------------------------------------

  predicate NoSlash(s: string) {
    forall i :: 0 <= i < |s| ==> s[i] != '/'
  }

  /** `s.find_first_of('/')`, with |s| standing for npos. */
  function FindSlash(s: string): (k: nat)
    ensures k <= |s|
    ensures k < |s| ==> s[k] == '/'
    ensures forall i :: 0 <= i < k ==> s[i] != '/'
    decreases |s|
  {
    if s == [] then 0
    else if s[0] == '/' then 0
    else 1 + FindSlash(s[1..])
  }

  /** The segments splitPath yields: the loop repeatedly cuts the path at
      its first slash and keeps the non-empty piece before it. */
  function Segments(p: string): seq<string>
    decreases |p|
  {
    var k := FindSlash(p);
    if k == |p| then (if |p| > 0 then [p] else [])
    else (if k > 0 then [p[..k]] else []) + Segments(p[k + 1..])
  }

  /** A well-formed segment: non-empty and free of slashes. */
  predicate IsSegment(s: string) {
    s != [] && NoSlash(s)
  }

  predicate AllSegments(xs: seq<string>) {
    forall i :: 0 <= i < |xs| ==> IsSegment(xs[i])
  }

  /** One step of the cutting loop. */
  lemma SegmentsStep(rest: string)
    requires FindSlash(rest) < |rest|
    ensures var k := FindSlash(rest);
      Segments(rest) == (if k > 0 then [rest[..k]] else []) + Segments(rest[k + 1..])
  {
  }

  /** splitPath (H5Utils.hpp): the same loop as the source, cutting `path`
      at its first slash and pushing every non-empty piece. */
  method SplitPath(path: string) returns (results: seq<string>)
    ensures results == Segments(path)
  {
    results := [];
    var rest := path;
    var cutAt := FindSlash(rest);
    while cutAt < |rest|
      invariant cutAt == FindSlash(rest)
      invariant results + Segments(rest) == Segments(path)
      decreases |rest|
    {
      SegmentsStep(rest);
      var piece: seq<string> := if cutAt > 0 then [rest[..cutAt]] else [];
      assert results + Segments(rest) == (results + piece) + Segments(rest[cutAt + 1..]);
      if cutAt > 0 {
        results := results + [rest[..cutAt]];
      }
      rest := rest[cutAt + 1..];
      cutAt := FindSlash(rest);
    }
    if |rest| > 0 {
      results := results + [rest];
    }
  }

  /** No segment is empty and no segment contains '/'. */
  lemma {:induction false} SegmentsAreSegments(p: string)
    ensures AllSegments(Segments(p))
    decreases |p|
  {
    var k := FindSlash(p);
    if k < |p| {
      SegmentsAreSegments(p[k + 1..]);
      if k > 0 {
        assert NoSlash(p[..k]);
      }
    }
  }

  /** Every character except '/', in order. */
  function RemoveSlashes(s: string): string
    decreases |s|
  {
    if s == [] then []
    else (if s[0] == '/' then [] else [s[0]]) + RemoveSlashes(s[1..])
  }

  function Concat(xs: seq<string>): string
    decreases |xs|
  {
    if xs == [] then [] else xs[0] + Concat(xs[1..])
  }

  lemma {:induction false} ConcatAppend(xs: seq<string>, ys: seq<string>)
    ensures Concat(xs + ys) == Concat(xs) + Concat(ys)
    decreases |xs|
  {
    if xs == [] {
      assert xs + ys == ys;
    } else {
      assert (xs + ys)[0] == xs[0];
      assert (xs + ys)[1..] == xs[1..] + ys;
      ConcatAppend(xs[1..], ys);
      calc {
        Concat(xs + ys);
        xs[0] + Concat(xs[1..] + ys);
        xs[0] + (Concat(xs[1..]) + Concat(ys));
        (xs[0] + Concat(xs[1..])) + Concat(ys);
      }
    }
  }

  lemma {:induction false} RemoveSlashesAppend(a: string, b: string)
    ensures RemoveSlashes(a + b) == RemoveSlashes(a) + RemoveSlashes(b)
    decreases |a|
  {
    if a == [] {
      assert a + b == b;
    } else {
      assert (a + b)[0] == a[0];
      assert (a + b)[1..] == a[1..] + b;
      RemoveSlashesAppend(a[1..], b);
      var h: string := if a[0] == '/' then [] else [a[0]];
      calc {
        RemoveSlashes(a + b);
        h + RemoveSlashes(a[1..] + b);
        h + (RemoveSlashes(a[1..]) + RemoveSlashes(b));
        (h + RemoveSlashes(a[1..])) + RemoveSlashes(b);
      }
    }
  }

  lemma {:induction false} RemoveSlashesNoSlash(s: string)
    requires NoSlash(s)
    ensures RemoveSlashes(s) == s
    decreases |s|
  {
    if s != [] {
      assert NoSlash(s[1..]) by {
        forall i | 0 <= i < |s| - 1 ensures s[1..][i] != '/' {
          assert s[1..][i] == s[i + 1];
        }
      }
      RemoveSlashesNoSlash(s[1..]);
      assert s == [s[0]] + s[1..];
    }
  }

  /** Joining splitPath's segments gives the input with every '/' removed. */
  lemma {:induction false} SegmentsConcat(p: string)
    ensures Concat(Segments(p)) == RemoveSlashes(p)
    decreases |p|
  {
    var k := FindSlash(p);
    if k == |p| {
      RemoveSlashesNoSlash(p);
      if |p| > 0 {
        assert Concat([p]) == p + Concat([]);
      }
    } else {
      var head: seq<string> := if k > 0 then [p[..k]] else [];
      SegmentsConcat(p[k + 1..]);
      ConcatAppend(head, Segments(p[k + 1..]));
      assert p == p[..k] + [p[k]] + p[k + 1..];
      RemoveSlashesAppend(p[..k] + [p[k]], p[k + 1..]);
      RemoveSlashesAppend(p[..k], [p[k]]);
      assert NoSlash(p[..k]);
      RemoveSlashesNoSlash(p[..k]);
      assert RemoveSlashes([p[k]]) == [];
      if k > 0 {
        assert Concat(head) == p[..k] + Concat([]);
      }
    }
  }

  predicate AllSlashes(p: string) {
    forall i :: 0 <= i < |p| ==> p[i] == '/'
  }

  /** splitPath yields nothing exactly for "" and for strings of slashes. */
  lemma {:induction false} SegmentsEmptyIff(p: string)
    ensures Segments(p) == [] <==> AllSlashes(p)
    decreases |p|
  {
    var k := FindSlash(p);
    if k < |p| {
      SegmentsEmptyIff(p[k + 1..]);
      if AllSlashes(p) {
        assert k == 0;
        assert AllSlashes(p[1..]) by {
          forall i | 0 <= i < |p| - 1 ensures p[1..][i] == '/' {
            assert p[1..][i] == p[i + 1];
          }
        }
      }
      if Segments(p) == [] {
        assert k == 0;
        forall i | 0 <= i < |p| ensures p[i] == '/' {
          if i > 0 {
            assert p[1..][i - 1] == p[i];
          }
        }
      }
    } else if |p| > 0 {
      assert p[0] != '/';
    }
  }

  /** Repeated and trailing slashes produce no empty segments. */
  lemma SplitPathExample()
    ensures Segments("/a//b/") == ["a", "b"]
  {
    assert "/a//b/" == "/" + ("a" + "/" + ("/" + ("b" + "/" + "")));
    assert IsSegment("a") && IsSegment("b");
    SegmentsCons("b", "");
    SegmentsSlashPrefix("b" + "/" + "");
    SegmentsCons("a", "/" + ("b" + "/" + ""));
    SegmentsSlashPrefix("a" + "/" + ("/" + ("b" + "/" + "")));
  }

  // ---------------------------------------------------------------------
  // splitPathToParentAndObj
  // ---------------------------------------------------------------------

  /** Segments separated by single slashes: "a/b/c". */
  function JoinSlash(xs: seq<string>): string
    decreases |xs|
  {
    if xs == [] then []
    else if |xs| == 1 then xs[0]
    else xs[0] + "/" + JoinSlash(xs[1..])
  }

  /** Each segment followed by a slash: "a/b/c/". */
  function SlashEach(xs: seq<string>): string
    decreases |xs|
  {
    if xs == [] then [] else SlashEach(xs[..|xs| - 1]) + xs[|xs| - 1] + "/"
  }

  lemma {:induction false} JoinSlashSnoc(xs: seq<string>, x: string)
    requires xs != []
    ensures JoinSlash(xs + [x]) == JoinSlash(xs) + "/" + x
    decreases |xs|
  {
    if |xs| > 1 {
      assert (xs + [x])[1..] == xs[1..] + [x];
      JoinSlashSnoc(xs[1..], x);
    } else {
      assert (xs + [x])[1..] == [x];
    }
  }

  /** The parent the source's loop builds equals the slash-joined segments. */
  lemma {:induction false} JoinSlashBySlashEach(xs: seq<string>, x: string)
    ensures JoinSlash(xs + [x]) == SlashEach(xs) + x
    decreases |xs|
  {
    if xs == [] {
      assert [] + [x] == [x];
    } else {
      var ys := xs[..|xs| - 1];
      assert xs == ys + [xs[|xs| - 1]];
      JoinSlashBySlashEach(ys, xs[|xs| - 1]);
      JoinSlashSnoc(xs, x);
    }
  }

  /** Result of splitPathToParentAndObj: the new `objName` is None when the
      source leaves its argument untouched. */
  datatype ParentAndObj = ParentAndObj(parent: string, objName: Option<string>)

  function RootPrefix(path: string): string
    requires path != []
  {
    if path[0] == '/' then "/" else ""
  }

  /** splitPathToParentAndObj (H5Utils.hpp): the parent is built by the same
      loop as the source, appending each but the last segment with a '/'
      after all but the last of those. */
  method SplitPathToParentAndObj(path: string) returns (r: ParentAndObj)
    ensures path == [] ==> r == ParentAndObj("", None)
    ensures path != [] && Segments(path) == [] ==> r == ParentAndObj("", Some(""))
    ensures path != [] && Segments(path) != [] ==>
      var segs := Segments(path);
      r.objName == Some(segs[|segs| - 1]) &&
      r.parent == RootPrefix(path) + JoinSlash(segs[..|segs| - 1])
  {
    if path == [] {
      return ParentAndObj("", None);
    }
    var pathVec := SplitPath(path);
    if pathVec == [] {
      return ParentAndObj("", Some(""));
    }
    var parentPath := if path[0] == '/' then "/" else "";
    parentPath := AppendParent(parentPath, pathVec);
    return ParentAndObj(parentPath, Some(pathVec[|pathVec| - 1]));
  }

  /** The loop of splitPathToParentAndObj: every segment but the last, each
      followed by '/' except the one before the object name. */
  method AppendParent(start: string, pathVec: seq<string>) returns (parentPath: string)
    requires pathVec != []
    ensures parentPath == start + JoinSlash(pathVec[..|pathVec| - 1])
  {
    parentPath := start;
    var n := |pathVec|;
    var i := 0;
    while i < n - 1
      invariant 0 <= i <= n - 1
      invariant i < n - 1 ==> parentPath == start + SlashEach(pathVec[..i])
      invariant i == n - 1 ==> parentPath == start + JoinSlash(pathVec[..i])
    {
      var prefix := pathVec[..i];
      assert pathVec[..i + 1] == prefix + [pathVec[i]];
      assert SlashEach(prefix + [pathVec[i]]) == SlashEach(prefix) + pathVec[i] + "/" by {
        assert (prefix + [pathVec[i]])[..i] == prefix;
      }
      if i < n - 2 {
        parentPath := parentPath + pathVec[i] + "/";
      } else {
        parentPath := parentPath + pathVec[i];
        JoinSlashBySlashEach(prefix, pathVec[i]);
      }
      i := i + 1;
    }
    if n == 1 {
      assert pathVec[..0] == [];
    }
  }

  /** The parent of a path that has at least one segment. */
  function ParentOf(path: string): string
    requires path != [] && Segments(path) != []
  {
    var segs := Segments(path);
    RootPrefix(path) + JoinSlash(segs[..|segs| - 1])
  }

  lemma SegmentsSlashPrefix(s: string)
    ensures Segments("/" + s) == Segments(s)
  {
    assert FindSlash("/" + s) == 0;
    assert ("/" + s)[1..] == s;
  }

  /** Splitting a segment followed by a slash. */
  lemma SegmentsCons(x: string, rest: string)
    requires IsSegment(x)
    ensures Segments(x + "/" + rest) == [x] + Segments(rest)
  {
    var p := x + "/" + rest;
    assert p[|x|] == '/';
    forall i | 0 <= i < |x| ensures p[i] != '/' {
      assert p[i] == x[i];
    }
    var k := FindSlash(p);
    assert k == |x|;
    assert p[..k] == x;
    assert p[k + 1..] == rest;
  }

  /** Splitting single-slash-joined segments gives them back. */
  lemma {:induction false} SegmentsJoinSlash(xs: seq<string>)
    requires AllSegments(xs)
    ensures Segments(JoinSlash(xs)) == xs
    decreases |xs|
  {
    if |xs| == 1 {
      assert IsSegment(xs[0]);
      assert FindSlash(xs[0]) == |xs[0]|;
    } else if |xs| > 1 {
      assert AllSegments(xs[1..]) by {
        forall i | 0 <= i < |xs| - 1 ensures IsSegment(xs[1..][i]) {
          assert xs[1..][i] == xs[i + 1];
        }
      }
      SegmentsJoinSlash(xs[1..]);
      assert IsSegment(xs[0]);
      SegmentsCons(xs[0], JoinSlash(xs[1..]));
    }
  }

  /** The parent splits into all segments of the path but the last. */
  lemma ParentSegments(path: string)
    requires path != [] && Segments(path) != []
    ensures var segs := Segments(path);
      Segments(ParentOf(path)) == segs[..|segs| - 1]
  {
    var segs := Segments(path);
    SegmentsAreSegments(path);
    var init := segs[..|segs| - 1];
    assert AllSegments(init) by {
      forall i | 0 <= i < |init| ensures IsSegment(init[i]) {
        assert init[i] == segs[i];
      }
    }
    SegmentsJoinSlash(init);
    if path[0] == '/' {
      SegmentsSlashPrefix(JoinSlash(init));
    } else {
      assert ParentOf(path) == JoinSlash(init);
    }
  }

  /** The parent starts with '/' exactly when the path does. */
  lemma ParentKeepsRoot(path: string)
    requires path != [] && Segments(path) != []
    ensures |ParentOf(path)| > 0 && ParentOf(path)[0] == '/' <==> path[0] == '/'
  {
    var segs := Segments(path);
    SegmentsAreSegments(path);
    var init := segs[..|segs| - 1];
    if path[0] != '/' && init != [] {
      assert init[0] == segs[0];
      assert IsSegment(segs[0]);
      assert segs[0][0] != '/';
      if |init| > 1 {
        assert JoinSlash(init) == init[0] + "/" + JoinSlash(init[1..]);
      }
      assert ParentOf(path) == JoinSlash(init);
      assert JoinSlash(init)[0] == init[0][0];
    }
  }

  lemma ParentExamples()
    ensures ParentOf("/a") == "/"
    ensures ParentOf("a") == ""
  {
    assert Segments("a") == ["a"];
    assert "/a"[1..] == "a";
    assert Segments("/a") == ["a"];
  }

  // ---------------------------------------------------------------------
  // H5Easy getParentName
  // ---------------------------------------------------------------------

  predicate IsSeparator(c: char) { c == '/' || c == '\\' }

  predicate NoSeparator(s: string) {
    forall i :: 0 <= i < |s| ==> !IsSeparator(s[i])
  }

  /** `s.find_last_of("/\\")`, with |s| standing for npos. */
  function FindLastSeparator(s: string): (k: nat)
    ensures k <= |s|
    ensures k < |s| ==> IsSeparator(s[k])
    ensures k == |s| ==> NoSeparator(s)
    ensures forall i :: k < i < |s| ==> !IsSeparator(s[i])
    decreases |s|
  {
    if s == [] then 0
    else
      var t := s[1..];
      var k := FindLastSeparator(t);
      assert forall i :: 0 <= i < |t| ==> t[i] == s[i + 1];
      if k < |t| then k + 1
      else if IsSeparator(s[0]) then 0
      else |s|
  }

  /** getParentName (H5Easy_misc.hpp). */
  function EasyParentName(path: string): string {
    var idx := FindLastSeparator(path);
    if idx == |path| then "/"
    else if idx == 0 then "/"
    else path[..idx]
  }

  /** The branches of getParentName: "/" when the path has no separator or
      its last separator is its first character; otherwise the path is the
      result, one separator and a separator-free name. */
  lemma EasyParentNameSpec(path: string)
    ensures NoSeparator(path) ==> EasyParentName(path) == "/"
    ensures path != [] && IsSeparator(path[0]) && NoSeparator(path[1..]) ==> EasyParentName(path) == "/"
    ensures EasyParentName(path) != "/" ==>
      var r := EasyParentName(path);
      |r| < |path| && r == path[..|r|] && IsSeparator(path[|r|]) &&
      NoSeparator(path[|r| + 1..])
  {
    var k := FindLastSeparator(path);
    if path != [] && NoSeparator(path[1..]) {
      forall i | 1 <= i < |path| ensures !IsSeparator(path[i]) {
        assert path[1..][i - 1] == path[i];
      }
    }
    if k < |path| {
      var tail := path[k + 1..];
      forall i | 0 <= i < |tail| ensures !IsSeparator(tail[i]) {
        assert tail[i] == path[k + 1 + i];
      }
    }
  }

  /** A name after the last separator is cut off together with that
      separator: getParentName("/path/to" + "/" + "dataset") == "/path/to". */
  lemma EasyParentNameJoin(parent: string, sep: char, name: string)
    requires parent != [] && IsSeparator(sep) && NoSeparator(name)
    ensures EasyParentName(parent + [sep] + name) == parent
  {
    var path := parent + [sep] + name;
    var k := FindLastSeparator(path);
    assert path[|parent|] == sep;
    forall i | |parent| < i < |path| ensures !IsSeparator(path[i]) {
      assert path[i] == name[i - |parent| - 1];
    }
    assert k == |parent|;
    assert path[..k] == parent;
  }

  lemma EasyParentNameExample()
    ensures EasyParentName("dataset") == "/"
    ensures EasyParentName("/dataset") == "/"
  {
    assert FindLastSeparator("dataset") == 7;
  }

  // ---------------------------------------------------------------------
  // get_name: read a name through a fixed buffer, retrying when too long
  // ---------------------------------------------------------------------

  const MAX_PATH_LEN: nat := 510   // H5GT_MAX_PATH_LEN

  /** What the library's name query (H5Iget_name, H5Fget_name,
      H5Lget_name_by_idx, H5Pget_virtual_dsetname, ...) knows: either it
      fails, or the object has this name. */
  datatype NameQuery = QueryFails | Named(name: string)

  /** The library side of a name query: copies at most size-1 characters
      and a NUL into the buffer, and returns the full length of the name, or
      a negative code on failure. */
  method QueryName(q: NameQuery, buffer: array<char>) returns (retcode: int)
    requires buffer.Length > 0
    modifies buffer
    ensures q.QueryFails? ==> retcode < 0 && buffer[..] == old(buffer[..])
    ensures q.Named? ==> retcode == |q.name|
    ensures q.Named? ==>
      var n := if |q.name| < buffer.Length then |q.name| else buffer.Length - 1;
      buffer[..n] == q.name[..n] && buffer[n] == '\0' && buffer[n + 1..] == old(buffer[n + 1..])
  {
    if q.QueryFails? {
      return -1;
    }
    var n := if |q.name| < buffer.Length then |q.name| else buffer.Length - 1;
    var i := 0;
    while i < n
      invariant 0 <= i <= n
      invariant buffer[..i] == q.name[..i]
      invariant buffer[i..] == old(buffer[i..])
    {
      buffer[i] := q.name[i];
      i := i + 1;
    }
    buffer[n] := '\0';
    return |q.name|;
  }

  /** get_name (H5Utils.hpp) and its copies in getVirtualDataSetName /
      getVirtualFileName (H5PropertyList_misc.hpp): ask once with a buffer of
      MAX_PATH_LEN + 1 characters; a negative return throws `kind`; a name
      longer than MAX_PATH_LEN is asked for again with a buffer of length + 1.
      `sizes` lists the buffer sizes passed to the library. */
  method GetName(q: NameQuery, kind: ErrorKind) returns (r: Result<string>, sizes: seq<nat>)
    ensures q.QueryFails? ==> Raises(r, kind) && sizes == [MAX_PATH_LEN + 1]
    ensures q.Named? ==> r == Ok(q.name)
    ensures q.Named? && |q.name| <= MAX_PATH_LEN ==> sizes == [MAX_PATH_LEN + 1]
    ensures q.Named? && |q.name| > MAX_PATH_LEN ==> sizes == [MAX_PATH_LEN + 1, |q.name| + 1]
  {
    var buffer := new char[MAX_PATH_LEN + 1];
    var retcode := QueryName(q, buffer);
    sizes := [MAX_PATH_LEN + 1];
    if retcode < 0 {
      return Throw(kind, "Error accessing object name"), sizes;
    }
    var length := retcode;
    if length <= MAX_PATH_LEN {
      assert buffer[..length] == q.name[..length] == q.name;
      return Ok(buffer[..length]), sizes;
    }
    var bigBuffer := new char[length + 1](_ => '\0');
    var _ := QueryName(q, bigBuffer);
    assert q.name[..length] == q.name;
    sizes := sizes + [length + 1];
    return Ok(bigBuffer[..length]), sizes;
  }
}
