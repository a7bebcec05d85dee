/** NodeTraits: the existence probes over a group's links, and the
    operations that change its link table (unlink, rename, _createLink).
    H5Lexists and H5Oexists_by_name are oracles from a name to their
    status (negative on error); the link table is a map from link name to
    what the link points at. */
module Nodes {
  import opened Wrappers
  import opened Objects

  // ---------------------------------------------------------------------
  // exist / resolved
  // ---------------------------------------------------------------------

  /** _exist and _resolved, one body over the library probe `status`:
      an empty name is absent; a negative status raises only when asked
      to; "/" is present whatever the library says. */
  function Probe(status: string -> int, name: string, raiseErrors: bool, message: string): (r: Result<bool>)
    ensures name == "" ==> r == Ok(false)
    ensures r.Err? <==> name != "" && status(name) < 0 && raiseErrors
    ensures r.Err? ==> r.error.kind == GroupException
    ensures r.Ok? ==> (r.value <==> name != "" && status(name) >= 0 && (name == "/" || status(name) > 0))
  {
    if name == "" then Ok(false)
    else
      var val := status(name);
      if val < 0 then
        (if raiseErrors then Throw(GroupException, message) else Ok(false))
      else Ok(name == "/" || val > 0)
  }

  /** exist and resolved: a name holding '/' is first checked at the root
      (that probe never throws and its answer is dropped), then probed
      without raising. */
  function Lookup(status: string -> int, objName: string, raiseErrors: bool, message: string): (r: Result<bool>)
  {
    if '/' in objName then
      var _ := Probe(status, "/", false, message);
      if objName == "/" then Ok(true) else Probe(status, objName, false, message)
    else Probe(status, objName, raiseErrors, message)
  }

  /** What exist / resolved answer, for every name and setting. */
  lemma LookupSpec(status: string -> int, objName: string, raiseErrors: bool, message: string)
    ensures objName == "" ==> Lookup(status, objName, raiseErrors, message) == Ok(false)
    ensures objName == "/" ==> Lookup(status, objName, raiseErrors, message) == Ok(true)
    ensures '/' in objName ==> Lookup(status, objName, raiseErrors, message).Ok?
    ensures Lookup(status, objName, raiseErrors, message).Err? <==>
      '/' !in objName && objName != "" && status(objName) < 0 && raiseErrors
    ensures Lookup(status, objName, raiseErrors, message).Err? ==>
      Lookup(status, objName, raiseErrors, message).error.kind == GroupException
    ensures Lookup(status, objName, raiseErrors, message).Ok? ==>
      (Lookup(status, objName, raiseErrors, message).value <==>
       objName == "/" || (objName != "" && status(objName) > 0))
  {
    if '/' in objName && objName != "/" {
      assert objName != "";
    }
  }

  /** The two library probes behind exist and resolved. */
  datatype Library = Library(
    lexists: string -> int,           // H5Lexists
    oexists: string -> int,           // H5Oexists_by_name
    openKind: string -> IdType)       // H5Iget_type(H5Oopen(name)), IBadId when the open fails

  function Exist(lib: Library, objName: string, raiseErrors: bool): Result<bool> {
    Lookup(lib.lexists, objName, raiseErrors, "Invalid link for exist()")
  }

  function Resolved(lib: Library, objName: string, raiseErrors: bool): Result<bool> {
    Lookup(lib.oexists, objName, raiseErrors, "Invalid link for resolved()")
  }

  /** existAndResolved: exist, then (only if it holds) resolved. */
  function ExistAndResolved(lib: Library, objName: string, raiseErrors: bool): (r: Result<bool>)
    ensures r == Ok(true) <==> Exist(lib, objName, raiseErrors) == Ok(true) && Resolved(lib, objName, raiseErrors) == Ok(true)
    ensures Exist(lib, objName, raiseErrors).Err? ==> r == Exist(lib, objName, raiseErrors)
    ensures Exist(lib, objName, raiseErrors) == Ok(false) ==> r == Ok(false)
    ensures Exist(lib, objName, raiseErrors) == Ok(true) ==> r == Resolved(lib, objName, raiseErrors)
  {
    var e :- Exist(lib, objName, raiseErrors);
    if !e then Ok(false)
    else
      var res :- Resolved(lib, objName, raiseErrors);
      if !res then Ok(false) else Ok(true)
  }

  /** getObjectType(name): open the object and classify its id. */
  function GetObjectType(lib: Library, objName: string): (r: Result<ObjectType>)
    ensures r.Err? <==> lib.openKind(objName) == IBadId
    ensures r.Err? ==> r.error.kind == GroupException
    ensures r.Ok? ==> r.value == ConvertObjectType(lib.openKind(objName))
  {
    var kind := lib.openKind(objName);
    if kind == IBadId then Throw(GroupException, "Unable to open \"" + objName + "\":")
    else Ok(ConvertObjectType(kind))
  }

  /** hasObject: the object exists, resolves, and is of the requested kind. */
  function HasObject(lib: Library, objName: string, objType: ObjectType, raiseErrors: bool): (r: Result<bool>)
    ensures r == Ok(true) <==>
      ExistAndResolved(lib, objName, raiseErrors) == Ok(true) && GetObjectType(lib, objName) == Ok(objType)
    ensures ExistAndResolved(lib, objName, raiseErrors) == Ok(false) ==> r == Ok(false)
  {
    var present :- ExistAndResolved(lib, objName, raiseErrors);
    if !present then Ok(false)
    else
      var t :- GetObjectType(lib, objName);
      Ok(t == objType)
  }

  /** A wrong middle path is simply absent: exist("blabla/group2") is false
      even when raise_errors is set, while the plain name "x" raises when
      the library reports an error for it. */
  lemma ExistExamples(lib: Library)
    requires lib.lexists("blabla/group2") < 0 && lib.lexists("x") < 0
    ensures Exist(lib, "blabla/group2", true) == Ok(false)
    ensures Exist(lib, "x", false) == Ok(false)
    ensures Exist(lib, "x", true).Err?
  {
    assert "blabla/group2"[6] == '/';
    assert '/' !in "x";
  }

  // ---------------------------------------------------------------------
  // The link table
  // ---------------------------------------------------------------------

  /** What a link points at. */
  datatype LinkEntry =
    | HardLink(path: string)                      // an object of the target's file
    | SoftLink(path: string)
    | ExternalLink(fileName: string, path: string)

  function KindOf(e: LinkEntry): LinkType {
    match e
    case HardLink(_) => Hard
    case SoftLink(_) => Soft
    case ExternalLink(_, _) => External
  }

  /** H5Lexists over a link table: 1 for a present link, 0 otherwise. */
  function StatusOf(links: map<string, LinkEntry>): string -> int {
    n => if n in links then 1 else 0
  }

  /** The object a link is created to: its path and file name. */
  datatype Target = Target(path: string, fileName: string)

  /** getLinkType from what H5Lget_info reports: its status and the
      link's type code. */
  function LinkTypeFromInfo(status: int, infoType: int): (r: Result<LinkType>)
    ensures r.Err? <==> status < 0 || infoType == H5L_TYPE_ERROR
    ensures r.Err? ==> r.error.kind == GroupException
    ensures r.Ok? ==> r.value == ConvertLinkType(infoType)
  {
    if status < 0 || infoType == H5L_TYPE_ERROR then Throw(GroupException, "Unable to obtain info for link ")
    else Ok(ConvertLinkType(infoType))
  }

  class Node {
    /** The links of this group (H5Lget_info, H5Ldelete, H5Lmove and
        H5Lcreate_* act on it). */
    var links: map<string, LinkEntry>

    constructor (links: map<string, LinkEntry>)
      ensures this.links == links
    {
      this.links := links;
    }

    /** unlink(name): H5Ldelete fails on a missing link. */
    method Unlink(name: string) returns (o: Outcome)
      modifies this`links
      ensures name in old(links) ==> o.Pass? && links == old(links) - {name}
      ensures name !in old(links) ==> o.Fail? && o.error.kind == GroupException && links == old(links)
    {
      if name !in links {
        return Fail(Error(GroupException, "Invalid name for unlink() "));
      }
      links := links - {name};
      return Pass;
    }

    /** getLinkType(name): H5Lget_info fails on a missing link. */
    function GetLinkType(name: string): (r: Result<LinkType>)
      reads this
      ensures r.Err? <==> name !in links
      ensures r.Err? ==> r.error.kind == GroupException
      ensures r.Ok? ==> r.value == KindOf(links[name])
    {
      var status := if name in links then 0 else -1;
      var code := if name in links then LinkCode(KindOf(links[name])) else H5L_TYPE_ERROR;
      LinkTypeFromInfo(status, code)
    }

    /** rename(src, dst): H5Lmove within this group; it fails when src is
        missing or dst is taken. */
    method Rename(src: string, dst: string) returns (r: Result<bool>)
      modifies this`links
      ensures r.Ok? <==> src in old(links) && dst !in old(links)
      ensures r.Ok? ==> r.value && links == (old(links) - {src})[dst := old(links)[src]]
      ensures r.Err? ==> r.error.kind == GroupException && links == old(links)
    {
      if src !in links || dst in links {
        return Throw(GroupException, "Unable to move link to \"" + dst + "\":");
      }
      links := (links - {src})[dst := links[src]];
      return Ok(true);
    }

    /** _createLink: an empty targetPath means the target's own path; the
        link type picks the H5Lcreate_* call, which fails when the name is
        taken; any other type leaves the status at -1. */
    method CreateLink(target: Target, linkName: string, linkType: LinkType, targetPath: string)
      returns (o: Outcome)
      modifies this`links
      ensures o.Pass? <==> linkType != LinkType.Other && linkName !in old(links)
      ensures o.Fail? ==> o.error.kind == GroupException && links == old(links)
      ensures o.Pass? ==> links == old(links)[linkName := NewLink(linkType, target,
        if targetPath == "" then target.path else targetPath)]
    {
      var path := targetPath;
      if path == "" {
        path := target.path;
      }
      var status := -1;
      if linkType == Soft {
        status := AddLink(linkName, SoftLink(path));
      } else if linkType == Hard {
        status := AddLink(linkName, HardLink(path));
      } else if linkType == External {
        status := AddLink(linkName, ExternalLink(target.fileName, path));
      }
      if status < 0 {
        return Fail(Error(GroupException, "Unable to create link"));
      }
      return Pass;
    }

    /** One H5Lcreate_* call on the table. */
    method AddLink(name: string, entry: LinkEntry) returns (status: int)
      modifies this`links
      ensures status >= 0 <==> name !in old(links)
      ensures status >= 0 ==> links == old(links)[name := entry]
      ensures status < 0 ==> links == old(links)
    {
      if name in links {
        return -1;
      }
      links := links[name := entry];
      return 0;
    }
  }

  /** The link each dispatched type creates. */
  function NewLink(linkType: LinkType, target: Target, path: string): LinkEntry
    requires linkType != LinkType.Other
  {
    match linkType
    case Soft => SoftLink(path)
    case Hard => HardLink(path)
    case External => ExternalLink(target.fileName, path)
  }

  /** A created link reports the type it was created with. */
  lemma NewLinkKind(linkType: LinkType, target: Target, path: string)
    requires linkType != LinkType.Other
    ensures KindOf(NewLink(linkType, target, path)) == linkType
    ensures ConvertLinkType(LinkCode(KindOf(NewLink(linkType, target, path)))) == linkType
  {
  }

  /** After unlinking a plain name, exist reports it absent, with or
      without raise_errors. */
  lemma ExistAfterUnlink(links: map<string, LinkEntry>, name: string, raiseErrors: bool)
    requires name != "/"
    ensures Lookup(StatusOf(links - {name}), name, raiseErrors, "Invalid link for exist()") == Ok(false)
  {
    LookupSpec(StatusOf(links - {name}), name, raiseErrors, "Invalid link for exist()");
  }

  /** After creating a link under a plain, non-empty name, exist reports it
      present. */
  lemma ExistAfterCreate(links: map<string, LinkEntry>, name: string, entry: LinkEntry, raiseErrors: bool)
    requires name != ""
    ensures Lookup(StatusOf(links[name := entry]), name, raiseErrors, "Invalid link for exist()") == Ok(true)
  {
    LookupSpec(StatusOf(links[name := entry]), name, raiseErrors, "Invalid link for exist()");
  }
}
