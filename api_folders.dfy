/** The serverless folders handler: one function that branches on the method
    and the `id` and `action` query parameters. Unlike the Express routes it
    stores names as sent, checks no parent room, and has a duplicate action. */
module ApiFolders {
  import opened Common
  import opened Seqs
  import opened Hierarchy
  import opened Store
  import opened Queries
  import FolderRoutes

  datatype Branch =
    | Preflight | NoUser
    | CreateFolder | GetFolder | DuplicateFolder | RenameFolder | DeleteFolder | ListFiles
    | NotAllowed

  /** The handler's branch for a request, in the order its tests run. */
  function Route(req: ApiRequest): (b: Branch)
    ensures req.verb == OPTIONS <==> b == Preflight
    ensures b == NoUser <==> req.verb != OPTIONS && !Truthy(req.user)
    ensures b !in {Preflight, NoUser, NotAllowed} ==> Truthy(req.user)
    ensures b !in {Preflight, NoUser, NotAllowed, CreateFolder} ==> Truthy(req.id)
    ensures b == CreateFolder ==> req.verb == POST && !Truthy(req.id)
    ensures b == ListFiles ==> req.action == Some("files") && req.verb !in {PATCH, DELETE}
    ensures b == DuplicateFolder ==> req.verb == POST && req.action == Some("duplicate")
  {
    var id := Truthy(req.id);
    if req.verb == OPTIONS then Preflight
    else if !Truthy(req.user) then NoUser
    else if req.verb == POST && !id then CreateFolder
    else if req.verb == GET && id && !Truthy(req.action) then GetFolder
    else if req.verb == POST && id && req.action == Some("duplicate") then DuplicateFolder
    else if req.verb == PATCH && id then RenameFolder
    else if req.verb == DELETE && id then DeleteFolder
    else if req.action == Some("files") && id then ListFiles
    else NotAllowed
  }

  /** `parentId || null` */
  function ParentOf(parentId: Option<string>): (p: Option<Id>)
    ensures p.Some? <==> Truthy(parentId)
  {
    if Truthy(parentId) then Some(parentId.value) else None
  }

  // ---------------------------------------------------------------------
  // POST without id: create
  // ---------------------------------------------------------------------

  /** The answer of the create branch. The parent is only looked up by the
      database's foreign key: a missing parent makes the insert throw (500);
      a parent in another room is accepted. */
  function CreateVerdict(rooms: Rooms, fs: Folders, user: Id,
                         name: Option<string>, dataRoomId: Option<string>, parentId: Option<string>): Status
  {
    if !Truthy(name) || !Truthy(dataRoomId) then BadRequest
    else if !OwnsRoom(rooms, user, dataRoomId.value) then NotFound
    else if FolderNameTaken(fs, name.value, ParentOf(parentId), dataRoomId.value, None) then Conflict
    else if ParentOf(parentId).Some? && ParentOf(parentId).value !in fs then ServerError
    else Created
  }

  /** A folder whose name is free under its parent keeps sibling names
      unique. */
  lemma AddFolderKeepsSiblingNames(fs: Folders, id: Id, f: Folder)
    requires SiblingNamesUnique(fs) && id !in fs
    requires !FolderNameTaken(fs, f.name, f.parentId, f.dataRoomId, None)
    ensures SiblingNamesUnique(fs[id := f])
  {
    var fs' := fs[id := f];
    forall a, b | a in fs' && b in fs' && a != b
      ensures !(fs'[a].name == fs'[b].name && fs'[a].parentId == fs'[b].parentId && fs'[a].dataRoomId == fs'[b].dataRoomId)
    {
      if a == id {
        assert !(Some(b) != None && fs[b].name == f.name && fs[b].parentId == f.parentId && fs[b].dataRoomId == f.dataRoomId);
      } else if b == id {
        assert !(Some(a) != None && fs[a].name == f.name && fs[a].parentId == f.parentId && fs[a].dataRoomId == f.dataRoomId);
      }
    }
  }

  /** The create branch: the raw name, the caller's room and `parentId || null`. */
  method Create(db: Db, user: Id, name: Option<string>, dataRoomId: Option<string>, parentId: Option<string>,
                newId: Id, now: int) returns (status: Status)
    requires db.Valid() && newId !in db.folders
    modifies db
    ensures db.Valid()
    ensures status == CreateVerdict(old(db.rooms), old(db.folders), user, name, dataRoomId, parentId)
    ensures db.folders == (if status == Created
      then old(db.folders)[newId := Folder(name.value, dataRoomId.value, ParentOf(parentId), user, now)]
      else old(db.folders))
    ensures db.rooms == old(db.rooms) && db.files == old(db.files)
    ensures old(SiblingNamesUnique(db.folders)) ==> SiblingNamesUnique(db.folders)
  {
    if !Truthy(name) || !Truthy(dataRoomId) {
      return BadRequest;
    }
    var room := dataRoomId.value;
    if !OwnsRoom(db.rooms, user, room) {
      return NotFound;
    }
    var parent := ParentOf(parentId);
    if FolderNameTaken(db.folders, name.value, parent, room, None) {
      return Conflict;
    }
    var f := Folder(name.value, room, parent, user, now);
    if SiblingNamesUnique(db.folders) {
      AddFolderKeepsSiblingNames(db.folders, newId, f);
    }
    var ok := db.CreateFolder(newId, f);
    status := if ok then Created else ServerError;
  }

  /** Two owners' rooms: alice's holds the folder "secret". */
  function LeakRooms(): Rooms {
    map["A" := DataRoom("plans", "alice", 0, 0), "B" := DataRoom("mine", "bob", 0, 0)]
  }

  function LeakBefore(): Folders {
    map["fa" := Folder("secret", "A", None, "alice", 0)]
  }

  /** bob's folder "x" in his room B, created with alice's folder as parent. */
  function LeakAfter(): Folders {
    LeakBefore()["fb" := Folder("x", "B", Some("fa"), "bob", 1)]
  }

  /** The create branch accepts a parent from another owner's room. After
      bob nests a folder of his under alice's folder, the store still meets
      every foreign key, bob may open his folder and not alice's, yet the
      breadcrumb of his folder (which the Express tree route returns to him)
      starts with alice's folder and its name. */
  lemma CrossRoomParentLeaksName()
    ensures CreateVerdict(LeakRooms(), LeakBefore(), "bob", Some("x"), Some("B"), Some("fa")) == Created
    ensures Consistent(LeakRooms(), LeakAfter(), map[]) && !SameRoomNesting(LeakAfter())
    ensures OwnsFolder(LeakRooms(), LeakAfter(), "bob", "fb") && !OwnsFolder(LeakRooms(), LeakAfter(), "bob", "fa")
    ensures Breadcrumb(LeakAfter(), "fb") == [Crumb("fa", "secret", None), Crumb("fb", "x", Some("fa"))]
  {
    LeakAccepted();
    LeakStore();
    LeakPath();
  }

  lemma LeakAccepted()
    ensures CreateVerdict(LeakRooms(), LeakBefore(), "bob", Some("x"), Some("B"), Some("fa")) == Created
  {
    assert !FolderNameTaken(LeakBefore(), "x", Some("fa"), "B", None);
  }

  lemma LeakStore()
    ensures Consistent(LeakRooms(), LeakAfter(), map[]) && !SameRoomNesting(LeakAfter())
  {
    var fs := LeakAfter();
    assert RankedBy(fs, map["fa" := 0, "fb" := 1]);
    assert fs["fb"].parentId == Some("fa") && fs["fa"].dataRoomId != fs["fb"].dataRoomId;
  }

  lemma LeakPath()
    ensures Consistent(LeakRooms(), LeakAfter(), map[])
    ensures Breadcrumb(LeakAfter(), "fb") == [Crumb("fa", "secret", None), Crumb("fb", "x", Some("fa"))]
  {
    LeakStore();
    assert Breadcrumb(LeakAfter(), "fa") == [Crumb("fa", "secret", None)];
  }

  // ---------------------------------------------------------------------
  // GET with id: the folder with its parent, children and files
  // ---------------------------------------------------------------------

  /** The `parent: { id, name }` of a folder, when it resolves. */
  function ParentSummary(fs: Folders, id: Id): (p: Option<(Id, string)>)
    requires id in fs
    ensures p.Some? <==> fs[id].parentId.Some? && fs[id].parentId.value in fs
    ensures p.Some? ==> p.value == (fs[id].parentId.value, fs[fs[id].parentId.value].name)
  {
    match fs[id].parentId
    case None => None
    case Some(q) => if q in fs then Some((q, fs[q].name)) else None
  }

  /** The get branch: children and files in the store's order. */
  method Get(db: Db, user: Id, id: Id)
    returns (status: Status, folder: Option<Folder>, parent: Option<(Id, string)>,
             children: seq<Row<Folder>>, inFolder: seq<Row<StoredFile>>)
    ensures status == (if OwnsFolder(db.rooms, db.folders, user, id) then Ok else NotFound)
    ensures status == Ok ==>
      && folder == Some(db.folders[id])
      && parent == ParentSummary(db.folders, id)
      && IsSelection(children, db.folders, ChildOf(id))
      && IsSelection(inFolder, db.files, InFolder(id))
    ensures status != Ok ==> folder.None? && parent.None? && children == [] && inFolder == []
  {
    if !OwnsFolder(db.rooms, db.folders, user, id) {
      return NotFound, None, None, [], [];
    }
    children := FindAll(db.folders, ChildOf(id));
    inFolder := FindAll(db.files, InFolder(id));
    return Ok, Some(db.folders[id]), ParentSummary(db.folders, id), children, inFolder;
  }

  // ---------------------------------------------------------------------
  // POST with id and action=duplicate
  // ---------------------------------------------------------------------

  /** The copy the duplicate branch inserts: same room and parent, the name
      with " (Copy)" appended, the caller as creator. */
  function Duplicate(f: Folder, user: Id, now: int): (d: Folder)
    ensures d.dataRoomId == f.dataRoomId && d.parentId == f.parentId
    ensures |d.name| == |f.name| + 7 && d.name[..|f.name|] == f.name
  {
    Folder(f.name + " (Copy)", f.dataRoomId, f.parentId, user, now)
  }

  /** The duplicate branch. Neither sub-folders nor files are copied, and no
      name check runs. */
  method DuplicateOf(db: Db, user: Id, id: Id, newId: Id, now: int) returns (status: Status)
    requires db.Valid() && newId !in db.folders
    modifies db
    ensures db.Valid()
    ensures status == (if OwnsFolder(old(db.rooms), old(db.folders), user, id) then Created else NotFound)
    ensures db.folders == (if status == Created
      then old(db.folders)[newId := Duplicate(old(db.folders)[id], user, now)] else old(db.folders))
    ensures db.rooms == old(db.rooms) && db.files == old(db.files)
    ensures status == Created ==> forall c :: c in db.folders ==> db.folders[c].parentId != Some(newId)
    ensures old(SameRoomNesting(db.folders)) ==> SameRoomNesting(db.folders)
  {
    if !OwnsFolder(db.rooms, db.folders, user, id) {
      return NotFound;
    }
    var d := Duplicate(db.folders[id], user, now);
    var ok := db.CreateFolder(newId, d);
    assert ok;
    status := Created;
  }

  /** Duplicating twice without renaming gives two siblings of one name:
      the duplicate branch does not keep sibling names unique. */
  lemma DuplicateBreaksSiblingNames()
    ensures var fs := map["f" := Folder("X", "A", None, "u", 0),
                          "c" := Folder("X (Copy)", "A", None, "u", 1)];
      && SiblingNamesUnique(fs)
      && !SiblingNamesUnique(fs["d" := Duplicate(fs["f"], "u", 2)])
  {
    var fs := map["f" := Folder("X", "A", None, "u", 0), "c" := Folder("X (Copy)", "A", None, "u", 1)];
    var fs' := fs["d" := Duplicate(fs["f"], "u", 2)];
    assert fs'["c"].name == fs'["d"].name;
  }

  // ---------------------------------------------------------------------
  // PATCH with id: rename
  // ---------------------------------------------------------------------

  /** The rename branch: a truthy name, an owned folder, and the raw name
      stored with no conflict lookup. */
  method Rename(db: Db, user: Id, id: Id, name: Option<string>) returns (status: Status)
    requires db.Valid()
    modifies db
    ensures db.Valid()
    ensures status == (if !Truthy(name) then BadRequest
      else if !OwnsFolder(old(db.rooms), old(db.folders), user, id) then NotFound else Ok)
    ensures db.folders == (if status == Ok
      then old(db.folders)[id := old(db.folders)[id].(name := name.value)] else old(db.folders))
    ensures db.rooms == old(db.rooms) && db.files == old(db.files)
    ensures old(SameRoomNesting(db.folders)) ==> SameRoomNesting(db.folders)
  {
    if !Truthy(name) {
      return BadRequest;
    }
    if !OwnsFolder(db.rooms, db.folders, user, id) {
      return NotFound;
    }
    db.RenameFolder(id, name.value);
    status := Ok;
  }

  /** Renaming a folder to a sibling's name is accepted. */
  lemma RenameBreaksSiblingNames()
    ensures var fs := map["f" := Folder("X", "A", None, "u", 0), "g" := Folder("Y", "A", None, "u", 1)];
      && SiblingNamesUnique(fs)
      && !SiblingNamesUnique(fs["g" := fs["g"].(name := "X")])
  {
    var fs := map["f" := Folder("X", "A", None, "u", 0), "g" := Folder("Y", "A", None, "u", 1)];
    var fs' := fs["g" := fs["g"].(name := "X")];
    assert fs'["f"].name == fs'["g"].name;
  }

  // ---------------------------------------------------------------------
  // DELETE with id
  // ---------------------------------------------------------------------

  method Delete(db: Db, user: Id, id: Id) returns (status: Status)
    requires db.Valid()
    modifies db
    ensures db.Valid()
    ensures status == (if OwnsFolder(old(db.rooms), old(db.folders), user, id) then Ok else NotFound)
    ensures status == Ok ==> (db.folders, db.files) == DeleteFolderCascade(old(db.folders), old(db.files), id)
    ensures status != Ok ==> db.folders == old(db.folders) && db.files == old(db.files)
    ensures db.rooms == old(db.rooms)
  {
    if !OwnsFolder(db.rooms, db.folders, user, id) {
      return NotFound;
    }
    db.DeleteFolder(id);
    status := Ok;
  }

  // ---------------------------------------------------------------------
  // action=files with id
  // ---------------------------------------------------------------------

  /** `{ folderId: id, folder: { dataRoom: { ownerId } } }` */
  function OwnedInFolder(rooms: Rooms, fs: Folders, user: Id, id: Id): Row<StoredFile> -> bool {
    (r: Row<StoredFile>) => r.val.folderId == id && OwnsFolder(rooms, fs, user, id)
  }

  /** The files branch: newest first; a folder the caller does not own
      yields an empty list, not 404. */
  method FilesOf(db: Db, user: Id, id: Id) returns (status: Status, rows: seq<Row<StoredFile>>)
    ensures status == Ok
    ensures IsSelection(rows, db.files, OwnedInFolder(db.rooms, db.folders, user, id))
    ensures Sorted(rows, FileNewestFirst)
    ensures !OwnsFolder(db.rooms, db.folders, user, id) ==> rows == []
  {
    TimeOrdersTotal();
    rows := FindMany(db.files, OwnedInFolder(db.rooms, db.folders, user, id), FileNewestFirst);
    if rows != [] {
      assert OwnedInFolder(db.rooms, db.folders, user, id)(rows[0]);
      assert OwnsFolder(db.rooms, db.folders, user, id);
    }
    status := Ok;
  }

  // ---------------------------------------------------------------------
  // The handler
  // ---------------------------------------------------------------------

  /** The body fields the branches read. */
  datatype Body = Body(name: Option<string>, dataRoomId: Option<string>, parentId: Option<string>)

  /** The whole handler: route, then run the branch. Only the create,
      duplicate, rename and delete branches write. */
  method Handle(db: Db, req: ApiRequest, body: Body, newId: Id, now: int) returns (status: Status)
    requires db.Valid() && newId !in db.folders
    modifies db
    ensures db.Valid()
    ensures Route(req) == NoUser ==> status == Unauthorized
    ensures Route(req) == NotAllowed ==> status == MethodNotAllowed
    ensures Route(req) in {Preflight, NoUser, NotAllowed, GetFolder, ListFiles} ==>
      db.rooms == old(db.rooms) && db.folders == old(db.folders) && db.files == old(db.files)
    ensures db.rooms == old(db.rooms)
  {
    var b := Route(req);
    match b
    case Preflight => status := Ok;
    case NoUser => status := Unauthorized;
    case NotAllowed => status := MethodNotAllowed;
    case CreateFolder => status := Create(db, req.user.value, body.name, body.dataRoomId, body.parentId, newId, now);
    case GetFolder => var folder, parent, children, inFolder; status, folder, parent, children, inFolder := Get(db, req.user.value, req.id.value);
    case DuplicateFolder => status := DuplicateOf(db, req.user.value, req.id.value, newId, now);
    case RenameFolder => status := Rename(db, req.user.value, req.id.value, body.name);
    case DeleteFolder => status := Delete(db, req.user.value, req.id.value);
    case ListFiles => var rows; status, rows := FilesOf(db, req.user.value, req.id.value);
  }
}
