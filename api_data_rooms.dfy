/** The serverless data-rooms handler. A GET with an id always reaches the
    get branch, so the folders and files actions answer only to other
    methods. */
module ApiDataRooms {
  import opened Common
  import opened Seqs
  import opened Hierarchy
  import opened Store
  import opened Queries

  datatype Branch =
    | Preflight | NoUser
    | ListRooms | CreateRoom | GetRoom | DeleteRoom | ListFolders | ListFiles
    | NotAllowed

  /** The handler's branch for a request, in the order its tests run. */
  function Route(req: ApiRequest): (b: Branch)
    ensures req.verb == OPTIONS <==> b == Preflight
    ensures b == NoUser <==> req.verb != OPTIONS && !Truthy(req.user)
    ensures b !in {Preflight, NoUser, NotAllowed} ==> Truthy(req.user)
    ensures b in {ListRooms, CreateRoom} <==> Truthy(req.user) && req.verb in {GET, POST} && !Truthy(req.id)
    ensures Truthy(req.user) && req.verb == GET && Truthy(req.id) ==> b == GetRoom
    ensures b in {ListFolders, ListFiles} ==> Truthy(req.id) && req.verb !in {GET, DELETE, OPTIONS}
  {
    var id := Truthy(req.id);
    if req.verb == OPTIONS then Preflight
    else if !Truthy(req.user) then NoUser
    else if req.verb == GET && !id then ListRooms
    else if req.verb == POST && !id then CreateRoom
    else if req.verb == GET && id then GetRoom
    else if req.verb == DELETE && id then DeleteRoom
    else if req.action == Some("folders") && id then ListFolders
    else if req.action == Some("files") && id then ListFiles
    else NotAllowed
  }

  /** The list branch: every room of the caller, newest first, with a fixed
      pagination block (page 1, limit 10, one page). */
  method List(db: Db, user: Id) returns (rows: seq<Row<DataRoom>>, page: nat, limit: nat, total: nat, pages: nat)
    ensures IsSelection(rows, db.rooms, OwnedBy(user)) && Sorted(rows, RoomNewestFirst)
    ensures page == 1 && limit == 10 && total == |rows| && pages == 1
  {
    TimeOrdersTotal();
    rows := FindMany(db.rooms, OwnedBy(user), RoomNewestFirst);
    page, limit, total, pages := 1, 10, |rows|, 1;
  }

  /** The create branch: a truthy name, stored as sent; no name check. */
  method Create(db: Db, user: Id, name: Option<string>, newId: Id, now: int) returns (status: Status)
    requires db.Valid() && newId !in db.rooms
    modifies db
    ensures db.Valid()
    ensures status == (if Truthy(name) then Created else BadRequest)
    ensures db.rooms == (if status == Created then old(db.rooms)[newId := DataRoom(name.value, user, now, now)] else old(db.rooms))
    ensures db.folders == old(db.folders) && db.files == old(db.files)
  {
    if !Truthy(name) {
      return BadRequest;
    }
    db.CreateRoom(newId, DataRoom(name.value, user, now, now));
    status := Created;
  }

  /** Creating two rooms of one name is accepted here, unlike the Express
      route, which answers 409. */
  lemma CreateBreaksRoomNames()
    ensures var rooms := map["r" := DataRoom("Deal", "u", 0, 0)];
      && RoomNamesUnique(rooms)
      && !RoomNamesUnique(rooms["s" := DataRoom("Deal", "u", 1, 1)])
  {
    var rooms' := map["r" := DataRoom("Deal", "u", 0, 0)]["s" := DataRoom("Deal", "u", 1, 1)];
    assert rooms'["r"].name == rooms'["s"].name;
  }

  /** The get branch: the room and its root folders in the store's order. */
  method Get(db: Db, user: Id, id: Id) returns (status: Status, room: Option<DataRoom>, roots: seq<Row<Folder>>)
    ensures status == (if OwnsRoom(db.rooms, user, id) then Ok else NotFound)
    ensures room == (if status == Ok then Some(db.rooms[id]) else None)
    ensures status == Ok ==> IsSelection(roots, db.folders, RootOf(id))
    ensures status != Ok ==> roots == []
  {
    if !OwnsRoom(db.rooms, user, id) {
      return NotFound, None, [];
    }
    roots := FindAll(db.folders, RootOf(id));
    return Ok, Some(db.rooms[id]), roots;
  }

  /** The delete branch: the room and everything in it. */
  method Delete(db: Db, user: Id, id: Id) returns (status: Status)
    requires db.Valid()
    modifies db
    ensures db.Valid()
    ensures status == (if OwnsRoom(old(db.rooms), user, id) then Ok else NotFound)
    ensures status == Ok ==> (db.rooms, db.folders, db.files) == DeleteRoomCascade(old(db.rooms), old(db.folders), old(db.files), id)
    ensures status != Ok ==> db.rooms == old(db.rooms) && db.folders == old(db.folders) && db.files == old(db.files)
  {
    if !OwnsRoom(db.rooms, user, id) {
      return NotFound;
    }
    db.DeleteRoom(id);
    status := Ok;
  }

  /** `{ dataRoomId: id, dataRoom: { ownerId } }` */
  function OwnedFolderOf(rooms: Rooms, user: Id, id: Id): Row<Folder> -> bool {
    (r: Row<Folder>) => r.val.dataRoomId == id && OwnsRoom(rooms, user, id)
  }

  /** The folders action: every folder of an owned room, newest first; a room
      the caller does not own yields an empty list. */
  method FoldersOf(db: Db, user: Id, id: Id) returns (rows: seq<Row<Folder>>)
    ensures IsSelection(rows, db.folders, OwnedFolderOf(db.rooms, user, id)) && Sorted(rows, FolderNewestFirst)
    ensures !OwnsRoom(db.rooms, user, id) ==> rows == []
  {
    TimeOrdersTotal();
    rows := FindMany(db.folders, OwnedFolderOf(db.rooms, user, id), FolderNewestFirst);
    if rows != [] {
      assert OwnedFolderOf(db.rooms, user, id)(rows[0]);
      assert OwnsRoom(db.rooms, user, id);
    }
  }

  /** `{ folder: { dataRoomId: id, dataRoom: { ownerId }, parentId: null } }` */
  function OwnedRootFileOf(rooms: Rooms, fs: Folders, user: Id, id: Id): Row<StoredFile> -> bool {
    (r: Row<StoredFile>) =>
      r.val.folderId in fs && fs[r.val.folderId].dataRoomId == id && fs[r.val.folderId].parentId.None?
      && OwnsRoom(rooms, user, id)
  }

  /** The files action: the files held directly by the room's root folders,
      newest first; a room the caller does not own yields an empty list. */
  method FilesOf(db: Db, user: Id, id: Id) returns (rows: seq<Row<StoredFile>>)
    ensures IsSelection(rows, db.files, OwnedRootFileOf(db.rooms, db.folders, user, id)) && Sorted(rows, FileNewestFirst)
    ensures !OwnsRoom(db.rooms, user, id) ==> rows == []
  {
    TimeOrdersTotal();
    rows := FindMany(db.files, OwnedRootFileOf(db.rooms, db.folders, user, id), FileNewestFirst);
    if rows != [] {
      assert OwnedRootFileOf(db.rooms, db.folders, user, id)(rows[0]);
      assert OwnsRoom(db.rooms, user, id);
    }
  }

  /** The whole handler: route, then run the branch. Only the create and
      delete branches write. */
  method Handle(db: Db, req: ApiRequest, name: Option<string>, newId: Id, now: int) returns (status: Status)
    requires db.Valid() && newId !in db.rooms
    modifies db
    ensures db.Valid()
    ensures Route(req) == NoUser ==> status == Unauthorized
    ensures Route(req) == NotAllowed ==> status == MethodNotAllowed
    ensures Route(req) !in {CreateRoom, DeleteRoom} ==>
      db.rooms == old(db.rooms) && db.folders == old(db.folders) && db.files == old(db.files)
  {
    match Route(req)
    case Preflight => status := Ok;
    case NoUser => status := Unauthorized;
    case NotAllowed => status := MethodNotAllowed;
    case ListRooms =>
      var rows, page, limit, total, pages := List(db, req.user.value);
      status := Ok;
    case CreateRoom => status := Create(db, req.user.value, name, newId, now);
    case GetRoom =>
      var room, roots;
      status, room, roots := Get(db, req.user.value, req.id.value);
    case DeleteRoom => status := Delete(db, req.user.value, req.id.value);
    case ListFolders =>
      var rows := FoldersOf(db, req.user.value, req.id.value);
      status := Ok;
    case ListFiles =>
      var rows := FilesOf(db, req.user.value, req.id.value);
      status := Ok;
  }
}
