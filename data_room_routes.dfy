/** The Express data-room routes: list, get, create, rename and delete. */
module DataRoomRoutes {
  import opened Common
  import opened Text
  import opened Seqs
  import opened Paging
  import opened Hierarchy
  import opened Store
  import opened Queries

  /** The validator on the list query: a page of at least 1 and a limit of
      1..100, each when given. */
  predicate ListQueryValid(page: Option<int>, limit: Option<int>) {
    (page.None? || page.value >= 1) && (limit.None? || 1 <= limit.value <= 100)
  }

  /** GET /data-rooms: the caller's rooms, most recently updated first, one
      page of them (page 1 and limit 10 by default). */
  method List(db: Db, user: Id, page: Option<int>, limit: Option<int>)
    returns (status: Status, rows: seq<Row<DataRoom>>, total: nat, pages: nat)
    ensures status == (if ListQueryValid(page, limit) then Ok else BadRequest)
    ensures status == Ok ==>
      var p := if page.Some? then page.value else 1;
      var l := if limit.Some? then limit.value else 10;
      && Skip(p, l) >= 0
      && (exists all :: IsSelection(all, db.rooms, OwnedBy(user)) && Sorted(all, RoomRecentlyUpdatedFirst)
           && rows == Page(all, Skip(p, l), l) && total == |all|)
      && pages == TotalPages(total, l)
    ensures status == Ok ==> forall i :: 0 <= i < |rows| ==> OwnsRoom(db.rooms, user, rows[i].id)
    ensures status != Ok ==> rows == []
  {
    rows, total, pages := [], 0, 0;
    if !ListQueryValid(page, limit) {
      return BadRequest, rows, total, pages;
    }
    var p := if page.Some? then page.value else 1;
    var l := if limit.Some? then limit.value else 10;
    var skip := Skip(p, l);
    TimeOrdersTotal();
    var all := FindMany(db.rooms, OwnedBy(user), RoomRecentlyUpdatedFirst);
    rows := Page(all, skip, l);
    total := |all|;
    pages := TotalPages(total, l);
    forall i | 0 <= i < |rows| ensures OwnsRoom(db.rooms, user, rows[i].id) {
      assert rows[i] == all[skip + i];
    }
    status := Ok;
  }

  /** GET /data-rooms/:id: the room and its root folders by name. */
  method Get(db: Db, user: Id, id: Id) returns (status: Status, room: Option<DataRoom>, roots: seq<Row<Folder>>)
    ensures status == (if OwnsRoom(db.rooms, user, id) then Ok else NotFound)
    ensures room == (if status == Ok then Some(db.rooms[id]) else None)
    ensures status == Ok ==> IsSelection(roots, db.folders, RootOf(id)) && Sorted(roots, FolderNameOrder)
    ensures status != Ok ==> roots == []
  {
    if !OwnsRoom(db.rooms, user, id) {
      return NotFound, None, [];
    }
    FolderNameOrderTotal();
    roots := FindMany(db.folders, RootOf(id), FolderNameOrder);
    return Ok, Some(db.rooms[id]), roots;
  }

  /** The answer of POST /data-rooms: 400 unless the trimmed name has 1..100
      characters, 409 when the caller already has a room of that name. */
  function CreateVerdict(rooms: Rooms, user: Id, name: Option<string>): Status {
    if name.None? || !ValidLength(name.value, 1, 100) then BadRequest
    else if RoomNameTaken(rooms, Trim(name.value), user, None) then Conflict
    else Created
  }

  /** POST /data-rooms */
  method Create(db: Db, user: Id, name: Option<string>, newId: Id, now: int) returns (status: Status)
    requires db.Valid() && newId !in db.rooms
    modifies db
    ensures db.Valid()
    ensures status == CreateVerdict(old(db.rooms), user, name)
    ensures db.rooms == (if status == Created
      then old(db.rooms)[newId := DataRoom(Trim(name.value), user, now, now)] else old(db.rooms))
    ensures db.folders == old(db.folders) && db.files == old(db.files)
    ensures old(Orderly(db.rooms, db.folders, db.files)) ==> Orderly(db.rooms, db.folders, db.files)
  {
    if name.None? || !ValidLength(name.value, 1, 100) {
      return BadRequest;
    }
    var roomName := Trim(name.value);
    if RoomNameTaken(db.rooms, roomName, user, None) {
      return Conflict;
    }
    var r := DataRoom(roomName, user, now, now);
    if Orderly(db.rooms, db.folders, db.files) {
      PutRoomKeepsOrder(db.rooms, db.folders, db.files, newId, r);
    }
    db.CreateRoom(newId, r);
    status := Created;
  }

  /** The answer of PUT /data-rooms/:id. The name is optional; the conflict
      lookup runs only for a name that differs from the current one. */
  function RenameVerdict(rooms: Rooms, user: Id, id: Id, name: Option<string>): Status {
    if name.Some? && !ValidLength(name.value, 1, 100) then BadRequest
    else if !OwnsRoom(rooms, user, id) then NotFound
    else if name.Some? && Trim(name.value) != rooms[id].name
         && RoomNameTaken(rooms, Trim(name.value), user, Some(id)) then Conflict
    else Ok
  }

  /** The room after a successful PUT: a given name is stored (trimmed) and
      stamps updatedAt; without one the row is left as it was. */
  function Renamed(r: DataRoom, name: Option<string>, now: int): DataRoom {
    if name.Some? then r.(name := Trim(name.value), updatedAt := now) else r
  }

  /** PUT /data-rooms/:id */
  method Update(db: Db, user: Id, id: Id, name: Option<string>, now: int) returns (status: Status)
    requires db.Valid()
    modifies db
    ensures db.Valid()
    ensures status == RenameVerdict(old(db.rooms), user, id, name)
    ensures db.rooms == (if status == Ok then old(db.rooms)[id := Renamed(old(db.rooms)[id], name, now)] else old(db.rooms))
    ensures db.folders == old(db.folders) && db.files == old(db.files)
    ensures old(Orderly(db.rooms, db.folders, db.files)) ==> Orderly(db.rooms, db.folders, db.files)
  {
    if name.Some? && !ValidLength(name.value, 1, 100) {
      return BadRequest;
    }
    if !OwnsRoom(db.rooms, user, id) {
      return NotFound;
    }
    var existing := db.rooms[id];
    if name.Some? && Trim(name.value) != existing.name
       && RoomNameTaken(db.rooms, Trim(name.value), user, Some(id)) {
      return Conflict;
    }
    status := Ok;
    if name.None? {
      assert db.rooms[id := existing] == db.rooms;
      return;
    }
    var r := Renamed(existing, name, now);
    if Orderly(db.rooms, db.folders, db.files) {
      if r.name == existing.name {
        assert !RoomNameTaken(db.rooms, r.name, user, Some(id));
      }
      PutRoomKeepsOrder(db.rooms, db.folders, db.files, id, r);
    }
    db.UpdateRoom(id, r);
  }

  /** DELETE /data-rooms/:id: the room, its folders and their files go. */
  method Delete(db: Db, user: Id, id: Id) returns (status: Status)
    requires db.Valid()
    modifies db
    ensures db.Valid()
    ensures status == (if OwnsRoom(old(db.rooms), user, id) then Ok else NotFound)
    ensures status == Ok ==> (db.rooms, db.folders, db.files) == DeleteRoomCascade(old(db.rooms), old(db.folders), old(db.files), id)
    ensures status == Ok ==> forall f :: f in db.folders ==> db.folders[f].dataRoomId != id
    ensures status != Ok ==> db.rooms == old(db.rooms) && db.folders == old(db.folders) && db.files == old(db.files)
    ensures old(Orderly(db.rooms, db.folders, db.files)) ==> Orderly(db.rooms, db.folders, db.files)
  {
    if !OwnsRoom(db.rooms, user, id) {
      return NotFound;
    }
    ghost var before := (db.rooms, db.folders, db.files);
    DeleteRoomCascadeConsistent(db.rooms, db.folders, db.files, id);
    db.DeleteRoom(id);
    if Orderly(before.0, before.1, before.2) {
      RemovalKeepsOrder(before.0, before.1, before.2, db.rooms, db.folders, db.files);
    }
    status := Ok;
  }
}
