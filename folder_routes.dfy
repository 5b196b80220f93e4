/** The Express folder routes: contents, breadcrumb tree, create, rename and
    delete. Each handler runs the validator chain, then the ownership lookup,
    then the uniqueness lookup, and only then writes. */
module FolderRoutes {
  import opened Common
  import opened Text
  import opened Seqs
  import opened Hierarchy
  import opened Store
  import opened Queries

  /** GET /folders/:id/contents: the immediate sub-folders by name, and the
      folder's files by name unless `includeFiles` is given as anything
      other than 'true'. */
  method Contents(db: Db, user: Id, id: Id, includeFiles: Option<string>)
    returns (status: Status, children: seq<Row<Folder>>, inFolder: seq<Row<StoredFile>>)
    ensures status == (if OwnsFolder(db.rooms, db.folders, user, id) then Ok else NotFound)
    ensures status == Ok ==> IsSelection(children, db.folders, ChildOf(id)) && Sorted(children, FolderNameOrder)
    ensures status == Ok && IncludesFiles(includeFiles) ==>
      IsSelection(inFolder, db.files, InFolder(id)) && Sorted(inFolder, FileNameOrder)
    ensures status != Ok ==> children == []
    ensures status != Ok || !IncludesFiles(includeFiles) ==> inFolder == []
  {
    children, inFolder := [], [];
    if !OwnsFolder(db.rooms, db.folders, user, id) {
      return NotFound, children, inFolder;
    }
    FolderNameOrderTotal();
    children := FindMany(db.folders, ChildOf(id), FolderNameOrder);
    if IncludesFiles(includeFiles) {
      FileNameOrderTotal();
      inFolder := FindMany(db.files, InFolder(id), FileNameOrder);
    }
    status := Ok;
  }

  /** `includeFiles` defaults to 'true'; files are listed only for 'true'. */
  predicate IncludesFiles(includeFiles: Option<string>) {
    includeFiles.None? || includeFiles.value == "true"
  }

  /** GET /folders/:id/tree: the breadcrumb of an owned folder. */
  method Tree(db: Db, user: Id, id: Id) returns (status: Status, crumbs: seq<Crumb>)
    requires db.Valid()
    ensures status == (if OwnsFolder(db.rooms, db.folders, user, id) then Ok else NotFound)
    ensures status == Ok ==> crumbs == Breadcrumb(db.folders, id)
    ensures status == Ok ==> crumbs[0].parentId.None? && crumbs[|crumbs| - 1].id == id
    ensures status == Ok && SameRoomNesting(db.folders) ==>
      forall c :: c in crumbs ==> OwnsFolder(db.rooms, db.folders, user, c.id)
    ensures status != Ok ==> crumbs == []
  {
    if !OwnsFolder(db.rooms, db.folders, user, id) {
      return NotFound, [];
    }
    crumbs := Breadcrumb(db.folders, id);
    BreadcrumbFromRoot(db.folders, id);
    if SameRoomNesting(db.folders) {
      BreadcrumbOwnedByCaller(db.rooms, db.folders, user, id);
    }
    status := Ok;
  }

  /** The body of POST /folders; None is an absent (or, for parentId, null)
      field. */
  datatype CreateBody = CreateBody(name: Option<string>, dataRoomId: Option<string>, parentId: Option<string>)

  /** The validator chain: a string name of 1..100 characters after trimming,
      a UUID data room and, when present, a UUID parent. */
  predicate CreateBodyValid(b: CreateBody) {
    && b.name.Some? && ValidLength(b.name.value, 1, 100)
    && b.dataRoomId.Some? && IsUuid(b.dataRoomId.value)
    && (b.parentId.None? || IsUuid(b.parentId.value))
  }

  /** The parent lookup `findFirst({ where: { id: parentId, dataRoomId } })`. */
  predicate ParentInRoom(fs: Folders, parent: Id, room: Id) {
    parent in fs && fs[parent].dataRoomId == room
  }

  /** The answer of POST /folders, check by check in the handler's order. */
  function CreateVerdict(rooms: Rooms, fs: Folders, user: Id, b: CreateBody): Status {
    if !CreateBodyValid(b) then BadRequest
    else if !OwnsRoom(rooms, user, b.dataRoomId.value) then NotFound
    else if b.parentId.Some? && !ParentInRoom(fs, b.parentId.value, b.dataRoomId.value) then NotFound
    else if FolderNameTaken(fs, Trim(b.name.value), b.parentId, b.dataRoomId.value, None) then Conflict
    else Created
  }

  /** The row POST /folders inserts: the sanitised (trimmed) name. */
  function NewFolder(b: CreateBody, user: Id, now: int): Folder
    requires b.name.Some? && b.dataRoomId.Some?
  {
    Folder(Trim(b.name.value), b.dataRoomId.value, b.parentId, user, now)
  }

  /** An accepted create lands in a room the caller owns, under a parent in
      that same room, with a name free under that parent. */
  lemma CreateAcceptedMeansChecked(rooms: Rooms, fs: Folders, user: Id, b: CreateBody, now: int)
    requires CreateVerdict(rooms, fs, user, b) == Created
    ensures var f := NewFolder(b, user, now);
      && OwnsRoom(rooms, user, f.dataRoomId)
      && (f.parentId.Some? ==> f.parentId.value in fs && fs[f.parentId.value].dataRoomId == f.dataRoomId)
      && !FolderNameTaken(fs, f.name, f.parentId, f.dataRoomId, None)
      && 1 <= |f.name| <= 100 && f.name == Trim(f.name)
  {
    TrimIdempotent(b.name.value);
  }

  /** POST /folders */
  method Create(db: Db, user: Id, b: CreateBody, newId: Id, now: int) returns (status: Status)
    requires db.Valid() && newId !in db.folders
    modifies db
    ensures db.Valid()
    ensures status == CreateVerdict(old(db.rooms), old(db.folders), user, b)
    ensures db.folders == (if status == Created then old(db.folders)[newId := NewFolder(b, user, now)] else old(db.folders))
    ensures db.rooms == old(db.rooms) && db.files == old(db.files)
    ensures old(Orderly(db.rooms, db.folders, db.files)) ==> Orderly(db.rooms, db.folders, db.files)
  {
    if !CreateBodyValid(b) {
      return BadRequest;
    }
    var room := b.dataRoomId.value;
    if !OwnsRoom(db.rooms, user, room) {
      return NotFound;
    }
    if b.parentId.Some? && !ParentInRoom(db.folders, b.parentId.value, room) {
      return NotFound;
    }
    if FolderNameTaken(db.folders, Trim(b.name.value), b.parentId, room, None) {
      return Conflict;
    }
    var f := NewFolder(b, user, now);
    CreateAcceptedMeansChecked(db.rooms, db.folders, user, b, now);
    if Orderly(db.rooms, db.folders, db.files) {
      AddFolderKeepsOrder(db.rooms, db.folders, db.files, newId, f);
    }
    var ok := db.CreateFolder(newId, f);
    assert ok;
    status := Created;
  }

  /** The answer of PUT /folders/:id. `name` is optional; when given it must
      be 1..100 characters after trimming. */
  function RenameVerdict(rooms: Rooms, fs: Folders, user: Id, id: Id, name: Option<string>): Status {
    if name.Some? && !ValidLength(name.value, 1, 100) then BadRequest
    else if !OwnsFolder(rooms, fs, user, id) then NotFound
    else if name.Some? && Trim(name.value) != fs[id].name
         && FolderNameTaken(fs, Trim(name.value), fs[id].parentId, fs[id].dataRoomId, Some(id)) then Conflict
    else Ok
  }

  /** PUT /folders/:id: on success only the name changes, and only when one
      is given. */
  method Update(db: Db, user: Id, id: Id, name: Option<string>) returns (status: Status)
    requires db.Valid()
    modifies db
    ensures db.Valid()
    ensures status == RenameVerdict(old(db.rooms), old(db.folders), user, id, name)
    ensures db.folders == (if status == Ok && name.Some?
      then old(db.folders)[id := old(db.folders)[id].(name := Trim(name.value))]
      else old(db.folders))
    ensures db.rooms == old(db.rooms) && db.files == old(db.files)
    ensures old(Orderly(db.rooms, db.folders, db.files)) ==> Orderly(db.rooms, db.folders, db.files)
  {
    if name.Some? && !ValidLength(name.value, 1, 100) {
      return BadRequest;
    }
    if !OwnsFolder(db.rooms, db.folders, user, id) {
      return NotFound;
    }
    var existing := db.folders[id];
    if name.Some? && Trim(name.value) != existing.name
       && FolderNameTaken(db.folders, Trim(name.value), existing.parentId, existing.dataRoomId, Some(id)) {
      return Conflict;
    }
    status := Ok;
    if name.None? {
      return;
    }
    var newName := Trim(name.value);
    if Orderly(db.rooms, db.folders, db.files) {
      RenameFolderKeepsOrder(db.rooms, db.folders, db.files, id, newName);
    }
    db.RenameFolder(id, newName);
  }

  /** DELETE /folders/:id: the folder, its descendants and their files go. */
  method Delete(db: Db, user: Id, id: Id) returns (status: Status)
    requires db.Valid()
    modifies db
    ensures db.Valid()
    ensures status == (if OwnsFolder(old(db.rooms), old(db.folders), user, id) then Ok else NotFound)
    ensures status == Ok ==> (db.folders, db.files) == DeleteFolderCascade(old(db.folders), old(db.files), id)
    ensures status != Ok ==> db.folders == old(db.folders) && db.files == old(db.files)
    ensures db.rooms == old(db.rooms)
    ensures old(Orderly(db.rooms, db.folders, db.files)) ==> Orderly(db.rooms, db.folders, db.files)
  {
    if !OwnsFolder(db.rooms, db.folders, user, id) {
      return NotFound;
    }
    ghost var before := (db.rooms, db.folders, db.files);
    db.DeleteFolder(id);
    if Orderly(before.0, before.1, before.2) {
      RemovalKeepsOrder(before.0, before.1, before.2, db.rooms, db.folders, db.files);
    }
    status := Ok;
  }
}
