/** The serverless files handler: upload creates a placeholder row (no bytes
    are stored), rename stores the name as sent, delete removes the row only. */
module ApiFiles {
  import opened Common
  import opened Hierarchy
  import opened Store

  datatype Branch = Preflight | NoUser | UploadFile | RenameFile | DeleteFile | NotAllowed

  /** The handler's branch for a request, in the order its tests run. */
  function Route(req: ApiRequest): (b: Branch)
    ensures req.verb == OPTIONS <==> b == Preflight
    ensures b == NoUser <==> req.verb != OPTIONS && !Truthy(req.user)
    ensures b !in {Preflight, NoUser, NotAllowed} ==> Truthy(req.user)
    ensures b == UploadFile <==> req.verb == POST && Truthy(req.user) && req.action == Some("upload")
    ensures b in {RenameFile, DeleteFile} ==> Truthy(req.id)
  {
    if req.verb == OPTIONS then Preflight
    else if !Truthy(req.user) then NoUser
    else if req.verb == POST && req.action == Some("upload") then UploadFile
    else if req.verb == PATCH && Truthy(req.id) then RenameFile
    else if req.verb == DELETE && Truthy(req.id) then DeleteFile
    else NotAllowed
  }

  /** The placeholder row: the name as sent, a PDF type, size 0, an empty
      path, and no room or uploader recorded. */
  function Placeholder(name: string, folderId: Id, now: int): StoredFile {
    StoredFile(name, "application/pdf", 0, "", folderId, None, None, now)
  }

  /** The upload branch: a truthy name and folder, an owned folder, then the
      placeholder; no name check runs. */
  method Upload(db: Db, user: Id, name: Option<string>, folderId: Option<string>, newId: Id, now: int)
    returns (status: Status)
    requires db.Valid() && newId !in db.files
    modifies db
    ensures db.Valid()
    ensures status == (if !Truthy(name) || !Truthy(folderId) then BadRequest
      else if !OwnsFolder(old(db.rooms), old(db.folders), user, folderId.value) then NotFound
      else Created)
    ensures db.files == (if status == Created
      then old(db.files)[newId := Placeholder(name.value, folderId.value, now)] else old(db.files))
    ensures db.rooms == old(db.rooms) && db.folders == old(db.folders)
    ensures old(FileRoomsMatch(db.folders, db.files)) ==> FileRoomsMatch(db.folders, db.files)
  {
    if !Truthy(name) || !Truthy(folderId) {
      return BadRequest;
    }
    if !OwnsFolder(db.rooms, db.folders, user, folderId.value) {
      return NotFound;
    }
    var ok := db.CreateFile(newId, Placeholder(name.value, folderId.value, now));
    assert ok;
    status := Created;
  }

  /** Uploading the same name twice into one folder gives two files of that
      name: this branch does not keep file names unique per folder. */
  lemma UploadBreaksFileNames()
    ensures var files := map["x" := Placeholder("a.pdf", "f", 0)];
      && FileNamesUnique(files)
      && !FileNamesUnique(files["y" := Placeholder("a.pdf", "f", 1)])
  {
    var files' := map["x" := Placeholder("a.pdf", "f", 0)]["y" := Placeholder("a.pdf", "f", 1)];
    assert files'["x"].name == files'["y"].name;
  }

  /** The rename branch: a truthy name, an owned file, the name as sent. */
  method Rename(db: Db, user: Id, id: Id, name: Option<string>) returns (status: Status)
    requires db.Valid()
    modifies db
    ensures db.Valid()
    ensures status == (if !Truthy(name) then BadRequest
      else if !OwnsFile(old(db.rooms), old(db.folders), old(db.files), user, id) then NotFound else Ok)
    ensures db.files == (if status == Ok
      then old(db.files)[id := old(db.files)[id].(name := name.value)] else old(db.files))
    ensures db.rooms == old(db.rooms) && db.folders == old(db.folders)
    ensures old(FileRoomsMatch(db.folders, db.files)) ==> FileRoomsMatch(db.folders, db.files)
  {
    if !Truthy(name) {
      return BadRequest;
    }
    if !OwnsFile(db.rooms, db.folders, db.files, user, id) {
      return NotFound;
    }
    db.RenameFile(id, name.value);
    status := Ok;
  }

  /** The delete branch: the row goes; stored bytes, if any, are left. */
  method Delete(db: Db, user: Id, id: Id) returns (status: Status)
    requires db.Valid()
    modifies db
    ensures db.Valid()
    ensures status == (if OwnsFile(old(db.rooms), old(db.folders), old(db.files), user, id) then Ok else NotFound)
    ensures db.files == (if status == Ok then old(db.files) - {id} else old(db.files))
    ensures db.rooms == old(db.rooms) && db.folders == old(db.folders)
  {
    if !OwnsFile(db.rooms, db.folders, db.files, user, id) {
      return NotFound;
    }
    db.DeleteFile(id);
    status := Ok;
  }

  /** The body fields the branches read. */
  datatype Body = Body(name: Option<string>, folderId: Option<string>)

  /** The whole handler: route, then run the branch. */
  method Handle(db: Db, req: ApiRequest, body: Body, newId: Id, now: int) returns (status: Status)
    requires db.Valid() && newId !in db.files
    modifies db
    ensures db.Valid()
    ensures Route(req) == NoUser ==> status == Unauthorized
    ensures Route(req) == NotAllowed ==> status == MethodNotAllowed
    ensures Route(req) in {Preflight, NoUser, NotAllowed} ==> db.files == old(db.files)
    ensures db.rooms == old(db.rooms) && db.folders == old(db.folders)
  {
    match Route(req)
    case Preflight => status := Ok;
    case NoUser => status := Unauthorized;
    case NotAllowed => status := MethodNotAllowed;
    case UploadFile => status := Upload(db, req.user.value, body.name, body.folderId, newId, now);
    case RenameFile => status := Rename(db, req.user.value, req.id.value, body.name);
    case DeleteFile => status := Delete(db, req.user.value, req.id.value);
  }
}
