/** The Express file routes: list, get, upload, rename, delete and search.
    Upload puts the bytes into the bucket before it inserts the metadata row;
    delete removes the object before it deletes the row. */
module FileRoutes {
  import opened Common
  import opened Text
  import opened Seqs
  import opened Paging
  import opened Hierarchy
  import opened Store
  import opened Queries

  const PdfMime: string := "application/pdf"

  /** The upload size limit: 50 MiB. */
  const MaxUploadBytes: nat := 50 * 1024 * 1024

  /** The multipart file part as the upload middleware sees it. */
  datatype Upload = Upload(mimeType: string, size: nat, originalName: string)

  // ---------------------------------------------------------------------
  // Storage paths
  // ---------------------------------------------------------------------

  /** `s.split(sep).pop()`: the text after the last separator, or all of s
      when it has none. */
  function LastSegment(s: string, sep: char): (r: string)
    ensures sep !in r
    ensures |r| <= |s| && r == s[|s| - |r|..]
    ensures |r| < |s| ==> s[|s| - |r| - 1] == sep
    ensures sep !in s ==> r == s
  {
    if s == [] then []
    else if s[|s| - 1] == sep then []
    else LastSegment(s[..|s| - 1], sep) + [s[|s| - 1]]
  }

  /** The object key the upload helper chooses: `uploads/<stamp>.<ext>`, where
      the stamp stands for the clock-and-random part and ext is the original
      name's text after its last '.'. */
  function ObjectKey(stamp: string, originalName: string): string {
    "uploads/" + stamp + "." + LastSegment(originalName, '.')
  }

  /** The public URL stored as `filePath`. */
  function PublicUrl(projectUrl: string, key: string): string {
    projectUrl + PublicPath + key
  }

  const PublicPath: string := "/storage/v1/object/public/data-room-files/"

  /** The key the delete handler removes: the last '/'-separated segment of
      the stored path. */
  function StorageKeyOf(filePath: string): string {
    LastSegment(filePath, '/')
  }

  /** The key the delete handler evidently means: the stored URL with the
      bucket's public prefix taken off. */
  function UploadedKeyOf(projectUrl: string, filePath: string): string {
    var prefix := projectUrl + PublicPath;
    if |prefix| <= |filePath| && filePath[..|prefix|] == prefix then filePath[|prefix|..] else filePath
  }

  /** The key delete computes from what upload stored is never the key upload
      wrote: the written key lies under "uploads/", the computed one has no '/'. */
  lemma StorageKeyMissesUploadedObject(projectUrl: string, stamp: string, originalName: string)
    ensures var key := ObjectKey(stamp, originalName);
      StorageKeyOf(PublicUrl(projectUrl, key)) != key
  {
    var key := ObjectKey(stamp, originalName);
    KeyHasFolder(stamp, originalName);
    SegmentIsNotPath(PublicUrl(projectUrl, key), key);
  }

  lemma KeyHasFolder(stamp: string, originalName: string)
    ensures '/' in ObjectKey(stamp, originalName)
  {
    var dir := "uploads/";
    var named := dir + stamp;
    var dotted := named + ".";
    assert named[7] == dir[7] == '/';
    assert dotted[7] == named[7];
    assert ObjectKey(stamp, originalName)[7] == dotted[7];
  }

  lemma SegmentIsNotPath(s: string, key: string)
    requires '/' in key
    ensures StorageKeyOf(s) != key
  {
  }

  /** Taking the public prefix off the stored URL recovers the uploaded key. */
  lemma UploadedKeyRoundTrip(projectUrl: string, key: string)
    ensures UploadedKeyOf(projectUrl, PublicUrl(projectUrl, key)) == key
  {
    var prefix := projectUrl + PublicPath;
    var url := PublicUrl(projectUrl, key);
    assert url == prefix + key;
    assert url[..|prefix|] == prefix;
    assert url[|prefix|..] == key;
  }

  // ---------------------------------------------------------------------
  // GET /files
  // ---------------------------------------------------------------------

  /** A file whose folder belongs to the room. */
  predicate FileInRoom(fs: Folders, room: Id, x: StoredFile) {
    x.folderId in fs && fs[x.folderId].dataRoomId == room
  }

  /** The `where` of GET /files: folderId when given, else the room. */
  function ListFilter(fs: Folders, folderId: Option<string>, dataRoomId: Option<string>): Row<StoredFile> -> bool {
    if Truthy(folderId) then InFolder(folderId.value)
    else (r: Row<StoredFile>) => dataRoomId.Some? && FileInRoom(fs, dataRoomId.value, r.val)
  }

  /** `page` defaults to 1 and `limit` to 20. */
  function PageOrDefault(page: Option<int>): int {
    if page.Some? then page.value else 1
  }

  function LimitOrDefault(limit: Option<int>): int {
    if limit.Some? then limit.value else 20
  }

  /** The page of an ordered result, its size and `Math.ceil(total / limit)`. */
  method Paginate<T>(all: seq<T>, skip: nat, limit: int) returns (rows: seq<T>, total: nat, pages: Option<int>)
    ensures Window(all, skip, limit) == Some(rows) && total == |all|
    ensures pages == PageCount(total, limit)
  {
    rows := Window(all, skip, limit).value;
    total := |all|;
    pages := PageCount(total, limit);
  }

  /** The answer of GET /files, check by check: a folder or room is required
      (400), it must be the caller's (404), and the store refuses a negative
      skip (500). */
  function ListVerdict(rooms: Rooms, fs: Folders, user: Id, folderId: Option<string>, dataRoomId: Option<string>,
                       page: Option<int>, limit: Option<int>): Status {
    if !Truthy(folderId) && !Truthy(dataRoomId) then BadRequest
    else if Truthy(folderId) && !OwnsFolder(rooms, fs, user, folderId.value) then NotFound
    else if !Truthy(folderId) && !OwnsRoom(rooms, user, dataRoomId.value) then NotFound
    else if Skip(PageOrDefault(page), LimitOrDefault(limit)) < 0 then ServerError
    else Ok
  }

  /** GET /files?folderId|dataRoomId&page&limit: the requested window of the
      matching files by name, with the total and the page count. */
  method List(db: Db, user: Id, folderId: Option<string>, dataRoomId: Option<string>, page: Option<int>, limit: Option<int>)
    returns (status: Status, rows: seq<Row<StoredFile>>, total: nat, pages: Option<int>)
    ensures status == ListVerdict(db.rooms, db.folders, user, folderId, dataRoomId, page, limit)
    ensures !Truthy(folderId) && !Truthy(dataRoomId) ==> status == BadRequest
    ensures Truthy(folderId) && !OwnsFolder(db.rooms, db.folders, user, folderId.value) ==> status == NotFound
    ensures status == Ok ==>
      var l := LimitOrDefault(limit);
      && (exists all :: IsSelection(all, db.files, ListFilter(db.folders, folderId, dataRoomId))
           && Sorted(all, FileNameOrder) && Window(all, Skip(PageOrDefault(page), l), l) == Some(rows) && total == |all|)
      && pages == PageCount(total, l)
    ensures status != Ok ==> rows == []
  {
    rows, total, pages := [], 0, None;
    if !Truthy(folderId) && !Truthy(dataRoomId) {
      return BadRequest, rows, total, pages;
    }
    var p := PageOrDefault(page);
    var l := LimitOrDefault(limit);
    if Truthy(folderId) {
      if !OwnsFolder(db.rooms, db.folders, user, folderId.value) {
        return NotFound, rows, total, pages;
      }
    } else if !OwnsRoom(db.rooms, user, dataRoomId.value) {
      return NotFound, rows, total, pages;
    }
    var skip := Skip(p, l);
    if skip < 0 {
      return ServerError, rows, total, pages;
    }
    FileNameOrderTotal();
    var all := FindMany(db.files, ListFilter(db.folders, folderId, dataRoomId), FileNameOrder);
    rows, total, pages := Paginate(all, skip, l);
    status := Ok;
  }

  // ---------------------------------------------------------------------
  // GET /files/:id
  // ---------------------------------------------------------------------

  method Get(db: Db, user: Id, id: Id) returns (status: Status, file: Option<StoredFile>)
    ensures status == (if OwnsFile(db.rooms, db.folders, db.files, user, id) then Ok else NotFound)
    ensures file == (if status == Ok then Some(db.files[id]) else None)
  {
    if !OwnsFile(db.rooms, db.folders, db.files, user, id) {
      return NotFound, None;
    }
    return Ok, Some(db.files[id]);
  }

  // ---------------------------------------------------------------------
  // POST /files/upload
  // ---------------------------------------------------------------------

  /** The upload middleware and the validator chain: a PDF part within the
      size limit, a name of 1..255 characters after trimming, a UUID folder.
      Every failure here answers 400 before the store is consulted. */
  predicate UploadRequestValid(file: Option<Upload>, name: Option<string>, folderId: Option<string>) {
    && (file.Some? ==> file.value.mimeType == PdfMime && file.value.size <= MaxUploadBytes)
    && name.Some? && ValidLength(name.value, 1, 255)
    && folderId.Some? && IsUuid(folderId.value)
    && file.Some?
  }

  /** The answer of the checks before the storage write. */
  function UploadVerdict(rooms: Rooms, fs: Folders, files: Files, user: Id,
                         file: Option<Upload>, name: Option<string>, folderId: Option<string>): Status
  {
    if !UploadRequestValid(file, name, folderId) then BadRequest
    else if !OwnsFolder(rooms, fs, user, folderId.value) then NotFound
    else if FileNameTaken(files, Trim(name.value), folderId.value, None) then Conflict
    else Created
  }

  /** The metadata row: trimmed name, the part's type and size, the public
      URL, the folder's room and the caller. */
  function UploadedRow(fs: Folders, user: Id, file: Upload, name: string, folderId: Id, url: string, now: int): StoredFile
    requires folderId in fs
  {
    StoredFile(Trim(name), file.mimeType, file.size, url, folderId, Some(fs[folderId].dataRoomId), Some(user), now)
  }

  /** POST /files/upload. The stamp stands for the clock and random part of
      the object key; `storageUp` and `insertUp` say whether the storage
      write and the row insert succeed. */
  method UploadFile(db: Db, bucket: Bucket, user: Id,
                    file: Option<Upload>, name: Option<string>, folderId: Option<string>,
                    newId: Id, now: int, projectUrl: string, stamp: string, storageUp: bool, insertUp: bool)
    returns (status: Status)
    requires db.Valid() && newId !in db.files
    modifies db, bucket
    ensures db.Valid()
    ensures var v := UploadVerdict(old(db.rooms), old(db.folders), old(db.files), user, file, name, folderId);
      && (v != Created ==> status == v && bucket.objects == old(bucket.objects) && db.files == old(db.files))
      && (v == Created ==>
           var key := ObjectKey(stamp, file.value.originalName);
           var stored := storageUp && key !in old(bucket.objects);
           && bucket.objects == (if stored then old(bucket.objects) + {key} else old(bucket.objects))
           && status == (if stored && insertUp then Created else ServerError)
           && db.files == (if status == Created
                then old(db.files)[newId := UploadedRow(old(db.folders), user, file.value, name.value,
                                                        folderId.value, PublicUrl(projectUrl, key), now)]
                else old(db.files)))
    ensures status == Created ==> db.files[newId].dataRoomId == Some(db.folders[db.files[newId].folderId].dataRoomId)
    ensures db.rooms == old(db.rooms) && db.folders == old(db.folders)
    ensures old(Orderly(db.rooms, db.folders, db.files)) ==> Orderly(db.rooms, db.folders, db.files)
  {
    if !UploadRequestValid(file, name, folderId) {
      return BadRequest;
    }
    var folder := folderId.value;
    if !OwnsFolder(db.rooms, db.folders, user, folder) {
      return NotFound;
    }
    var fileName := Trim(name.value);
    if FileNameTaken(db.files, fileName, folder, None) {
      return Conflict;
    }
    var key := ObjectKey(stamp, file.value.originalName);
    var stored := bucket.Put(key, storageUp);
    if !stored {
      return ServerError;
    }
    if !insertUp {
      return ServerError;
    }
    var row := UploadedRow(db.folders, user, file.value, name.value, folder, PublicUrl(projectUrl, key), now);
    if Orderly(db.rooms, db.folders, db.files) {
      AddFileKeepsOrder(db.rooms, db.folders, db.files, newId, row);
    }
    var ok := db.CreateFile(newId, row);
    assert ok;
    status := Created;
  }

  // ---------------------------------------------------------------------
  // PUT /files/:id
  // ---------------------------------------------------------------------

  function RenameVerdict(rooms: Rooms, fs: Folders, files: Files, user: Id, id: Id, name: Option<string>): Status {
    if name.Some? && !ValidLength(name.value, 1, 255) then BadRequest
    else if !OwnsFile(rooms, fs, files, user, id) then NotFound
    else if name.Some? && Trim(name.value) != files[id].name
         && FileNameTaken(files, Trim(name.value), files[id].folderId, Some(id)) then Conflict
    else Ok
  }

  /** PUT /files/:id: on success only the name changes, and only when one is
      given. */
  method Update(db: Db, user: Id, id: Id, name: Option<string>) returns (status: Status)
    requires db.Valid()
    modifies db
    ensures db.Valid()
    ensures status == RenameVerdict(old(db.rooms), old(db.folders), old(db.files), user, id, name)
    ensures db.files == (if status == Ok && name.Some?
      then old(db.files)[id := old(db.files)[id].(name := Trim(name.value))]
      else old(db.files))
    ensures db.rooms == old(db.rooms) && db.folders == old(db.folders)
    ensures old(Orderly(db.rooms, db.folders, db.files)) ==> Orderly(db.rooms, db.folders, db.files)
  {
    if name.Some? && !ValidLength(name.value, 1, 255) {
      return BadRequest;
    }
    if !OwnsFile(db.rooms, db.folders, db.files, user, id) {
      return NotFound;
    }
    var existing := db.files[id];
    if name.Some? && Trim(name.value) != existing.name
       && FileNameTaken(db.files, Trim(name.value), existing.folderId, Some(id)) {
      return Conflict;
    }
    status := Ok;
    if name.None? {
      return;
    }
    var newName := Trim(name.value);
    if Orderly(db.rooms, db.folders, db.files) {
      RenameFileKeepsOrder(db.rooms, db.folders, db.files, id, newName);
    }
    db.RenameFile(id, newName);
  }

  // ---------------------------------------------------------------------
  // DELETE /files/:id
  // ---------------------------------------------------------------------

  /** Whether delete calls the storage removal for this stored path. */
  predicate RemovesObject(filePath: string) {
    filePath != "" && StorageKeyOf(filePath) != ""
  }

  /** DELETE /files/:id: storage first, then the row; when the storage call
      fails the row is kept and the answer is 500. */
  method Delete(db: Db, bucket: Bucket, user: Id, id: Id, storageUp: bool) returns (status: Status)
    requires db.Valid()
    modifies db, bucket
    ensures db.Valid()
    ensures !OwnsFile(old(db.rooms), old(db.folders), old(db.files), user, id) ==>
      status == NotFound && db.files == old(db.files) && bucket.objects == old(bucket.objects)
    ensures OwnsFile(old(db.rooms), old(db.folders), old(db.files), user, id) ==>
      var path := old(db.files)[id].path;
      && status == (if RemovesObject(path) && !storageUp then ServerError else Ok)
      && bucket.objects == (if RemovesObject(path) && storageUp
           then old(bucket.objects) - {StorageKeyOf(path)} else old(bucket.objects))
      && db.files == (if status == Ok then old(db.files) - {id} else old(db.files))
    ensures db.rooms == old(db.rooms) && db.folders == old(db.folders)
    ensures old(Orderly(db.rooms, db.folders, db.files)) ==> Orderly(db.rooms, db.folders, db.files)
  {
    if !OwnsFile(db.rooms, db.folders, db.files, user, id) {
      return NotFound;
    }
    var path := db.files[id].path;
    if path != "" {
      var key := StorageKeyOf(path);
      if key != "" {
        var ok := bucket.Remove(key, storageUp);
        if !ok {
          return ServerError;
        }
      }
    }
    ghost var before := (db.rooms, db.folders, db.files);
    db.DeleteFile(id);
    if Orderly(before.0, before.1, before.2) {
      RemovalKeepsOrder(before.0, before.1, before.2, db.rooms, db.folders, db.files);
    }
    status := Ok;
  }

  // ---------------------------------------------------------------------
  // GET /files/search
  // ---------------------------------------------------------------------

  /** The query string of a search. Dates and sizes are given already parsed;
      None is an absent (or empty) parameter. */
  datatype SearchQuery = SearchQuery(
    query: Option<string>, dataRoomId: Option<string>, folderId: Option<string>, fileType: Option<string>,
    dateFrom: Option<int>, dateTo: Option<int>, sizeMin: Option<int>, sizeMax: Option<int>,
    page: Option<int>, limit: Option<int>)

  /** The `where` of a search: the name contains the query ignoring case,
      the folder's room is the caller's, and each given filter holds
      (ranges inclusive). */
  predicate SearchHit(rooms: Rooms, fs: Folders, user: Id, q: SearchQuery, x: StoredFile)
    requires q.query.Some?
  {
    && ContainsIgnoringCase(x.name, q.query.value)
    && x.folderId in fs && OwnsRoom(rooms, user, fs[x.folderId].dataRoomId)
    && (Truthy(q.dataRoomId) ==> fs[x.folderId].dataRoomId == q.dataRoomId.value)
    && (Truthy(q.folderId) ==> x.folderId == q.folderId.value)
    && (Truthy(q.fileType) ==> x.mimeType == q.fileType.value)
    && (q.dateFrom.Some? ==> x.createdAt >= q.dateFrom.value)
    && (q.dateTo.Some? ==> x.createdAt <= q.dateTo.value)
    && (q.sizeMin.Some? ==> x.size >= q.sizeMin.value)
    && (q.sizeMax.Some? ==> x.size <= q.sizeMax.value)
  }

  function SearchFilter(rooms: Rooms, fs: Folders, user: Id, q: SearchQuery): Row<StoredFile> -> bool
    requires q.query.Some?
  {
    (r: Row<StoredFile>) => SearchHit(rooms, fs, user, q, r.val)
  }

  /** The search is insensitive to the case of the query. */
  lemma SearchIgnoresQueryCase(name: string, query: string)
    ensures ContainsIgnoringCase(name, query) == ContainsIgnoringCase(name, ToLower(query))
  {
    ToLowerIdempotent(query);
  }

  /** The answer of GET /files/search: a query is required (400), and the
      store refuses a negative skip (500). */
  function SearchVerdict(q: SearchQuery): Status {
    if !Truthy(q.query) then BadRequest
    else if Skip(PageOrDefault(q.page), LimitOrDefault(q.limit)) < 0 then ServerError
    else Ok
  }

  /** GET /files/search: the requested window of the matching files by name;
      every result is a file the caller owns. */
  method Search(db: Db, user: Id, q: SearchQuery)
    returns (status: Status, rows: seq<Row<StoredFile>>, total: nat, pages: Option<int>)
    ensures status == SearchVerdict(q)
    ensures !Truthy(q.query) ==> status == BadRequest
    ensures status == Ok ==>
      var l := LimitOrDefault(q.limit);
      && (exists all :: IsSelection(all, db.files, SearchFilter(db.rooms, db.folders, user, q))
           && Sorted(all, FileNameOrder) && Window(all, Skip(PageOrDefault(q.page), l), l) == Some(rows) && total == |all|)
      && pages == PageCount(total, l)
    ensures status == Ok ==> forall i :: 0 <= i < |rows| ==> OwnsFile(db.rooms, db.folders, db.files, user, rows[i].id)
    ensures status != Ok ==> rows == []
  {
    rows, total, pages := [], 0, None;
    if !Truthy(q.query) {
      return BadRequest, rows, total, pages;
    }
    var p := PageOrDefault(q.page);
    var l := LimitOrDefault(q.limit);
    var skip := Skip(p, l);
    if skip < 0 {
      return ServerError, rows, total, pages;
    }
    FileNameOrderTotal();
    var all := FindMany(db.files, SearchFilter(db.rooms, db.folders, user, q), FileNameOrder);
    rows, total, pages := Paginate(all, skip, l);
    forall i | 0 <= i < |rows| ensures OwnsFile(db.rooms, db.folders, db.files, user, rows[i].id) {
      assert rows[i] in all;
    }
    status := Ok;
  }

  // ---------------------------------------------------------------------
  // The route table
  // ---------------------------------------------------------------------

  /** The handlers of the file router. */
  datatype Endpoint =
    | ListFiles | GetFile(id: string) | UploadEndpoint | UpdateFile(id: string) | DeleteFile(id: string)
    | SearchFiles | NoRoute

  /** The router tries its routes in the order they are registered, and `:id`
      matches any single path segment. `path` lists the segments after the
      mount point. */
  function Dispatch(verb: HttpMethod, path: seq<string>): Endpoint {
    if verb == GET && path == [] then ListFiles
    else if verb == GET && |path| == 1 then GetFile(path[0])
    else if verb == POST && path == ["upload"] then UploadEndpoint
    else if verb == PUT && |path| == 1 then UpdateFile(path[0])
    else if verb == DELETE && |path| == 1 then DeleteFile(path[0])
    else if verb == GET && path == ["search"] then SearchFiles
    else NoRoute
  }

  /** The search route is registered after `GET /:id`, which takes every
      one-segment GET first: `GET /search` is served as a lookup of the file
      with id "search", and no request reaches the search handler. */
  lemma SearchIsShadowed(verb: HttpMethod, path: seq<string>)
    ensures Dispatch(GET, ["search"]) == GetFile("search")
    ensures Dispatch(verb, path) != SearchFiles
  {
  }

  /** The table with the search route registered before `GET /:id`. */
  function DispatchSearchFirst(verb: HttpMethod, path: seq<string>): Endpoint {
    if verb == GET && path == ["search"] then SearchFiles
    else Dispatch(verb, path)
  }

  /** With search registered first, `GET /search` reaches the search handler
      and every other request goes where it went before. */
  lemma SearchFirstReachesSearch(verb: HttpMethod, path: seq<string>)
    ensures DispatchSearchFirst(verb, path) == SearchFiles <==> verb == GET && path == ["search"]
    ensures !(verb == GET && path == ["search"]) ==> DispatchSearchFirst(verb, path) == Dispatch(verb, path)
  {
    SearchIsShadowed(verb, path);
  }
}
