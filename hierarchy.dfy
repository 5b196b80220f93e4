/** The three linked tables of the data-room store (data rooms, folders,
    files) as maps keyed by id, the integrity the store keeps (foreign keys,
    an acyclic parent relation), the ownership gate every handler applies,
    the breadcrumb walk over parent links, and the cascading delete the
    schema performs when a folder or a data room is removed. */
module Hierarchy {
  import opened Common
  import opened Text

  datatype DataRoom = DataRoom(name: string, ownerId: Id, createdAt: int, updatedAt: int)

  /** parentId == None: a root folder of its data room. */
  datatype Folder = Folder(name: string, dataRoomId: Id, parentId: Option<Id>, userId: Id, createdAt: int)

  /** A file's metadata row. `path` is the storage reference (a public URL in
      the Express backend, the empty placeholder in the Vercel one);
      `dataRoomId` and `userId` are absent on rows the Vercel handler creates. */
  datatype StoredFile = StoredFile(
    name: string, mimeType: string, size: int, path: string,
    folderId: Id, dataRoomId: Option<Id>, userId: Option<Id>, createdAt: int)

  /** A row returned by a query: its id with its stored value. */
  datatype Row<T> = Row(id: Id, val: T)

  type Rooms = map<Id, DataRoom>
  type Folders = map<Id, Folder>
  type Files = map<Id, StoredFile>

  // ---------------------------------------------------------------------
  // Store integrity
  // ---------------------------------------------------------------------

  /** Foreign key Folder.dataRoomId. */
  ghost predicate RoomsExist(rooms: Rooms, fs: Folders) {
    forall id :: id in fs ==> fs[id].dataRoomId in rooms
  }

  /** Foreign key Folder.parentId. */
  ghost predicate ParentsExist(fs: Folders) {
    forall id :: id in fs && fs[id].parentId.Some? ==> fs[id].parentId.value in fs
  }

  /** Foreign keys File.folderId and File.dataRoomId. */
  ghost predicate FilesAnchored(rooms: Rooms, fs: Folders, files: Files) {
    forall x :: x in files ==>
      files[x].folderId in fs && (files[x].dataRoomId.Some? ==> files[x].dataRoomId.value in rooms)
  }

  /** rank strictly decreases from a folder to its parent. */
  ghost predicate RankedBy(fs: Folders, rank: map<Id, nat>) {
    (forall id :: id in fs ==> id in rank) &&
    (forall id :: id in fs && fs[id].parentId.Some? && fs[id].parentId.value in fs ==>
      rank[fs[id].parentId.value] < rank[id])
  }

  /** The parent relation has no cycle: some ranking decreases along it. */
  ghost predicate Acyclic(fs: Folders) {
    exists rank :: RankedBy(fs, rank)
  }

  ghost function RankOf(fs: Folders): (rank: map<Id, nat>)
    requires Acyclic(fs)
    ensures RankedBy(fs, rank)
  {
    var rank :| RankedBy(fs, rank); rank
  }

  /** What every store state satisfies: the foreign keys hold and no folder
      is its own ancestor. */
  ghost predicate Consistent(rooms: Rooms, fs: Folders, files: Files) {
    RoomsExist(rooms, fs) && ParentsExist(fs) && Acyclic(fs) && FilesAnchored(rooms, fs, files)
  }

  /** A nested folder lives in its parent's data room. */
  ghost predicate SameRoomNesting(fs: Folders) {
    forall id :: id in fs && fs[id].parentId.Some? && fs[id].parentId.value in fs ==>
      fs[fs[id].parentId.value].dataRoomId == fs[id].dataRoomId
  }

  /** No two folders share (name, parentId, dataRoomId). */
  ghost predicate SiblingNamesUnique(fs: Folders) {
    forall a, b :: a in fs && b in fs && a != b ==>
      !(fs[a].name == fs[b].name && fs[a].parentId == fs[b].parentId && fs[a].dataRoomId == fs[b].dataRoomId)
  }

  /** No two files share (name, folderId). */
  ghost predicate FileNamesUnique(files: Files) {
    forall a, b :: a in files && b in files && a != b ==>
      !(files[a].name == files[b].name && files[a].folderId == files[b].folderId)
  }

  /** No owner has two data rooms of the same name. */
  ghost predicate RoomNamesUnique(rooms: Rooms) {
    forall a, b :: a in rooms && b in rooms && a != b ==>
      !(rooms[a].name == rooms[b].name && rooms[a].ownerId == rooms[b].ownerId)
  }

  /** A file recorded against a room is recorded against its folder's room. */
  ghost predicate FileRoomsMatch(fs: Folders, files: Files) {
    forall x :: x in files && files[x].dataRoomId.Some? && files[x].folderId in fs ==>
      files[x].dataRoomId.value == fs[files[x].folderId].dataRoomId
  }

  /** What the checks of the Express handlers maintain on top of the foreign
      keys: nesting stays within a room, names are unique where the handlers
      answer 409, and a file's room is its folder's room. */
  ghost predicate Orderly(rooms: Rooms, fs: Folders, files: Files) {
    SameRoomNesting(fs) && SiblingNamesUnique(fs) && FileNamesUnique(files)
    && RoomNamesUnique(rooms) && FileRoomsMatch(fs, files)
  }

  // ---------------------------------------------------------------------
  // Lookups the handlers run before they write
  // ---------------------------------------------------------------------

  /** `findFirst({ where: { id, ownerId } })` on data rooms. */
  predicate OwnsRoom(rooms: Rooms, user: Id, r: Id) {
    r in rooms && rooms[r].ownerId == user
  }

  /** `findFirst({ where: { id, dataRoom: { ownerId } } })` on folders: the
      folder's own dataRoomId names a room the user owns. No parent is
      consulted. */
  predicate OwnsFolder(rooms: Rooms, fs: Folders, user: Id, f: Id) {
    f in fs && OwnsRoom(rooms, user, fs[f].dataRoomId)
  }

  /** `findFirst({ where: { id, folder: { dataRoom: { ownerId } } } })` on files. */
  predicate OwnsFile(rooms: Rooms, fs: Folders, files: Files, user: Id, x: Id) {
    x in files && OwnsFolder(rooms, fs, user, files[x].folderId)
  }

  /** A folder other than `except` with this name under this parent in this room. */
  predicate FolderNameTaken(fs: Folders, name: string, parent: Option<Id>, room: Id, except: Option<Id>) {
    exists id :: id in fs && Some(id) != except &&
      fs[id].name == name && fs[id].parentId == parent && fs[id].dataRoomId == room
  }

  /** A file other than `except` with this name in this folder. */
  predicate FileNameTaken(files: Files, name: string, folder: Id, except: Option<Id>) {
    exists x :: x in files && Some(x) != except && files[x].name == name && files[x].folderId == folder
  }

  /** A room other than `except` of this owner with this name. */
  predicate RoomNameTaken(rooms: Rooms, name: string, owner: Id, except: Option<Id>) {
    exists r :: r in rooms && Some(r) != except && rooms[r].name == name && rooms[r].ownerId == owner
  }

  // ---------------------------------------------------------------------
  // Ancestors and the breadcrumb
  // ---------------------------------------------------------------------

  /** The folder n parent links above id, if every link on the way exists. */
  function AncestorN(fs: Folders, id: Id, n: nat): (a: Option<Id>)
    ensures a.Some? ==> a.value in fs
    decreases n
  {
    if id !in fs then None
    else if n == 0 then Some(id)
    else match fs[id].parentId
      case None => None
      case Some(p) => AncestorN(fs, p, n - 1)
  }

  /** Going up n links lowers the rank by at least n. */
  lemma {:induction false} AncestorRank(fs: Folders, id: Id, n: nat)
    requires Acyclic(fs) && AncestorN(fs, id, n).Some?
    ensures id in fs && RankOf(fs)[AncestorN(fs, id, n).value] + n <= RankOf(fs)[id]
    decreases n
  {
    if n > 0 {
      var p := fs[id].parentId.value;
      AncestorRank(fs, p, n - 1);
    }
  }

  /** No folder is its own ancestor. */
  lemma NoFolderIsOwnAncestor(fs: Folders, id: Id, n: nat)
    requires Acyclic(fs) && n >= 1
    ensures AncestorN(fs, id, n) != Some(id)
  {
    if AncestorN(fs, id, n).Some? {
      AncestorRank(fs, id, n);
    }
  }

  datatype Crumb = Crumb(id: Id, name: string, parentId: Option<Id>)

  function CrumbOf(fs: Folders, id: Id): Crumb
    requires id in fs
  {
    Crumb(id, fs[id].name, fs[id].parentId)
  }

  /** buildBreadcrumb: the folder's ancestors, root first, ending with the
      folder itself; an unknown id gives the empty path. The walk stops at a
      folder whose parent is null or is not in the store. */
  function Breadcrumb(fs: Folders, id: Id): (crumbs: seq<Crumb>)
    requires Acyclic(fs)
    ensures id !in fs <==> crumbs == []
    ensures id in fs ==> crumbs[|crumbs| - 1] == CrumbOf(fs, id)
    ensures forall i :: 0 <= i < |crumbs| ==> crumbs[i].id in fs && crumbs[i] == CrumbOf(fs, crumbs[i].id)
    ensures forall i :: 0 < i < |crumbs| ==> crumbs[i].parentId == Some(crumbs[i - 1].id)
    ensures crumbs != [] ==> crumbs[0].parentId.None? || crumbs[0].parentId.value !in fs
    decreases if id in fs then RankOf(fs)[id] + 1 else 0
  {
    if id !in fs then []
    else
      var above := match fs[id].parentId
        case None => []
        case Some(p) => Breadcrumb(fs, p);
      above + [CrumbOf(fs, id)]
  }

  /** Element |crumbs| - 1 - k of the breadcrumb is the k-th ancestor. */
  lemma {:induction false} BreadcrumbIsAncestorChain(fs: Folders, id: Id, k: nat)
    requires Acyclic(fs)
    requires k < |Breadcrumb(fs, id)|
    ensures AncestorN(fs, id, k) == Some(Breadcrumb(fs, id)[|Breadcrumb(fs, id)| - 1 - k].id)
    decreases k
  {
    var crumbs := Breadcrumb(fs, id);
    if k > 0 {
      assert id in fs;
      var p := fs[id].parentId.value;
      var above := Breadcrumb(fs, p);
      assert crumbs == above + [CrumbOf(fs, id)];
      assert crumbs[|crumbs| - 1 - k] == above[|above| - 1 - (k - 1)];
      BreadcrumbIsAncestorChain(fs, p, k - 1);
    }
  }

  /** With every parent present, the path starts at a root folder and visits
      no folder twice. */
  lemma BreadcrumbFromRoot(fs: Folders, id: Id)
    requires Acyclic(fs) && ParentsExist(fs) && id in fs
    ensures Breadcrumb(fs, id)[0].parentId.None?
    ensures forall i, j :: 0 <= i < j < |Breadcrumb(fs, id)| ==>
      Breadcrumb(fs, id)[i].id != Breadcrumb(fs, id)[j].id
  {
    var crumbs := Breadcrumb(fs, id);
    var first := crumbs[0];
    assert first.id in fs && first == CrumbOf(fs, first.id);
    forall i, j | 0 <= i < j < |crumbs| ensures crumbs[i].id != crumbs[j].id {
      CrumbsDistinct(fs, id, i, j);
    }
  }

  /** Two positions of the breadcrumb hold different folders. */
  lemma CrumbsDistinct(fs: Folders, id: Id, i: nat, j: nat)
    requires Acyclic(fs) && i < j < |Breadcrumb(fs, id)|
    ensures Breadcrumb(fs, id)[i].id != Breadcrumb(fs, id)[j].id
  {
    var crumbs := Breadcrumb(fs, id);
    var n := |crumbs|;
    BreadcrumbIsAncestorChain(fs, id, n - 1 - j);
    BreadcrumbIsAncestorChain(fs, id, n - 1 - i);
    AncestorCompose(fs, id, n - 1 - j, j - i);
    NoFolderIsOwnAncestor(fs, crumbs[j].id, j - i);
  }

  /** Going up m links and then k more is going up m + k links. */
  lemma {:induction false} AncestorCompose(fs: Folders, id: Id, m: nat, k: nat)
    requires AncestorN(fs, id, m).Some?
    ensures AncestorN(fs, AncestorN(fs, id, m).value, k) == AncestorN(fs, id, m + k)
    decreases m
  {
    if m > 0 {
      AncestorCompose(fs, fs[id].parentId.value, m - 1, k);
    }
  }

  /** When nested folders share their parent's room, every folder on the path
      is in the requested folder's room, hence belongs to the same owner. */
  lemma {:induction false} BreadcrumbStaysInRoom(fs: Folders, id: Id)
    requires Acyclic(fs) && SameRoomNesting(fs) && id in fs
    ensures forall c :: c in Breadcrumb(fs, id) ==> fs[c.id].dataRoomId == fs[id].dataRoomId
    decreases RankOf(fs)[id]
  {
    match fs[id].parentId
    case None =>
    case Some(p) =>
      if p in fs {
        BreadcrumbStaysInRoom(fs, p);
      }
  }

  /** With same-room nesting the direct ownership check equals the chain
      walk: a folder is owned exactly when its k-th ancestor is. */
  lemma {:induction false} OwnershipFollowsChain(rooms: Rooms, fs: Folders, user: Id, id: Id, k: nat)
    requires SameRoomNesting(fs) && AncestorN(fs, id, k).Some?
    ensures OwnsFolder(rooms, fs, user, id) <==> OwnsFolder(rooms, fs, user, AncestorN(fs, id, k).value)
    ensures fs[AncestorN(fs, id, k).value].dataRoomId == fs[id].dataRoomId
    decreases k
  {
    if k > 0 {
      OwnershipFollowsChain(rooms, fs, user, fs[id].parentId.value, k - 1);
    }
  }

  // ---------------------------------------------------------------------
  // Writes and the integrity they keep
  // ---------------------------------------------------------------------

  /** Adding a folder under an existing parent (or at the root) keeps the
      store acyclic and its parent links resolvable. */
  lemma AddFolderKeepsTree(fs: Folders, id: Id, f: Folder)
    requires Acyclic(fs) && ParentsExist(fs) && id !in fs
    requires f.parentId.Some? ==> f.parentId.value in fs
    ensures Acyclic(fs[id := f]) && ParentsExist(fs[id := f])
  {
    var rank := RankOf(fs);
    var fs' := fs[id := f];
    var rank' := rank[id := if f.parentId.Some? then rank[f.parentId.value] + 1 else 0];
    forall x | x in fs' && fs'[x].parentId.Some? && fs'[x].parentId.value in fs'
      ensures rank'[fs'[x].parentId.value] < rank'[x]
    {
      if x != id {
        assert fs'[x].parentId.value != id;
      }
    }
    assert RankedBy(fs', rank');
  }

  /** Changing a folder without changing its parent keeps the store acyclic. */
  lemma UpdateFolderKeepsTree(fs: Folders, id: Id, f: Folder)
    requires Acyclic(fs) && id in fs && f.parentId == fs[id].parentId
    ensures Acyclic(fs[id := f])
  {
    var rank := RankOf(fs);
    assert RankedBy(fs[id := f], rank);
  }

  /** Removing folders keeps the store acyclic. */
  lemma RemoveFoldersKeepsAcyclic(fs: Folders, gone: set<Id>)
    requires Acyclic(fs)
    ensures Acyclic(fs - gone)
  {
    var rank := RankOf(fs);
    assert RankedBy(fs - gone, rank);
  }

  /** The folder id is one of roots or lies below one of them. */
  function InSubtree(fs: Folders, id: Id, roots: set<Id>): bool
    requires Acyclic(fs)
    decreases if id in fs then RankOf(fs)[id] + 1 else 0
  {
    id in fs &&
    (id in roots || (fs[id].parentId.Some? && InSubtree(fs, fs[id].parentId.value, roots)))
  }

  /** Everything a cascading delete of the folders in roots removes. */
  function Subtree(fs: Folders, roots: set<Id>): (s: set<Id>)
    requires Acyclic(fs)
    ensures s <= fs.Keys
    ensures forall id :: id in roots && id in fs ==> id in s
  {
    set id | id in fs.Keys && InSubtree(fs, id, roots)
  }

  /** A descendant of a removed folder is removed. */
  lemma {:induction false} DescendantInSubtree(fs: Folders, d: Id, n: nat, roots: set<Id>)
    requires Acyclic(fs) && AncestorN(fs, d, n).Some? && AncestorN(fs, d, n).value in roots
    ensures d in Subtree(fs, roots)
    decreases n
  {
    if n > 0 {
      DescendantInSubtree(fs, fs[d].parentId.value, n - 1, roots);
    }
  }

  /** Only descendants of removed folders are removed. */
  lemma {:induction false} SubtreeOnlyDescendants(fs: Folders, d: Id, roots: set<Id>)
    requires Acyclic(fs) && d in Subtree(fs, roots)
    ensures exists n: nat :: AncestorN(fs, d, n).Some? && AncestorN(fs, d, n).value in roots
    decreases RankOf(fs)[d]
  {
    if d in roots {
      assert AncestorN(fs, d, 0) == Some(d);
    } else {
      var p := fs[d].parentId.value;
      assert InSubtree(fs, p, roots);
      SubtreeOnlyDescendants(fs, p, roots);
      var n: nat :| AncestorN(fs, p, n).Some? && AncestorN(fs, p, n).value in roots;
      assert AncestorN(fs, d, n + 1) == AncestorN(fs, p, n);
    }
  }

  /** The parent of a surviving folder survives. */
  lemma SurvivorsKeepParents(fs: Folders, roots: set<Id>)
    requires Acyclic(fs) && ParentsExist(fs)
    ensures ParentsExist(fs - Subtree(fs, roots))
  {
    var gone := Subtree(fs, roots);
    forall id | id in fs - gone && (fs - gone)[id].parentId.Some?
      ensures (fs - gone)[id].parentId.value in fs - gone
    {
      var p := fs[id].parentId.value;
      assert !InSubtree(fs, id, roots);
      assert !InSubtree(fs, p, roots);
    }
  }

  /** Files whose folder survives the removal of `gone`. */
  function FilesOutside(files: Files, gone: set<Id>): (kept: Files)
    ensures forall x :: x in kept <==> x in files && files[x].folderId !in gone
    ensures forall x :: x in kept ==> kept[x] == files[x]
  {
    map x | x in files && files[x].folderId !in gone :: files[x]
  }

  /** Deleting a folder with the schema's cascade: the folder, every folder
      below it and every file in any of them go; nothing else changes. */
  function DeleteFolderCascade(fs: Folders, files: Files, id: Id): (r: (Folders, Files))
    requires Acyclic(fs)
  {
    var gone := Subtree(fs, {id});
    (fs - gone, FilesOutside(files, gone))
  }

  lemma DeleteFolderCascadeConsistent(rooms: Rooms, fs: Folders, files: Files, id: Id)
    requires Consistent(rooms, fs, files)
    ensures var (fs', files') := DeleteFolderCascade(fs, files, id);
      Consistent(rooms, fs', files') && id !in fs'
  {
    var gone := Subtree(fs, {id});
    SurvivorsKeepParents(fs, {id});
    RemoveFoldersKeepsAcyclic(fs, gone);
  }

  /** The folders of room r. */
  function RoomFolders(fs: Folders, r: Id): set<Id> {
    set id | id in fs.Keys && fs[id].dataRoomId == r
  }

  /** Deleting a data room with the schema's cascade: the room, its folders,
      every folder below them, and every file in a removed folder or
      recorded against the room go. */
  function DeleteRoomCascade(rooms: Rooms, fs: Folders, files: Files, r: Id): (s: (Rooms, Folders, Files))
    requires Acyclic(fs)
  {
    var gone := Subtree(fs, RoomFolders(fs, r));
    var kept := map x | x in files && files[x].folderId !in gone && files[x].dataRoomId != Some(r) :: files[x];
    (rooms - {r}, fs - gone, kept)
  }

  lemma DeleteRoomCascadeConsistent(rooms: Rooms, fs: Folders, files: Files, r: Id)
    requires Consistent(rooms, fs, files)
    ensures var (rooms', fs', files') := DeleteRoomCascade(rooms, fs, files, r);
      Consistent(rooms', fs', files') && r !in rooms'
      && (forall id :: id in fs' ==> fs'[id].dataRoomId != r)
      && (forall x :: x in files' ==> files'[x].dataRoomId != Some(r))
  {
    var roots := RoomFolders(fs, r);
    var gone := Subtree(fs, roots);
    SurvivorsKeepParents(fs, roots);
    RemoveFoldersKeepsAcyclic(fs, gone);
    forall id | id in fs - gone ensures fs[id].dataRoomId != r {
      assert !InSubtree(fs, id, roots);
    }
  }

  // ---------------------------------------------------------------------
  // Writes that keep the store orderly
  // ---------------------------------------------------------------------

  /** A new folder whose parent lies in its room and whose name is free under
      that parent keeps the store orderly. */
  lemma AddFolderKeepsOrder(rooms: Rooms, fs: Folders, files: Files, id: Id, f: Folder)
    requires Consistent(rooms, fs, files) && Orderly(rooms, fs, files) && id !in fs
    requires f.parentId.Some? ==> f.parentId.value in fs && fs[f.parentId.value].dataRoomId == f.dataRoomId
    requires !FolderNameTaken(fs, f.name, f.parentId, f.dataRoomId, None)
    ensures Orderly(rooms, fs[id := f], files)
  {
    var fs' := fs[id := f];
    forall a | a in fs' && fs'[a].parentId.Some? && fs'[a].parentId.value in fs'
      ensures fs'[fs'[a].parentId.value].dataRoomId == fs'[a].dataRoomId
    {
      if a != id {
        assert fs'[a].parentId.value != id;
      }
    }
    forall a, b | a in fs' && b in fs' && a != b
      ensures !(fs'[a].name == fs'[b].name && fs'[a].parentId == fs'[b].parentId && fs'[a].dataRoomId == fs'[b].dataRoomId)
    {
      if a == id {
        assert !(Some(b) != None && fs[b].name == f.name && fs[b].parentId == f.parentId && fs[b].dataRoomId == f.dataRoomId);
      } else if b == id {
        assert !(Some(a) != None && fs[a].name == f.name && fs[a].parentId == f.parentId && fs[a].dataRoomId == f.dataRoomId);
      }
    }
  }

  /** Renaming a folder keeps the store orderly when the name is unchanged or
      free among its siblings. */
  lemma RenameFolderKeepsOrder(rooms: Rooms, fs: Folders, files: Files, id: Id, name: string)
    requires Orderly(rooms, fs, files) && id in fs
    requires name == fs[id].name || !FolderNameTaken(fs, name, fs[id].parentId, fs[id].dataRoomId, Some(id))
    ensures Orderly(rooms, fs[id := fs[id].(name := name)], files)
  {
    var fs' := fs[id := fs[id].(name := name)];
    forall a, b | a in fs' && b in fs' && a != b
      ensures !(fs'[a].name == fs'[b].name && fs'[a].parentId == fs'[b].parentId && fs'[a].dataRoomId == fs'[b].dataRoomId)
    {
      if a == id && name != fs[id].name {
        assert !(b in fs && Some(b) != Some(id) && fs[b].name == name && fs[b].parentId == fs[id].parentId && fs[b].dataRoomId == fs[id].dataRoomId);
      } else if b == id && name != fs[id].name {
        assert !(a in fs && Some(a) != Some(id) && fs[a].name == name && fs[a].parentId == fs[id].parentId && fs[a].dataRoomId == fs[id].dataRoomId);
      }
    }
  }

  /** m' keeps some of the entries of m, unchanged. */
  ghost predicate SubMap<K, V>(m': map<K, V>, m: map<K, V>) {
    forall k :: k in m' ==> k in m && m'[k] == m[k]
  }

  /** Removing rows (a cascade, a plain delete) keeps the store orderly. */
  lemma RemovalKeepsOrder(rooms: Rooms, fs: Folders, files: Files, rooms': Rooms, fs': Folders, files': Files)
    requires Orderly(rooms, fs, files)
    requires SubMap(rooms', rooms) && SubMap(fs', fs) && SubMap(files', files)
    ensures Orderly(rooms', fs', files')
  {
  }

  /** A new file whose name is free in its folder, and whose room (if any) is
      its folder's room, keeps the store orderly. */
  lemma AddFileKeepsOrder(rooms: Rooms, fs: Folders, files: Files, id: Id, x: StoredFile)
    requires Orderly(rooms, fs, files) && id !in files
    requires !FileNameTaken(files, x.name, x.folderId, None)
    requires x.dataRoomId.Some? && x.folderId in fs ==> x.dataRoomId.value == fs[x.folderId].dataRoomId
    ensures Orderly(rooms, fs, files[id := x])
  {
    var files' := files[id := x];
    forall a, b | a in files' && b in files' && a != b
      ensures !(files'[a].name == files'[b].name && files'[a].folderId == files'[b].folderId)
    {
      if a == id {
        assert !(Some(b) != None && files[b].name == x.name && files[b].folderId == x.folderId);
      } else if b == id {
        assert !(Some(a) != None && files[a].name == x.name && files[a].folderId == x.folderId);
      }
    }
  }

  /** Renaming a file keeps the store orderly when the name is unchanged or
      free in its folder. */
  lemma RenameFileKeepsOrder(rooms: Rooms, fs: Folders, files: Files, id: Id, name: string)
    requires Orderly(rooms, fs, files) && id in files
    requires name == files[id].name || !FileNameTaken(files, name, files[id].folderId, Some(id))
    ensures Orderly(rooms, fs, files[id := files[id].(name := name)])
  {
    var files' := files[id := files[id].(name := name)];
    forall a, b | a in files' && b in files' && a != b
      ensures !(files'[a].name == files'[b].name && files'[a].folderId == files'[b].folderId)
    {
      if a == id && name != files[id].name {
        assert !(b in files && Some(b) != Some(id) && files[b].name == name && files[b].folderId == files[id].folderId);
      } else if b == id && name != files[id].name {
        assert !(a in files && Some(a) != Some(id) && files[a].name == name && files[a].folderId == files[id].folderId);
      }
    }
  }

  /** Storing a room under a name its owner does not use elsewhere keeps the
      store orderly; this covers both creating and renaming a room. */
  lemma PutRoomKeepsOrder(rooms: Rooms, fs: Folders, files: Files, id: Id, r: DataRoom)
    requires Orderly(rooms, fs, files)
    requires !RoomNameTaken(rooms, r.name, r.ownerId, Some(id))
    ensures Orderly(rooms[id := r], fs, files)
  {
    var rooms' := rooms[id := r];
    forall a, b | a in rooms' && b in rooms' && a != b
      ensures !(rooms'[a].name == rooms'[b].name && rooms'[a].ownerId == rooms'[b].ownerId)
    {
      if a == id {
        assert !(b in rooms && Some(b) != Some(id) && rooms[b].name == r.name && rooms[b].ownerId == r.ownerId);
      } else if b == id {
        assert !(a in rooms && Some(a) != Some(id) && rooms[a].name == r.name && rooms[a].ownerId == r.ownerId);
      }
    }
  }

  /** Under same-room nesting a caller who may open a folder owns every
      folder on its breadcrumb: the path reveals nothing of other owners. */
  lemma BreadcrumbOwnedByCaller(rooms: Rooms, fs: Folders, user: Id, id: Id)
    requires Acyclic(fs) && SameRoomNesting(fs) && OwnsFolder(rooms, fs, user, id)
    ensures forall c :: c in Breadcrumb(fs, id) ==> OwnsFolder(rooms, fs, user, c.id)
  {
    BreadcrumbStaysInRoom(fs, id);
  }
}
