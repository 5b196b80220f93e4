/** The `where` filters and `orderBy` clauses the handlers pass to the store,
    each as a named predicate on rows, and the proof that every ordering is a
    total preorder (so that sorting by it is well defined). */
module Queries {
  import opened Common
  import opened Text
  import opened Seqs
  import opened Hierarchy

  // Filters

  /** `{ parentId: id }` */
  function ChildOf(parent: Id): Row<Folder> -> bool {
    (r: Row<Folder>) => r.val.parentId == Some(parent)
  }

  /** `{ dataRoomId: room, parentId: null }` */
  function RootOf(room: Id): Row<Folder> -> bool {
    (r: Row<Folder>) => r.val.dataRoomId == room && r.val.parentId.None?
  }

  /** `{ dataRoomId: room }` */
  function FolderOfRoom(room: Id): Row<Folder> -> bool {
    (r: Row<Folder>) => r.val.dataRoomId == room
  }

  /** `{ folderId: folder }` */
  function InFolder(folder: Id): Row<StoredFile> -> bool {
    (r: Row<StoredFile>) => r.val.folderId == folder
  }

  /** `{ ownerId: user }` */
  function OwnedBy(user: Id): Row<DataRoom> -> bool {
    (r: Row<DataRoom>) => r.val.ownerId == user
  }

  // Orderings

  /** `orderBy: { name: 'asc' }` on folders. */
  predicate FolderNameOrder(a: Row<Folder>, b: Row<Folder>) {
    LexLe(a.val.name, b.val.name)
  }

  /** `orderBy: { name: 'asc' }` on files. */
  predicate FileNameOrder(a: Row<StoredFile>, b: Row<StoredFile>) {
    LexLe(a.val.name, b.val.name)
  }

  /** `orderBy: { createdAt: 'desc' }` on folders. */
  predicate FolderNewestFirst(a: Row<Folder>, b: Row<Folder>) {
    a.val.createdAt >= b.val.createdAt
  }

  /** `orderBy: { createdAt: 'desc' }` on files. */
  predicate FileNewestFirst(a: Row<StoredFile>, b: Row<StoredFile>) {
    a.val.createdAt >= b.val.createdAt
  }

  /** `orderBy: { createdAt: 'desc' }` on data rooms. */
  predicate RoomNewestFirst(a: Row<DataRoom>, b: Row<DataRoom>) {
    a.val.createdAt >= b.val.createdAt
  }

  /** `orderBy: { updatedAt: 'desc' }` on data rooms. */
  predicate RoomRecentlyUpdatedFirst(a: Row<DataRoom>, b: Row<DataRoom>) {
    a.val.updatedAt >= b.val.updatedAt
  }

  lemma FolderNameOrderTotal()
    ensures TotalPreorder(FolderNameOrder)
  {
    forall a: Row<Folder>, b: Row<Folder> ensures FolderNameOrder(a, b) || FolderNameOrder(b, a) {
      LexLeTotal(a.val.name, b.val.name);
    }
    forall a: Row<Folder>, b: Row<Folder>, c: Row<Folder> | FolderNameOrder(a, b) && FolderNameOrder(b, c)
      ensures FolderNameOrder(a, c)
    {
      LexLeTransitive(a.val.name, b.val.name, c.val.name);
    }
  }

  lemma FileNameOrderTotal()
    ensures TotalPreorder(FileNameOrder)
  {
    forall a: Row<StoredFile>, b: Row<StoredFile> ensures FileNameOrder(a, b) || FileNameOrder(b, a) {
      LexLeTotal(a.val.name, b.val.name);
    }
    forall a: Row<StoredFile>, b: Row<StoredFile>, c: Row<StoredFile> | FileNameOrder(a, b) && FileNameOrder(b, c)
      ensures FileNameOrder(a, c)
    {
      LexLeTransitive(a.val.name, b.val.name, c.val.name);
    }
  }

  lemma TimeOrdersTotal()
    ensures TotalPreorder(FolderNewestFirst) && TotalPreorder(FileNewestFirst)
    ensures TotalPreorder(RoomNewestFirst) && TotalPreorder(RoomRecentlyUpdatedFirst)
  {
  }
}
