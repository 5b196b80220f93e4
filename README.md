# Data room: folder and file hierarchy

A model in Dafny of the core of a virtual data room, covering its three parts.

**Express API.** An owner keeps data rooms. Each room holds a tree of folders, and folders hold PDF files. Every route checks ownership through the chain file → folder → room → owner.

**Serverless API.** These handlers expose the same tables through one function per resource. They branch on the HTTP method and the `id`/`action` query parameters.

**Web client page.** It keeps folders and files in browser storage. It counts each folder's files and sub-folders, lists the contents of the open folder, searches, and draws a sidebar tree.

The model is split into these modules:

- `Common`, `Text`, `Seqs`, `Paging` and `Queries` hold shared building blocks:
  - the option and status types;
  - the validators' trimming and UUID test;
  - case-insensitive substring search;
  - the `orderBy` orders and the proof that each is a total preorder;
  - sorting by insertion, proved sorted and a permutation;
  - `skip`/`take` paging and `Math.ceil(total / limit)`.
- `Hierarchy` holds the three tables as maps keyed by id, in two layers:
  - What every store state satisfies (`Consistent`): the foreign keys hold, and a rank map proves the parent relation acyclic.
  - What the Express checks keep on top of that (`Orderly`): a nested folder lies in its parent's room, sibling folder names are unique, file names are unique per folder, room names are unique per owner, and a file's room matches its folder's room.
  - The breadcrumb walk, the cascade deletes of a folder and of a room, and the lemmas that each store change keeps both layers.
- `Store` holds the database as a class `Db`. It has the three tables as fields and one method per insert, update or delete; each method keeps `Valid()`, the foreign keys with acyclicity. It also holds the storage bucket as a class `Bucket`, and `FindMany`/`FindAll`, which return the selected rows of a table, sorted.
- `FolderRoutes`, `FileRoutes` and `DataRoomRoutes` hold the Express handlers.
  - Each handler is a method on `Db` whose status is fixed by the old state and the request, check by check in the handler's order. Where there are several checks, a verdict function states them (`FileRoutes.ListVerdict`, `FolderRoutes.CreateVerdict`); a single check is an `if` in the `ensures`.
  - Each handler states its whole new state.
  - Each handler proves that `Orderly` is preserved.
- `ApiFolders`, `ApiFiles` and `ApiDataRooms` hold the serverless handlers. They come with counterexamples showing which `Orderly` parts they do not keep.
- `DataRoomView` holds the page, as a class `Page` over its two lists and their stored copies.
- `FileTree` holds the sidebar:
  - `BuildTree` is the two-pass loop;
  - `Tree` is its specification;
  - `Sidebar` is a class holding the expanded set.

## Model

| member | source | states |
|---|---|---|
| Text.TrimStart | backend/src/routes/folders.ts:16 | the result is a suffix of the input, everything dropped is white space, and the result does not start with white space |
| Text.TrimEnd | backend/src/routes/folders.ts:16 | the result is a prefix of the input, everything dropped is white space, and the result does not end with white space |
| Text.Trim | backend/src/routes/folders.ts:16 | the trimmed name is empty exactly when the input is blank; otherwise it neither starts nor ends with white space |
| Text.TrimIdempotent | backend/src/routes/dataRooms.ts:16 | trimming an already trimmed name changes nothing |
| Text.UuidIsTrimmed | backend/src/routes/folders.ts:17-18 | an id that passes the UUID validator is non-empty and unchanged by trimming |
| Text.LowerChar | backend/src/routes/files.ts:385-386 | exactly the letters A-Z are mapped to their lower-case forms; every other character is unchanged |
| Text.ToLower | frontend/src/pages/DataRoomView.tsx:318 | lower-casing keeps the length and lower-cases position by position |
| Text.ToLowerIdempotent | frontend/src/pages/DataRoomView.tsx:318-328 | lower-casing twice is lower-casing once |
| Text.ContainsAt | backend/src/routes/files.ts:385 | `contains` holds exactly when the query occurs at some position of the name |
| Text.LexLeTotal | backend/src/routes/folders.ts:61 | any two names are comparable under the name order |
| Text.LexLeTransitive | backend/src/routes/folders.ts:61 | the name order is transitive |
| Text.LexLeAntisymmetric | backend/src/routes/folders.ts:61 | two names each at most the other are equal |
| Seqs.Filter | frontend/src/pages/DataRoomView.tsx:58-59 | the result keeps exactly the elements satisfying the predicate, and is no longer than the input |
| Seqs.FilterAppend | frontend/src/pages/DataRoomView.tsx:58-59 | filtering a concatenation concatenates the filtered parts |
| Seqs.FilterAllWhenAllMatch | frontend/src/pages/DataRoomView.tsx:58-59 | when every element matches, filtering returns the sequence unchanged |
| Seqs.FilterNoDup | backend/src/routes/files.ts:89-103 | filtering a duplicate-free sequence keeps it duplicate-free |
| Seqs.Insert | backend/src/routes/folders.ts:61 | inserting adds exactly one occurrence of the element |
| Seqs.SortBy | backend/src/routes/folders.ts:61 | sorting is a permutation of its input |
| Seqs.InsertSorted | backend/src/routes/folders.ts:61 | insertion into a sorted sequence under a total preorder keeps it sorted |
| Seqs.InsertNoDup | backend/src/routes/folders.ts:61 | inserting a new element keeps the sequence duplicate-free |
| Seqs.SortByCorrect | backend/src/routes/folders.ts:61 | under a total preorder the sort is sorted, a permutation, and keeps a duplicate-free input duplicate-free |
| Paging.TotalPages | backend/src/routes/files.ts:116 | `Math.ceil(total / limit)`: the pages cover every item and the last page is not empty |
| Paging.Page | backend/src/routes/files.ts:101-102 | `skip`/`take`: the page is the run of items from `skip`, of length at most `take`, and is empty past the end |
| Paging.Reversed | backend/src/routes/files.ts:101-102 | the items in reverse order, element by element |
| Paging.PageFromEnd | backend/src/routes/files.ts:101-102 | a negative `take`: the run of at most `take` items ending `skip` items before the end, in the original order, and empty past the start |
| Paging.PageFromEndIsReversedPage | backend/src/routes/files.ts:101-102 | paging from the end is paging the reversed items and reversing the page back, as the database client reads a negative `take` |
| Paging.Window | backend/src/routes/files.ts:101-102 | a negative `skip` is refused; a non-negative `take` pages from the front and a negative one from the end, at most `|take|` items either way |
| Paging.CeilDiv | backend/src/routes/files.ts:116 | `Math.ceil(total / limit)` for a non-zero limit of either sign: the least `c` with `c * limit >= total` when the limit is positive, the greatest `c` with `c * limit <= total` when it is negative |
| Paging.PageCount | backend/src/routes/files.ts:116 | the page count is absent (JSON `null` for the division by zero) exactly when the limit is 0, and `Math.ceil(total / limit)` otherwise |
| Paging.ItemOnItsPage | backend/src/routes/files.ts:50 | item i appears on page i / limit + 1 at offset i % limit, and that page is within the page count |
| Queries.FolderNameOrderTotal | backend/src/routes/folders.ts:61 | ordering folders by name is a total preorder |
| Queries.FileNameOrderTotal | backend/src/routes/files.ts:100 | ordering files by name is a total preorder |
| Queries.TimeOrdersTotal | backend/src/routes/dataRooms.ts:49 | newest-first and most-recently-updated-first are total preorders |
| Store.Db.constructor | backend/src/routes/dataRooms.ts:40-56 | the store starts empty and consistent |
| Store.Db.CreateRoom | backend/src/routes/dataRooms.ts:131-139 | the room is added and nothing else changes; the store stays consistent |
| Store.Db.UpdateRoom | backend/src/routes/dataRooms.ts:189-195 | the room's row is replaced and nothing else changes |
| Store.Db.DeleteRoom | backend/src/routes/dataRooms.ts:227-229 | the room, its folders and their files go (the cascade), and the store stays consistent |
| Store.Db.CreateFolder | backend/src/routes/folders.ts:201-216 | the insert succeeds exactly when the room and the parent exist, and then adds just that folder |
| Store.Db.RenameFolder | backend/src/routes/folders.ts:265-269 | only that folder's name changes; the tree stays acyclic |
| Store.Db.DeleteFolder | backend/src/routes/folders.ts:306-308 | the folder, its descendants and their files go; the store stays consistent |
| Store.Db.CreateFile | backend/src/routes/files.ts:224-237 | the insert succeeds exactly when the folder (and the room, when given) exist, and then adds just that file |
| Store.Db.RenameFile | backend/src/routes/files.ts:296-299 | only that file's name changes |
| Store.Db.DeleteFile | backend/src/routes/files.ts:349-351 | only that file's row goes |
| Store.Bucket.constructor | backend/src/utils/supabase.ts:38-43 | the bucket starts empty |
| Store.Bucket.Put | backend/src/utils/supabase.ts:38-47 | with `upsert: false` a write succeeds exactly when storage is up and the key is new, and adds that key |
| Store.Bucket.Remove | backend/src/utils/supabase.ts:56-63 | a removal succeeds exactly when storage is up, and removes that key (a missing key is no error) |
| Store.Rows | backend/src/routes/files.ts:89-103 | the table's rows, every one once, each with its stored value |
| Store.FindMany | backend/src/routes/files.ts:89-103 | exactly the rows satisfying the `where`, each once, sorted by the `orderBy` |
| Store.FindAll | backend/api/data-rooms.ts:103-124 | exactly the rows satisfying the `where`, each once |
| Store.SortedHitsAreSelection | backend/src/routes/files.ts:89-103 | filtering then sorting all rows yields exactly the matching rows, each once |
| Store.NoDupSameMultiset | backend/src/routes/files.ts:89-103 | a permutation of a duplicate-free sequence is duplicate-free |
| Store.NoDupCount | backend/src/routes/files.ts:89-103 | a duplicate-free sequence holds each value at most once |
| Hierarchy.RankOf | backend/src/routes/folders.ts:111-131 | an acyclic store has a rank map that decreases from each folder to its parent |
| Hierarchy.AncestorN | backend/src/routes/folders.ts:111-131 | the folder n parent links up, when it exists, is in the store |
| Hierarchy.AncestorRank | backend/src/routes/folders.ts:111-131 | going up n links lowers the rank by at least n |
| Hierarchy.NoFolderIsOwnAncestor | backend/src/routes/folders.ts:111-131 | no folder is its own ancestor, so the breadcrumb walk ends |
| Hierarchy.Breadcrumb | backend/src/routes/folders.ts:111-131 | the path ends with the folder, each entry's parent is the entry before it, and the walk stops at a root or a missing parent; empty exactly for an unknown id |
| Hierarchy.BreadcrumbIsAncestorChain | backend/src/routes/folders.ts:111-131 | the entry k places from the end is the k-th ancestor |
| Hierarchy.BreadcrumbFromRoot | backend/src/routes/folders.ts:111-131 | with every parent present, the path starts at a root folder and visits no folder twice |
| Hierarchy.CrumbsDistinct | backend/src/routes/folders.ts:111-131 | two positions of the path hold different folders |
| Hierarchy.AncestorCompose | backend/src/routes/folders.ts:111-131 | going up m links and then k more is going up m + k |
| Hierarchy.BreadcrumbStaysInRoom | backend/src/routes/folders.ts:111-131 | with same-room nesting every folder on the path is in the folder's room |
| Hierarchy.OwnershipFollowsChain | backend/src/routes/folders.ts:92-102 | with same-room nesting the caller owns a folder exactly when they own each of its ancestors |
| Hierarchy.AddFolderKeepsTree | backend/src/routes/folders.ts:201-216 | a folder under an existing parent keeps the parent links present and acyclic |
| Hierarchy.UpdateFolderKeepsTree | backend/src/routes/folders.ts:265-269 | changing a folder but not its parent keeps the tree acyclic |
| Hierarchy.RemoveFoldersKeepsAcyclic | backend/src/routes/folders.ts:306-308 | removing folders keeps the tree acyclic |
| Hierarchy.Subtree | backend/src/routes/folders.ts:306-308 | the cascade's removal set holds the target folders and only stored folders |
| Hierarchy.DescendantInSubtree | backend/src/routes/folders.ts:306-308 | every descendant of a deleted folder is deleted |
| Hierarchy.SubtreeOnlyDescendants | backend/src/routes/folders.ts:306-308 | only descendants of deleted folders are deleted |
| Hierarchy.SurvivorsKeepParents | backend/src/routes/folders.ts:306-308 | after the cascade every surviving folder's parent survives |
| Hierarchy.FilesOutside | backend/src/routes/folders.ts:306-308 | a file survives exactly when its folder survives, unchanged |
| Hierarchy.DeleteFolderCascadeConsistent | backend/src/routes/folders.ts:306-308 | the folder cascade leaves a consistent store without the folder |
| Hierarchy.DeleteRoomCascadeConsistent | backend/src/routes/dataRooms.ts:227-229 | the room cascade leaves a consistent store without the room or any of its folders |
| Hierarchy.AddFolderKeepsOrder | backend/src/routes/folders.ts:175-216 | a folder whose parent is in its room and whose name is free keeps the store orderly |
| Hierarchy.RenameFolderKeepsOrder | backend/src/routes/folders.ts:250-269 | renaming to the same name or to a free one keeps the store orderly |
| Hierarchy.RemovalKeepsOrder | backend/src/routes/folders.ts:306-308 | removing rows keeps the store orderly |
| Hierarchy.AddFileKeepsOrder | backend/src/routes/files.ts:208-237 | a file whose name is free in its folder, recorded against its folder's room, keeps the store orderly |
| Hierarchy.RenameFileKeepsOrder | backend/src/routes/files.ts:282-299 | renaming a file to the same name or a free one keeps the store orderly |
| Hierarchy.PutRoomKeepsOrder | backend/src/routes/dataRooms.ts:176-195 | a room name unused by its owner elsewhere keeps the store orderly |
| Hierarchy.BreadcrumbOwnedByCaller | backend/src/routes/folders.ts:92-131 | with same-room nesting a caller who may open a folder owns every folder on its breadcrumb |
| FolderRoutes.Contents | backend/src/routes/folders.ts:26-85 | 404 unless the folder is owned; otherwise exactly its child folders sorted by name, plus exactly its files by name when `includeFiles` is 'true' |
| FolderRoutes.Tree | backend/src/routes/folders.ts:88-148 | 404 unless owned; otherwise the breadcrumb, from a root to the folder, all owned by the caller under same-room nesting |
| FolderRoutes.CreateAcceptedMeansChecked | backend/src/routes/folders.ts:151-223 | an accepted create puts a non-blank trimmed name in an owned room, under a parent in that room, with no sibling of that name |
| FolderRoutes.Create | backend/src/routes/folders.ts:151-223 | the status follows validation (400), room (404), parent (404), duplicate (409); on 201 only the new folder is added; the store stays orderly |
| FolderRoutes.Update | backend/src/routes/folders.ts:226-285 | 400/404/409 as checked; on 200 only the name changes, and only when one is given; the store stays orderly |
| FolderRoutes.Delete | backend/src/routes/folders.ts:288-314 | 404 unless owned; otherwise the folder cascade; the store stays orderly |
| DataRoomRoutes.List | backend/src/routes/dataRooms.ts:29-68 | 400 on an invalid page or limit; otherwise the caller's rooms, most recently updated first, the requested page with the total and page count |
| DataRoomRoutes.Get | backend/src/routes/dataRooms.ts:71-108 | 404 unless owned; otherwise the room and exactly its root folders by name |
| DataRoomRoutes.Create | backend/src/routes/dataRooms.ts:111-150 | 400 on an invalid name, 409 on a name the owner already uses, else 201 with only the new room added; the store stays orderly |
| DataRoomRoutes.Update | backend/src/routes/dataRooms.ts:153-208 | 400/404/409 as checked; on 200 only that room changes (a given name, trimmed, and the update time); the store stays orderly |
| DataRoomRoutes.Delete | backend/src/routes/dataRooms.ts:211-235 | 404 unless owned; otherwise the room cascade, leaving no folder of that room; the store stays orderly |
| FileRoutes.LastSegment | backend/src/routes/files.ts:342 | `split(sep).pop()`: the text after the last separator, which holds no separator, and the whole text when there is none |
| FileRoutes.StorageKeyMissesUploadedObject | backend/src/routes/files.ts:341-346 | the key delete removes is never the key upload stored (see Findings) |
| FileRoutes.KeyHasFolder | backend/src/utils/supabase.ts:35-36 | every uploaded key contains a '/' (it lies under `uploads/`) |
| FileRoutes.SegmentIsNotPath | backend/src/routes/files.ts:342 | a last segment never equals a key containing '/' |
| FileRoutes.UploadedKeyRoundTrip | backend/src/utils/supabase.ts:49-53 | removing the public prefix from the stored URL gives back the uploaded key |
| FileRoutes.Paginate | backend/src/routes/files.ts:88-118 | the window of the ordered result for `skip` and `take` (from the end when `take` is negative), its total, and the page count for a limit of either sign |
| FileRoutes.List | backend/src/routes/files.ts:43-119 | the status is `ListVerdict`: 400 without folder or room, 404 for an unowned folder or room, 500 when `skip` comes out negative; on 200 the window of exactly the matching files by name (from the end for a negative limit), their total and `Math.ceil(total / limit)` |
| FileRoutes.Get | backend/src/routes/files.ts:122-153 | 404 unless the caller owns the file; otherwise the file |
| FileRoutes.UploadFile | backend/src/routes/files.ts:181-253 | 400/404/409 as checked, 500 when storage fails; on 201 the object is stored and exactly one row is added, recorded against its folder's room; the store stays orderly |
| FileRoutes.Update | backend/src/routes/files.ts:256-317 | 400/404/409 as checked; on 200 only the name changes; the store stays orderly |
| FileRoutes.Delete | backend/src/routes/files.ts:320-360 | 404 unless owned; 500 and no change when the storage call fails; otherwise the row goes; the store stays orderly |
| FileRoutes.SearchIgnoresQueryCase | backend/src/routes/files.ts:383-387 | the search gives the same hits for a query and its lower-cased form |
| FileRoutes.Search | backend/src/routes/files.ts:363-450 | the status is `SearchVerdict`: 400 without a query, 500 when `skip` comes out negative; on 200 the window of exactly the caller's files matching the filters, by name (from the end for a negative limit), every one owned by the caller, with the total and `Math.ceil(total / limit)` |
| FileRoutes.SearchIsShadowed | backend/src/routes/files.ts:122 | with `/:id` registered first, `GET /search` reaches the get handler and no request reaches search (see Findings) |
| FileRoutes.SearchFirstReachesSearch | backend/src/routes/files.ts:363 | with search registered first, exactly `GET /search` reaches it and every other request is routed as before |
| ApiFolders.Route | backend/api/folders.ts:28-42 | OPTIONS first, then 401 without a user, then the branches in order; every branch but create needs an id |
| ApiFolders.ParentOf | backend/api/folders.ts:68 | `parentId \|\| null`: a parent exactly when a non-empty one is sent |
| ApiFolders.AddFolderKeepsSiblingNames | backend/api/folders.ts:64-76 | a folder whose name is free under its parent keeps sibling names unique |
| ApiFolders.Create | backend/api/folders.ts:42-99 | 400/404/409 as checked, 500 for a missing parent; on 201 the folder is added with its raw name; sibling names stay unique |
| ApiFolders.CrossRoomParentLeaksName | backend/api/folders.ts:64-84 | a create under another owner's folder is accepted and that folder's name appears on the new folder's breadcrumb (see Findings) |
| ApiFolders.ParentSummary | backend/api/folders.ts:101-139 | the parent's id and name exactly when the parent exists |
| ApiFolders.Get | backend/api/folders.ts:101-139 | 404 unless owned; otherwise the folder, its parent summary, and exactly its children and files |
| ApiFolders.Duplicate | backend/api/folders.ts:141-175 | the copy keeps room and parent and appends " (Copy)" to the name |
| ApiFolders.DuplicateOf | backend/api/folders.ts:141-175 | 404 unless owned; otherwise only the copy is added, with no children; same-room nesting is kept |
| ApiFolders.DuplicateBreaksSiblingNames | backend/api/folders.ts:141-175 | duplicating twice yields two siblings of one name |
| ApiFolders.Rename | backend/api/folders.ts:177-217 | 400 without a name, 404 unless owned; otherwise only the raw name changes |
| ApiFolders.RenameBreaksSiblingNames | backend/api/folders.ts:177-217 | renaming to a sibling's name is accepted and breaks sibling uniqueness |
| ApiFolders.Delete | backend/api/folders.ts:219-242 | 404 unless owned; otherwise the folder cascade |
| ApiFolders.FilesOf | backend/api/folders.ts:244-261 | exactly the caller's files of that folder, newest first; empty (not 404) for an unowned folder |
| ApiFolders.Handle | backend/api/folders.ts:28-270 | 401 without a user, 405 for no branch; the read branches change nothing |
| ApiFiles.Route | backend/api/files.ts:28-42 | OPTIONS first, then 401 without a user; upload is exactly POST with action=upload |
| ApiFiles.Upload | backend/api/files.ts:42-82 | 400/404 as checked; on 201 a placeholder row is added with no name check |
| ApiFiles.UploadBreaksFileNames | backend/api/files.ts:42-82 | uploading a name twice into one folder yields two files of that name |
| ApiFiles.Rename | backend/api/files.ts:84-118 | 400 without a name, 404 unless owned; otherwise only the raw name changes |
| ApiFiles.Delete | backend/api/files.ts:120-146 | 404 unless owned; otherwise only that row goes |
| ApiFiles.Handle | backend/api/files.ts:26-154 | 401 without a user, 405 for no branch; folders and rooms never change |
| ApiDataRooms.Route | backend/api/data-rooms.ts:41-53 | OPTIONS first, then 401; GET with an id always selects the get branch, so the folders/files actions never answer GET |
| ApiDataRooms.List | backend/api/data-rooms.ts:53-74 | exactly the caller's rooms newest first, with a fixed page 1 of limit 10 and one page |
| ApiDataRooms.Create | backend/api/data-rooms.ts:76-101 | 400 without a name; otherwise only the room is added, with no name check |
| ApiDataRooms.CreateBreaksRoomNames | backend/api/data-rooms.ts:76-101 | two rooms of one name for one owner are accepted |
| ApiDataRooms.Get | backend/api/data-rooms.ts:103-133 | 404 unless owned; otherwise the room and exactly its root folders |
| ApiDataRooms.Delete | backend/api/data-rooms.ts:135-156 | 404 unless owned; otherwise the room cascade |
| ApiDataRooms.FoldersOf | backend/api/data-rooms.ts:158-181 | exactly the room's folders, newest first, for an owned room; empty otherwise |
| ApiDataRooms.FilesOf | backend/api/data-rooms.ts:183-201 | exactly the files of the room's root folders, newest first, for an owned room; empty otherwise |
| ApiDataRooms.Handle | backend/api/data-rooms.ts:39-225 | 401 without a user, 405 for no branch; only create and delete write |
| DataRoomView.FolderCounts | frontend/src/pages/DataRoomView.tsx:54-62 | every folder, in order and otherwise unchanged, with its file count and child count |
| DataRoomView.ChildCountsAgree | frontend/src/pages/DataRoomView.tsx:59 | lists that agree on parent links have the same child counts |
| DataRoomView.CountsIdempotent | frontend/src/pages/DataRoomView.tsx:65-77 | counting already counted folders changes nothing |
| DataRoomView.AddedFileCounted | frontend/src/pages/DataRoomView.tsx:233-234 | adding a file raises its folder's count by one and leaves the others |
| DataRoomView.CurrentContents | frontend/src/pages/DataRoomView.tsx:255-269 | inside a folder: exactly its children and its files; at the root: the parentless folders and the files whose folder is not listed |
| DataRoomView.CountsMatchContents | frontend/src/pages/DataRoomView.tsx:54-62 | a folder card's counts equal what the page lists when that folder is opened |
| DataRoomView.EveryFileListedOnce | frontend/src/pages/DataRoomView.tsx:255-269 | every file is listed in its folder's view or, when its folder is unknown, at the root |
| DataRoomView.SearchAllContent | frontend/src/pages/DataRoomView.tsx:313-331 | a blank query gives the current listing; otherwise exactly the folders and files whose names contain the query, ignoring case |
| DataRoomView.WithoutFolder | frontend/src/pages/DataRoomView.tsx:146 | exactly the folders without that id |
| DataRoomView.DeletedFolderLeavesHiddenChild | frontend/src/pages/DataRoomView.tsx:143-153 | deleting a parent leaves its child in the list; the root listing and the listing of every remaining folder leave it out, while the listing under the deleted folder's id still shows it (see Findings) |
| DataRoomView.ContentsLeastClosed | frontend/src/pages/DataRoomView.tsx:489 | the contents of a folder lie inside every set that holds the folder and the children of its members |
| DataRoomView.ReachesIntoClosed | frontend/src/pages/DataRoomView.tsx:489 | a folder some chain of parent links leads from to the target lies in every such set |
| DataRoomView.ContentsOf | frontend/src/pages/DataRoomView.tsx:489 | exactly the folders a chain of parent links leads from to the target (`Contents`), which is closed under "child of" and so, by `ContentsLeastClosed`, the least such set; a parent cycle away from the target is not taken |
| DataRoomView.WithoutContents | frontend/src/pages/DataRoomView.tsx:489 | exactly the folders not removed and the files not in a removed folder |
| DataRoomView.RemovingContentsIsClosed | frontend/src/pages/DataRoomView.tsx:489 | removing a folder with its contents leaves no folder or file under a removed folder, and removes only contents |
| DataRoomView.WentIsGone | frontend/src/pages/DataRoomView.tsx:489 | the ids that go are exactly the removal set |
| DataRoomView.LeftFoldersClosed | frontend/src/pages/DataRoomView.tsx:489 | no remaining folder hangs under a removed one |
| DataRoomView.LeftFilesClosed | frontend/src/pages/DataRoomView.tsx:489 | no remaining file lies in a removed folder |
| DataRoomView.CountsKeepLinks | frontend/src/pages/DataRoomView.tsx:54-62 | counting keeps every id and parent link |
| DataRoomView.CountingKeepsRemoval | frontend/src/pages/DataRoomView.tsx:65-69 | recounting after a removal keeps it closed and limited to contents |
| DataRoomView.RenameFolderIn | frontend/src/pages/DataRoomView.tsx:167-183 | only the entries with that id get the new name and time |
| DataRoomView.RenameFileIn | frontend/src/pages/DataRoomView.tsx:184-199 | only the entries with that id get the new name and time |
| DataRoomView.UploadTarget | frontend/src/pages/DataRoomView.tsx:281-299 | the open folder when there is one, else the first parentless folder, else none |
| DataRoomView.FirstRoot | frontend/src/pages/DataRoomView.tsx:289-295 | none exactly when every folder has a parent; otherwise the first parentless folder |
| DataRoomView.Page.constructor | frontend/src/pages/DataRoomView.tsx:33-51 | the lists start as the stored copies |
| DataRoomView.Page.SaveFolders | frontend/src/pages/DataRoomView.tsx:65-69 | the folders are counted against the current files, stored and shown |
| DataRoomView.Page.SaveFiles | frontend/src/pages/DataRoomView.tsx:71-77 | the files are stored and shown, and the shown folders are recounted |
| DataRoomView.Page.CreateFolder | frontend/src/pages/DataRoomView.tsx:116-141 | a folder is created exactly when the trimmed name is non-empty, appended with the raw name, in the route's folder |
| DataRoomView.Page.DeleteFolder | frontend/src/pages/DataRoomView.tsx:143-153 | only the folder with that id goes; its children and files stay |
| DataRoomView.Page.DeleteFolderWithContents | frontend/src/pages/DataRoomView.tsx:489 | the new lists are exactly the old ones without the folder's `Contents` and the files in them, with the counts recomputed; nothing left hangs under a removed folder, and both lists are saved |
| DataRoomView.Page.RenameFolder | frontend/src/pages/DataRoomView.tsx:167-183 | renamed exactly when the trimmed name is non-empty; only that folder changes |
| DataRoomView.Page.RenameFile | frontend/src/pages/DataRoomView.tsx:184-199 | renamed exactly when the trimmed name is non-empty; only that file changes, and the counts are recomputed |
| DataRoomView.Page.DeleteFile | frontend/src/pages/DataRoomView.tsx:155-165 | exactly the files without that id remain, and the counts are recomputed |
| DataRoomView.Page.Upload | frontend/src/pages/DataRoomView.tsx:209-252 | with a file and a non-blank name, one file is appended to the upload target when there is one; otherwise nothing changes |
| FileTree.LastWithId | frontend/src/components/FileTree.tsx:42 | none exactly when no folder has the id; otherwise a folder with that id |
| FileTree.LaterEntryWins | frontend/src/components/FileTree.tsx:42 | the map keeps the last folder with a given id |
| FileTree.FileNodes | frontend/src/components/FileTree.tsx:60-74 | one file node per file, in order |
| FileTree.Tree | frontend/src/components/FileTree.tsx:40-76 | one top-level node per parentless folder |
| FileTree.NestedFoldersNeverShown | frontend/src/components/FileTree.tsx:48-58 | every top-level node is a root folder's node, and its children are only file nodes |
| FileTree.FileShownIfRootFolder | frontend/src/components/FileTree.tsx:60-74 | a file whose folder is known and parentless is drawn, and only such a file has a folder to be drawn under (the converse, that every drawn file node is such a file, is `FileShownOnlyUnderItsFolder`) |
| FileTree.FirstIndexOf | frontend/src/components/FileTree.tsx:63 | some earliest node carries the id |
| FileTree.FileShownOnlyUnderItsFolder | frontend/src/components/FileTree.tsx:60-74 | a file node appears only under the node of its own root folder |
| FileTree.FindNode | frontend/src/components/FileTree.tsx:63 | `find`: the first node with the id, or none when no node has it |
| FileTree.FolderNodes | frontend/src/components/FileTree.tsx:48-58 | one empty folder node per folder, in order |
| FileTree.PlacementAttaches | frontend/src/components/FileTree.tsx:60-74 | the second pass puts a file at node k exactly when the file attaches there |
| FileTree.BuildTree | frontend/src/components/FileTree.tsx:40-76 | the two-pass loop builds exactly `Tree` |
| FileTree.Toggled | frontend/src/components/FileTree.tsx:30-38 | the id's membership flips and nothing else changes |
| FileTree.ToggleTwice | frontend/src/components/FileTree.tsx:30-38 | toggling twice restores the set |
| FileTree.Sidebar.constructor | frontend/src/components/FileTree.tsx:21-28 | nothing is expanded at first |
| FileTree.Sidebar.ToggleExpanded | frontend/src/components/FileTree.tsx:30-38 | the expanded set is toggled at the id |
| FileTree.Sidebar.Click | frontend/src/components/FileTree.tsx:90-97 | a folder click toggles and opens the folder, flipping whether a non-empty folder shows its children; a file click opens the file and changes nothing |

## Left out

- Counts and sizes. The `_count` includes and file sizes are not part of any contract. Sizes are `nat`, so there is no BigInt.
- Concurrency. `Promise.all` and concurrent requests are not modelled; every handler runs alone against the store.
- Authentication. The middleware is not part of this model. The caller's id arrives as a parameter, and an absent user is an `Option`.
- Preflight and CORS. CORS headers and OPTIONS handling are only the `Preflight` branch, which answers 200.
- The database schema. It is not part of this model. Its foreign keys and `onDelete: Cascade` are stated as assumptions in `Hierarchy` (`Consistent`, `DeleteFolderCascade`, `DeleteRoomCascade`).
- Ids, clocks and randomness. Generated ids, `Date.now()` and `Math.random()` are parameters (`newId`, `now`, `stamp`).
- Upload size limit. The multer memory buffer and its 50 MiB limit are reduced to the part's type and size. The error-handling middleware's messages are not modelled.
- Browser storage and viewing. The PDF viewer, blob URLs, `window.open`, the download link and the JSON encoding of browser storage are left out. `Page` keeps the stored lists as fields.
- React state updates are taken as synchronous. Each mutation sees the lists as they are when it runs.
- Sidebar navigation. The `onFolderClick`/`onFileClick` callbacks of the sidebar are returned as values; the navigation they trigger is not modelled.
- Express routing. Only the file router's order is modelled (`FileRoutes.Dispatch`); the other routers' paths are one method each.
- Serverless column names. The serverless file handlers write `fileType`, `blobUrl` and `size` while the Express routes use `mimeType`, `filePath` and `fileSize`; both are modelled over one row type.
- Non-PDF uploads. The code answers 400, which is what is modelled; `backend/src/__tests__/routes/files.test.ts` expects 500.
- DataRoomRoutes.List: page and limit arrive already parsed to integers; a text that is not an integer, which the validator answers with 400, is not modelled.
- FileRoutes.List: page and limit arrive already parsed to integers; `Number(...)` of a non-numeric or fractional text gives a NaN or fractional `skip`/`take`, which the database client rejects (500); that path is not modelled.
- FileRoutes.Search: page and limit arrive already parsed to integers, as for `List`; the NaN and fractional paths (500) are not modelled.
- Paging.Window: a negative `take` follows the database client's documented reading (the last rows before `skip` from the end, in query order); the client is not part of this model.
- FileRoutes.Search: the date and size filters arrive already parsed; the text-to-date conversion is not modelled.
- Text.ToLower: lower-cases only A-Z; Unicode case mapping is not modelled.
- Text.LexLe: compares code points; the database collation is not modelled.

## Findings

| source | as written | input that shows it | evidently intended | confidence | as-written member | corrected member |
|---|---|---|---|---|---|---|
| backend/api/folders.ts:64-84 | the create branch checks the room's owner but never checks that `parentId` lies in that room; the foreign key alone accepts any existing folder | user bob owns room B; alice's folder `fa` ("secret") is in room A; bob posts `{name: "x", dataRoomId: B, parentId: fa}`; `GET /folders/fb/tree` then shows bob the crumb "secret" | the parent must belong to the same room, as `backend/src/routes/folders.ts:175-186` checks (404) | not executed | ApiFolders.CrossRoomParentLeaksName | FolderRoutes.CreateAcceptedMeansChecked |
| backend/src/routes/files.ts:341-344 | delete removes the key `filePath.split('/').pop()`, but upload stored the object under `uploads/<stamp>.<ext>` | any uploaded file: the key has a '/' and the last segment never does, so storage removes nothing and the object stays | remove the key the URL was built from (the URL minus its public prefix) | not executed | FileRoutes.StorageKeyMissesUploadedObject | FileRoutes.UploadedKeyRoundTrip |
| frontend/src/pages/DataRoomView.tsx:146-147 | delete removes only the folder's own entry although the confirmation says "and all its contents" (line 489) | folders p (root) and c (parent p); delete p; c stays in the list, is not at the root and under no remaining folder (only search and a direct link to p's route still list it) | remove the folder, every folder below it and their files | not executed | DataRoomView.DeletedFolderLeavesHiddenChild | DataRoomView.RemovingContentsIsClosed |
| backend/src/routes/files.ts:122 | `GET /:id` is registered before `GET /search`, so `/search` is taken as the id "search" | `GET /files/search?query=a` answers 404 from the get handler; `backend/src/__tests__/routes/files.test.ts` expects 200 | register the search route first | not executed | FileRoutes.SearchIsShadowed | FileRoutes.SearchFirstReachesSearch |
