/** The data-room page of the web client. It keeps its folder and file lists
    in component state mirrored to browser storage, and the uploaded bytes'
    object URLs in a page-wide map. Folder cards carry counts computed from
    the lists. */
module DataRoomView {
  import opened Common
  import opened Text
  import opened Seqs

  /** A folder as the client keeps it, with its two counts. */
  datatype ViewFolder = ViewFolder(
    id: string, name: string, dataRoomId: string, parentId: Option<string>,
    createdAt: int, updatedAt: int, fileCount: nat, childCount: nat)

  /** A file as the client keeps it. */
  datatype ViewFile = ViewFile(
    id: string, name: string, fileType: string, size: nat, blobUrl: string,
    folderId: Option<string>, createdAt: int, updatedAt: int)

  /** What the page lists: folders and files. */
  datatype Listing = Listing(folders: seq<ViewFolder>, files: seq<ViewFile>)

  function InFolder(id: string): ViewFile -> bool {
    (x: ViewFile) => x.folderId == Some(id)
  }

  function ChildOf(id: string): ViewFolder -> bool {
    (f: ViewFolder) => f.parentId == Some(id)
  }

  function FolderIds(fs: seq<ViewFolder>): set<string> {
    set i | 0 <= i < |fs| :: fs[i].id
  }

  // ---------------------------------------------------------------------
  // calculateFolderCounts
  // ---------------------------------------------------------------------

  /** Every folder, in the same order and otherwise unchanged, with the
      number of files it holds and the number of folders directly below it. */
  function FolderCounts(fs: seq<ViewFolder>, files: seq<ViewFile>): (r: seq<ViewFolder>)
    ensures |r| == |fs|
    ensures forall i :: 0 <= i < |fs| ==> r[i].(fileCount := 0, childCount := 0) == fs[i].(fileCount := 0, childCount := 0)
    ensures forall i :: 0 <= i < |fs| ==> r[i].fileCount == |Filter(files, InFolder(fs[i].id))|
    ensures forall i :: 0 <= i < |fs| ==> r[i].childCount == |Filter(fs, ChildOf(fs[i].id))|
  {
    seq(|fs|, i requires 0 <= i < |fs| =>
      fs[i].(fileCount := |Filter(files, InFolder(fs[i].id))|, childCount := |Filter(fs, ChildOf(fs[i].id))|))
  }

  /** Two lists that agree on every parent link have the same number of
      children under any id. */
  lemma {:induction false} ChildCountsAgree(g: seq<ViewFolder>, fs: seq<ViewFolder>, id: string)
    requires |g| == |fs| && forall i :: 0 <= i < |fs| ==> g[i].parentId == fs[i].parentId
    ensures |Filter(g, ChildOf(id))| == |Filter(fs, ChildOf(id))|
  {
    if fs != [] {
      ChildCountsAgree(g[1..], fs[1..], id);
    }
  }

  /** Recomputing the counts of counted folders changes nothing. */
  lemma CountsIdempotent(fs: seq<ViewFolder>, files: seq<ViewFile>)
    ensures FolderCounts(FolderCounts(fs, files), files) == FolderCounts(fs, files)
  {
    var c := FolderCounts(fs, files);
    var cc := FolderCounts(c, files);
    forall i | 0 <= i < |fs| ensures cc[i] == c[i] {
      ChildCountsAgree(c, fs, fs[i].id);
    }
  }

  /** Adding one file raises the count of its folder by one and leaves every
      other count as it was. */
  lemma AddedFileCounted(fs: seq<ViewFolder>, files: seq<ViewFile>, x: ViewFile, i: nat)
    requires i < |fs|
    ensures FolderCounts(fs, files + [x])[i].fileCount ==
      FolderCounts(fs, files)[i].fileCount + (if x.folderId == Some(fs[i].id) then 1 else 0)
  {
    FilterAppend(files, [x], InFolder(fs[i].id));
  }

  // ---------------------------------------------------------------------
  // getCurrentFolderContents and searchAllContent
  // ---------------------------------------------------------------------

  /** Whether a file's folder is one of the listed folders. */
  predicate HasListedFolder(fs: seq<ViewFolder>, x: ViewFile) {
    Truthy(x.folderId) && exists j :: 0 <= j < |fs| && fs[j].id == x.folderId.value
  }

  /** Inside a folder: its direct sub-folders and its files. At the root:
      the parentless folders, and the files with no folder or a folder that
      is not listed. */
  function CurrentContents(fs: seq<ViewFolder>, files: seq<ViewFile>, routeFolder: Option<string>): (r: Listing)
    ensures forall f :: f in r.folders <==>
      (f in fs && if Truthy(routeFolder) then f.parentId == routeFolder else !Truthy(f.parentId))
    ensures forall x :: x in r.files <==>
      (x in files && if Truthy(routeFolder) then x.folderId == routeFolder else !HasListedFolder(fs, x))
  {
    if Truthy(routeFolder) then
      Listing(Filter(fs, ChildOf(routeFolder.value)), Filter(files, InFolder(routeFolder.value)))
    else
      Listing(Filter(fs, (f: ViewFolder) => !Truthy(f.parentId)),
              Filter(files, (x: ViewFile) => !HasListedFolder(fs, x)))
  }

  /** The counts on a folder's card are what the page lists when that folder
      is opened. */
  lemma CountsMatchContents(fs: seq<ViewFolder>, files: seq<ViewFile>, i: nat)
    requires i < |fs| && fs[i].id != ""
    ensures var c := FolderCounts(fs, files);
      var inside := CurrentContents(c, files, Some(fs[i].id));
      c[i].fileCount == |inside.files| && c[i].childCount == |inside.folders|
  {
    ChildCountsAgree(FolderCounts(fs, files), fs, fs[i].id);
  }

  /** Every file is listed somewhere: at the root when its folder is not
      listed, otherwise inside its folder and not at the root. */
  lemma EveryFileListedOnce(fs: seq<ViewFolder>, files: seq<ViewFile>, x: ViewFile)
    requires x in files
    ensures HasListedFolder(fs, x) ==>
      x in CurrentContents(fs, files, x.folderId).files && x !in CurrentContents(fs, files, None).files
    ensures !HasListedFolder(fs, x) ==> x in CurrentContents(fs, files, None).files
  {
  }

  /** A search: with a blank query the current listing, otherwise every
      folder and file, wherever it is, whose name contains the query ignoring
      case. */
  function SearchAllContent(fs: seq<ViewFolder>, files: seq<ViewFile>, routeFolder: Option<string>, query: string): (r: Listing)
    ensures IsBlank(query) ==> r == CurrentContents(fs, files, routeFolder)
    ensures !IsBlank(query) ==>
      && (forall f :: f in r.folders <==> f in fs && ContainsIgnoringCase(f.name, query))
      && (forall x :: x in r.files <==> x in files && ContainsIgnoringCase(x.name, query))
  {
    if Trim(query) == "" then CurrentContents(fs, files, routeFolder)
    else Listing(Filter(fs, (f: ViewFolder) => ContainsIgnoringCase(f.name, query)),
                 Filter(files, (x: ViewFile) => ContainsIgnoringCase(x.name, query)))
  }

  // ---------------------------------------------------------------------
  // Folder removal: as written, and with its contents
  // ---------------------------------------------------------------------

  /** The list the delete mutation saves: every folder but the one removed. */
  function WithoutFolder(fs: seq<ViewFolder>, id: string): (r: seq<ViewFolder>)
    ensures forall f :: f in r <==> f in fs && f.id != id
  {
    Filter(fs, (f: ViewFolder) => f.id != id)
  }

  /** The confirmation asks to delete the folder "and all its contents", but
      the sub-folder of a deleted folder stays in the list. The root listing
      and the listing of every folder still in the list leave it out; only
      the listing under the deleted folder's own id, which a direct link to
      that route opens, still shows it. */
  lemma DeletedFolderLeavesHiddenChild()
    ensures var p := ViewFolder("p", "Deals", "r", None, 0, 0, 0, 1);
      var c := ViewFolder("c", "Q1", "r", Some("p"), 0, 0, 0, 0);
      var after := WithoutFolder([p, c], "p");
      && c in after
      && !RemovalClosed([p, c], after, [], "p")
      && c !in CurrentContents(after, [], None).folders
      && (forall g :: g in after ==> c !in CurrentContents(after, [], Some(g.id)).folders)
      && c in CurrentContents(after, [], Some("p")).folders
  {
    var p := ViewFolder("p", "Deals", "r", None, 0, 0, 0, 1);
    var c := ViewFolder("c", "Q1", "r", Some("p"), 0, 0, 0, 0);
    var after := WithoutFolder([p, c], "p");
    assert c in [p, c];
    assert after == [c];
    assert FolderIds(after) == {"c"};
    assert after[0].parentId.value == "p";
    forall g | g in after ensures c !in CurrentContents(after, [], Some(g.id)).folders {
      assert g == c;
    }
  }

  /** Folder `x` hangs `n` parent links below `id` (`n == 0`: it is `id`). */
  ghost predicate Reaches(fs: seq<ViewFolder>, x: string, id: string, n: nat)
    decreases n
  {
    if n == 0 then x == id
    else exists i :: 0 <= i < |fs| && fs[i].id == x && fs[i].parentId.Some? && Reaches(fs, fs[i].parentId.value, id, n - 1)
  }

  /** The folder and every folder that hangs, directly or through others,
      under it: the ids some chain of parent links leads from to `id`. */
  ghost function Contents(fs: seq<ViewFolder>, id: string): set<string> {
    set x | x in FolderIds(fs) + {id} && exists n: nat :: Reaches(fs, x, id, n)
  }

  /** Every set that holds `id` and the children of its members holds all
      of `id`'s contents: the contents are the least such set. */
  lemma ContentsLeastClosed(fs: seq<ViewFolder>, id: string, s: set<string>)
    requires id in s
    requires forall i :: 0 <= i < |fs| && fs[i].parentId.Some? && fs[i].parentId.value in s ==> fs[i].id in s
    ensures Contents(fs, id) <= s
  {
    forall x | x in Contents(fs, id) ensures x in s {
      var n: nat :| Reaches(fs, x, id, n);
      ReachesIntoClosed(fs, id, s, x, n);
    }
  }

  lemma {:induction false} ReachesIntoClosed(fs: seq<ViewFolder>, id: string, s: set<string>, x: string, n: nat)
    requires id in s
    requires forall i :: 0 <= i < |fs| && fs[i].parentId.Some? && fs[i].parentId.value in s ==> fs[i].id in s
    requires Reaches(fs, x, id, n)
    ensures x in s
    decreases n
  {
    if n > 0 {
      var i :| 0 <= i < |fs| && fs[i].id == x && fs[i].parentId.Some? && Reaches(fs, fs[i].parentId.value, id, n - 1);
      ReachesIntoClosed(fs, id, s, fs[i].parentId.value, n - 1);
    }
  }

  /** Collects the contents of folder `id` by adding children of collected
      folders until none is left out. */
  method ContentsOf(fs: seq<ViewFolder>, id: string) returns (gone: set<string>)
    ensures gone == Contents(fs, id)
    ensures id in gone && gone <= FolderIds(fs) + {id}
    ensures forall i :: 0 <= i < |fs| && fs[i].parentId.Some? && fs[i].parentId.value in gone ==> fs[i].id in gone
    ensures forall x :: x in gone && x != id ==>
      exists i :: 0 <= i < |fs| && fs[i].id == x && fs[i].parentId.Some? && fs[i].parentId.value in gone
  {
    gone := {id};
    assert Reaches(fs, id, id, 0);
    while exists i :: 0 <= i < |fs| && fs[i].parentId.Some? && fs[i].parentId.value in gone && fs[i].id !in gone
      invariant id in gone && gone <= FolderIds(fs) + {id}
      invariant forall x :: x in gone && x != id ==>
        exists i :: 0 <= i < |fs| && fs[i].id == x && fs[i].parentId.Some? && fs[i].parentId.value in gone
      invariant forall x :: x in gone ==> exists n: nat :: Reaches(fs, x, id, n)
      decreases |FolderIds(fs) + {id} - gone|
    {
      var i :| 0 <= i < |fs| && fs[i].parentId.Some? && fs[i].parentId.value in gone && fs[i].id !in gone;
      ghost var n: nat :| Reaches(fs, fs[i].parentId.value, id, n);
      assert Reaches(fs, fs[i].id, id, n + 1);
      var all := FolderIds(fs) + {id};
      assert fs[i].id in all - gone;
      assert all - (gone + {fs[i].id}) < all - gone;
      gone := gone + {fs[i].id};
    }
    ContentsLeastClosed(fs, id, gone);
  }

  /** The lists after deleting a folder with everything it contains. */
  function WithoutContents(fs: seq<ViewFolder>, files: seq<ViewFile>, gone: set<string>): (r: Listing)
    ensures forall f :: f in r.folders <==> f in fs && f.id !in gone
    ensures forall x :: x in r.files <==> x in files && (x.folderId.None? || x.folderId.value !in gone)
  {
    Listing(Filter(fs, (f: ViewFolder) => f.id !in gone),
            Filter(files, (x: ViewFile) => x.folderId.None? || x.folderId.value !in gone))
  }

  /** No folder left hangs under a folder that went, and no file left lies
      in one: whatever went, went with all of its contents. */
  predicate RemovalClosed(before: seq<ViewFolder>, after: seq<ViewFolder>, files: seq<ViewFile>, id: string) {
    var went := FolderIds(before) + {id} - FolderIds(after);
    && id in went
    && (forall i :: 0 <= i < |after| ==> after[i].parentId.None? || after[i].parentId.value !in went)
    && (forall k :: 0 <= k < |files| ==> files[k].folderId.None? || files[k].folderId.value !in went)
  }

  /** Every folder that went, other than the target, hung under one that
      went. */
  predicate OnlyContentsRemoved(before: seq<ViewFolder>, after: seq<ViewFolder>, id: string) {
    var went := FolderIds(before) + {id} - FolderIds(after);
    forall x :: x in went && x != id ==>
      exists i :: 0 <= i < |before| && before[i].id == x && before[i].parentId.Some? && before[i].parentId.value in went
  }

  /** Removing a set of folders closed under "child of" (and the files in
      them) removes the target with all of its contents and nothing else. */
  lemma RemovingContentsIsClosed(fs: seq<ViewFolder>, files: seq<ViewFile>, id: string, gone: set<string>)
    requires id in gone && gone <= FolderIds(fs) + {id}
    requires forall i :: 0 <= i < |fs| && fs[i].parentId.Some? && fs[i].parentId.value in gone ==> fs[i].id in gone
    requires forall x :: x in gone && x != id ==>
      exists i :: 0 <= i < |fs| && fs[i].id == x && fs[i].parentId.Some? && fs[i].parentId.value in gone
    ensures var r := WithoutContents(fs, files, gone);
      RemovalClosed(fs, r.folders, r.files, id) && OnlyContentsRemoved(fs, r.folders, id)
  {
    var r := WithoutContents(fs, files, gone);
    WentIsGone(fs, files, id, gone);
    LeftFoldersClosed(fs, files, gone);
    LeftFilesClosed(fs, files, gone);
  }

  /** The ids that went are exactly the removed set. */
  lemma WentIsGone(fs: seq<ViewFolder>, files: seq<ViewFile>, id: string, gone: set<string>)
    requires id in gone && gone <= FolderIds(fs) + {id}
    ensures FolderIds(fs) + {id} - FolderIds(WithoutContents(fs, files, gone).folders) == gone
  {
    var r := WithoutContents(fs, files, gone);
    forall x | x in FolderIds(r.folders) ensures x !in gone {
      var i :| 0 <= i < |r.folders| && r.folders[i].id == x;
      assert r.folders[i] in r.folders;
    }
    forall x | x in FolderIds(fs) && x !in gone ensures x in FolderIds(r.folders) {
      var j :| 0 <= j < |fs| && fs[j].id == x;
      assert fs[j] in r.folders;
      var k :| 0 <= k < |r.folders| && r.folders[k] == fs[j];
    }
  }

  /** No folder left hangs under a removed one. */
  lemma LeftFoldersClosed(fs: seq<ViewFolder>, files: seq<ViewFile>, gone: set<string>)
    requires forall i :: 0 <= i < |fs| && fs[i].parentId.Some? && fs[i].parentId.value in gone ==> fs[i].id in gone
    ensures var left := WithoutContents(fs, files, gone).folders;
      forall i :: 0 <= i < |left| ==> left[i].parentId.None? || left[i].parentId.value !in gone
  {
    var left := WithoutContents(fs, files, gone).folders;
    forall i | 0 <= i < |left| ensures left[i].parentId.None? || left[i].parentId.value !in gone {
      assert left[i] in left;
      var j :| 0 <= j < |fs| && fs[j] == left[i];
    }
  }

  /** No file left lies in a removed folder. */
  lemma LeftFilesClosed(fs: seq<ViewFolder>, files: seq<ViewFile>, gone: set<string>)
    ensures var left := WithoutContents(fs, files, gone).files;
      forall k :: 0 <= k < |left| ==> left[k].folderId.None? || left[k].folderId.value !in gone
  {
    var left := WithoutContents(fs, files, gone).files;
    forall k | 0 <= k < |left| ensures left[k].folderId.None? || left[k].folderId.value !in gone {
      assert left[k] in left;
    }
  }

  /** Counting keeps every id and parent link in place. */
  lemma CountsKeepLinks(fs: seq<ViewFolder>, files: seq<ViewFile>)
    ensures FolderIds(FolderCounts(fs, files)) == FolderIds(fs)
    ensures forall i :: 0 <= i < |fs| ==> FolderCounts(fs, files)[i].parentId == fs[i].parentId
  {
    var c := FolderCounts(fs, files);
    forall x | x in FolderIds(fs) ensures x in FolderIds(c) {
      var i :| 0 <= i < |fs| && fs[i].id == x;
      assert c[i].id == x;
    }
  }

  /** Recounting after a removal keeps it closed and limited to contents. */
  lemma CountingKeepsRemoval(before: seq<ViewFolder>, after: seq<ViewFolder>, files: seq<ViewFile>, id: string)
    requires RemovalClosed(before, after, files, id) && OnlyContentsRemoved(before, after, id)
    ensures RemovalClosed(before, FolderCounts(after, files), files, id)
    ensures OnlyContentsRemoved(before, FolderCounts(after, files), id)
  {
    CountsKeepLinks(after, files);
  }

  // ---------------------------------------------------------------------
  // The page state
  // ---------------------------------------------------------------------

  /** The folder the create form adds: the name as typed, the route's room
      (or a stand-in), the route's folder as parent, zero counts. */
  function NewFolder(roomId: Option<string>, routeFolder: Option<string>, id: string, name: string, now: int): ViewFolder {
    ViewFolder(id, name, if Truthy(roomId) then roomId.value else "temp-room",
               if Truthy(routeFolder) then routeFolder else None, now, now, 0, 0)
  }

  /** The list after renaming one folder: only that entry's name and
      updatedAt change. */
  function RenameFolderIn(fs: seq<ViewFolder>, id: string, name: string, now: int): (r: seq<ViewFolder>)
    ensures |r| == |fs|
    ensures forall i :: 0 <= i < |fs| ==> r[i] == (if fs[i].id == id then fs[i].(name := name, updatedAt := now) else fs[i])
  {
    seq(|fs|, i requires 0 <= i < |fs| => if fs[i].id == id then fs[i].(name := name, updatedAt := now) else fs[i])
  }

  /** The list after renaming one file. */
  function RenameFileIn(files: seq<ViewFile>, id: string, name: string, now: int): (r: seq<ViewFile>)
    ensures |r| == |files|
    ensures forall i :: 0 <= i < |files| ==> r[i] == (if files[i].id == id then files[i].(name := name, updatedAt := now) else files[i])
  {
    seq(|files|, i requires 0 <= i < |files| => if files[i].id == id then files[i].(name := name, updatedAt := now) else files[i])
  }

  /** Where an upload goes: the open folder, else the first parentless
      folder; None when at the root with no folder to take it. */
  function UploadTarget(fs: seq<ViewFolder>, routeFolder: Option<string>): (t: Option<string>)
    ensures Truthy(routeFolder) ==> t == routeFolder
    ensures !Truthy(routeFolder) ==>
      (t.None? <==> forall i :: 0 <= i < |fs| ==> Truthy(fs[i].parentId))
    ensures !Truthy(routeFolder) && t.Some? ==>
      exists i :: 0 <= i < |fs| && fs[i].id == t.value && !Truthy(fs[i].parentId)
        && forall j :: 0 <= j < i ==> Truthy(fs[j].parentId)
  {
    if Truthy(routeFolder) then routeFolder
    else FirstRoot(fs)
  }

  function FirstRoot(fs: seq<ViewFolder>): (t: Option<string>)
    ensures t.None? <==> forall i :: 0 <= i < |fs| ==> Truthy(fs[i].parentId)
    ensures t.Some? ==> exists i :: (0 <= i < |fs| && fs[i].id == t.value && !Truthy(fs[i].parentId)
      && forall j :: 0 <= j < i ==> Truthy(fs[j].parentId))
  {
    if fs == [] then None
    else if !Truthy(fs[0].parentId) then Some(fs[0].id)
    else
      var t := FirstRoot(fs[1..]);
      if t.Some? then
        var k :| 0 <= k < |fs[1..]| && fs[1..][k].id == t.value && !Truthy(fs[1..][k].parentId)
          && forall j :: 0 <= j < k ==> Truthy(fs[1..][j].parentId);
        assert fs[k + 1] == fs[1..][k];
        t
      else t
  }

  /** The stored metadata of an upload: no object URL, and the browser's
      type or PDF when it gives none. */
  function UploadedFile(id: string, name: string, mimeType: string, size: nat, folder: string, now: int): ViewFile {
    ViewFile(id, name, if mimeType == "" then "application/pdf" else mimeType, size, "", Some(folder), now, now)
  }

  /** The page: route parameters, the two lists, their stored copies, and
      the page-wide map from file id to object URL. */
  class Page {
    const roomId: Option<string>
    const routeFolder: Option<string>
    var folders: seq<ViewFolder>
    var files: seq<ViewFile>
    var savedFolders: seq<ViewFolder>
    var savedFiles: seq<ViewFile>
    var blobUrls: map<string, string>

    /** The lists start from browser storage (empty when nothing is saved). */
    constructor (roomId: Option<string>, routeFolder: Option<string>,
                 savedFolders: seq<ViewFolder>, savedFiles: seq<ViewFile>, blobUrls: map<string, string>)
      ensures this.roomId == roomId && this.routeFolder == routeFolder
      ensures folders == savedFolders && files == savedFiles
      ensures this.savedFolders == savedFolders && this.savedFiles == savedFiles && this.blobUrls == blobUrls
    {
      this.roomId, this.routeFolder := roomId, routeFolder;
      folders, files := savedFolders, savedFiles;
      this.savedFolders, this.savedFiles, this.blobUrls := savedFolders, savedFiles, blobUrls;
    }

    /** saveFolders: counts against the current files, stored and shown. */
    method SaveFolders(fs: seq<ViewFolder>)
      modifies this
      ensures folders == FolderCounts(fs, old(files)) && savedFolders == folders
      ensures files == old(files) && savedFiles == old(savedFiles) && blobUrls == old(blobUrls)
    {
      folders := FolderCounts(fs, files);
      savedFolders := folders;
    }

    /** saveFiles: the files stored and shown; the shown folders are
        recounted, the stored folders keep their old counts. */
    method SaveFiles(xs: seq<ViewFile>)
      modifies this
      ensures files == xs && savedFiles == xs
      ensures folders == FolderCounts(old(folders), xs)
      ensures savedFolders == old(savedFolders) && blobUrls == old(blobUrls)
    {
      savedFiles := xs;
      files := xs;
      folders := FolderCounts(folders, xs);
    }

    /** handleCreateFolder with its mutation: a name that is not blank once
        trimmed appends one folder, keeping the name as typed. */
    method CreateFolder(name: string, newId: string, now: int) returns (created: bool)
      modifies this
      ensures created <==> Trim(name) != ""
      ensures folders == (if created then FolderCounts(old(folders) + [NewFolder(roomId, routeFolder, newId, name, now)], files) else old(folders))
      ensures created ==> |folders| == |old(folders)| + 1 && folders[|folders| - 1].id == newId && folders[|folders| - 1].name == name
      ensures savedFolders == (if created then folders else old(savedFolders))
      ensures files == old(files) && savedFiles == old(savedFiles) && blobUrls == old(blobUrls)
    {
      if Trim(name) == "" {
        return false;
      }
      SaveFolders(folders + [NewFolder(roomId, routeFolder, newId, name, now)]);
      created := true;
    }

    /** The delete mutation: only the entry with that id goes. */
    method DeleteFolder(id: string)
      modifies this
      ensures folders == FolderCounts(WithoutFolder(old(folders), id), files) && savedFolders == folders
      ensures files == old(files) && savedFiles == old(savedFiles) && blobUrls == old(blobUrls)
    {
      SaveFolders(WithoutFolder(folders, id));
    }

    /** Deleting a folder with its contents: the folder, every folder below
        it and the files in any of them go, and both lists are saved. */
    method DeleteFolderWithContents(id: string)
      modifies this
      ensures files == WithoutContents(old(folders), old(files), Contents(old(folders), id)).files
      ensures folders == FolderCounts(WithoutContents(old(folders), old(files), Contents(old(folders), id)).folders, files)
      ensures RemovalClosed(old(folders), folders, files, id)
      ensures OnlyContentsRemoved(old(folders), folders, id)
      ensures forall x :: x in files ==> x in old(files)
      ensures folders == FolderCounts(folders, files)
      ensures savedFolders == folders && savedFiles == files && blobUrls == old(blobUrls)
    {
      var gone := ContentsOf(folders, id);
      var kept := WithoutContents(folders, files, gone);
      RemovingContentsIsClosed(folders, files, id, gone);
      var counted := FolderCounts(kept.folders, kept.files);
      CountingKeepsRemoval(folders, kept.folders, kept.files, id);
      CountsIdempotent(kept.folders, kept.files);
      folders := counted;
      files := kept.files;
      savedFolders, savedFiles := folders, files;
    }

    /** handleRename for a folder: a name not blank once trimmed replaces the
        name of the entry with that id. */
    method RenameFolder(id: string, name: string, now: int) returns (renamed: bool)
      modifies this
      ensures renamed <==> Trim(name) != ""
      ensures folders == (if renamed then FolderCounts(RenameFolderIn(old(folders), id, name, now), files) else old(folders))
      ensures savedFolders == (if renamed then folders else old(savedFolders))
      ensures files == old(files) && savedFiles == old(savedFiles) && blobUrls == old(blobUrls)
    {
      if Trim(name) == "" {
        return false;
      }
      SaveFolders(RenameFolderIn(folders, id, name, now));
      renamed := true;
    }

    /** handleRename for a file. */
    method RenameFile(id: string, name: string, now: int) returns (renamed: bool)
      modifies this
      ensures renamed <==> Trim(name) != ""
      ensures files == (if renamed then RenameFileIn(old(files), id, name, now) else old(files)) && savedFiles == (if renamed then files else old(savedFiles))
      ensures folders == (if renamed then FolderCounts(old(folders), files) else old(folders))
      ensures savedFolders == old(savedFolders) && blobUrls == old(blobUrls)
    {
      if Trim(name) == "" {
        return false;
      }
      SaveFiles(RenameFileIn(files, id, name, now));
      renamed := true;
    }

    /** The file delete mutation: only the entry with that id goes. */
    method DeleteFile(id: string)
      modifies this
      ensures files == Filter(old(files), (x: ViewFile) => x.id != id) && savedFiles == files
      ensures forall x :: x in files <==> x in old(files) && x.id != id
      ensures folders == FolderCounts(old(folders), files)
      ensures savedFolders == old(savedFolders) && blobUrls == old(blobUrls)
    {
      SaveFiles(Filter(files, (x: ViewFile) => x.id != id));
    }

    /** handleUpload with its mutation. `file` is the chosen file's type and
        size, absent when none is chosen; `url` is its object URL. */
    method Upload(file: Option<(string, nat)>, name: string, newId: string, now: int, url: string)
      returns (target: Option<string>)
      modifies this
      ensures target == (if file.None? || Trim(name) == "" then None else UploadTarget(old(folders), routeFolder))
      ensures target.None? ==>
        folders == old(folders) && files == old(files) && savedFiles == old(savedFiles) && blobUrls == old(blobUrls)
      ensures target.Some? ==>
        && files == old(files) + [UploadedFile(newId, name, file.value.0, file.value.1, target.value, now)]
        && savedFiles == files
        && folders == FolderCounts(old(folders), files)
        && blobUrls == old(blobUrls)[newId := url]
      ensures savedFolders == old(savedFolders)
    {
      if file.None? || Trim(name) == "" {
        return None;
      }
      target := UploadTarget(folders, routeFolder);
      if target.None? {
        return;
      }
      SaveFiles(files + [UploadedFile(newId, name, file.value.0, file.value.1, target.value, now)]);
      blobUrls := blobUrls[newId := url];
    }
  }
}
