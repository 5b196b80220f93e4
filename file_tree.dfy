/** The sidebar tree of the web client: one node per parentless folder, in
    list order, holding the files of that folder; deeper folders are not
    shown. A set of expanded ids decides which nodes show their files. */
module FileTree {
  import opened Common
  import opened Seqs
  import opened DataRoomView

  datatype Kind = FolderNode | FileNode

  datatype TreeNode = TreeNode(id: string, name: string, kind: Kind, children: seq<TreeNode>)

  predicate IsRoot(f: ViewFolder) {
    !Truthy(f.parentId)
  }

  /** The parentless folders, in list order. */
  function Roots(fs: seq<ViewFolder>): seq<ViewFolder> {
    Filter(fs, (f: ViewFolder) => IsRoot(f))
  }

  /** `new Map(folders.map(f => [f.id, f])).get(id)`: the last folder with
      that id, since a later entry replaces an earlier one. */
  function LastWithId(fs: seq<ViewFolder>, id: string): (r: Option<ViewFolder>)
    ensures r.None? <==> forall i :: 0 <= i < |fs| ==> fs[i].id != id
    ensures r.Some? ==> r.value in fs && r.value.id == id
  {
    if fs == [] then None
    else if fs[|fs| - 1].id == id then Some(fs[|fs| - 1])
    else
      assert forall i :: 0 <= i < |fs| - 1 ==> fs[..|fs| - 1][i] == fs[i];
      LastWithId(fs[..|fs| - 1], id)
  }

  /** Of several folders with one id the map keeps the last. */
  lemma {:induction false} LaterEntryWins(fs: seq<ViewFolder>, i: nat)
    requires i < |fs|
    requires forall j :: i < j < |fs| ==> fs[j].id != fs[i].id
    ensures LastWithId(fs, fs[i].id) == Some(fs[i])
  {
    if i < |fs| - 1 {
      var prefix := fs[..|fs| - 1];
      assert prefix[i] == fs[i];
      LaterEntryWins(prefix, i);
    }
  }

  /** `folderMap.get(file.folderId)`: the file's folder, if known. */
  function FolderOf(fs: seq<ViewFolder>, x: ViewFile): Option<ViewFolder> {
    if x.folderId.Some? then LastWithId(fs, x.folderId.value) else None
  }

  /** The id of the root folder a file is drawn under, if any: its folder
      must be known and parentless. */
  function Target(fs: seq<ViewFolder>, x: ViewFile): Option<string> {
    var folder := FolderOf(fs, x);
    if folder.Some? && IsRoot(folder.value) then Some(folder.value.id) else None
  }

  /** Node k is the first top-level node with its id. */
  predicate FirstWithId(roots: seq<ViewFolder>, k: nat)
    requires k < |roots|
  {
    forall j :: 0 <= j < k ==> roots[j].id != roots[k].id
  }

  /** The files drawn under top-level node k: a file goes to the first node
      carrying its root folder's id. */
  function AttachesTo(fs: seq<ViewFolder>, roots: seq<ViewFolder>, k: nat): ViewFile -> bool
    requires k < |roots|
  {
    (x: ViewFile) => Target(fs, x) == Some(roots[k].id) && FirstWithId(roots, k)
  }

  function FileNodes(xs: seq<ViewFile>): (r: seq<TreeNode>)
    ensures |r| == |xs|
    ensures forall i :: 0 <= i < |xs| ==> r[i] == TreeNode(xs[i].id, xs[i].name, FileNode, [])
  {
    seq(|xs|, i requires 0 <= i < |xs| => TreeNode(xs[i].id, xs[i].name, FileNode, []))
  }

  /** The tree the sidebar draws: a folder node per root folder, holding the
      file nodes that attach to it. */
  function Tree(fs: seq<ViewFolder>, files: seq<ViewFile>): (r: seq<TreeNode>)
    ensures |r| == |Roots(fs)|
  {
    var roots := Roots(fs);
    seq(|roots|, k requires 0 <= k < |roots| =>
      TreeNode(roots[k].id, roots[k].name, FolderNode, FileNodes(Filter(files, AttachesTo(fs, roots, k)))))
  }

  /** One top-level node per root folder, in list order, holding file nodes
      only: a nested folder never appears in the tree. */
  lemma NestedFoldersNeverShown(fs: seq<ViewFolder>, files: seq<ViewFile>)
    ensures forall k :: 0 <= k < |Tree(fs, files)| ==>
      && Tree(fs, files)[k].kind == FolderNode
      && Tree(fs, files)[k].id == Roots(fs)[k].id && Tree(fs, files)[k].name == Roots(fs)[k].name
      && Roots(fs)[k] in fs && IsRoot(Roots(fs)[k])
      && (forall c :: c in Tree(fs, files)[k].children ==> c.kind == FileNode && c.children == [])
  {
  }

  /** A file whose folder is known and parentless is drawn in the tree, and
      only such a file has a target folder; the converse, that a drawn file
      node is the file of that folder, is `FileShownOnlyUnderItsFolder`. */
  lemma FileShownIfRootFolder(fs: seq<ViewFolder>, files: seq<ViewFile>, x: ViewFile)
    requires x in files
    ensures (exists k :: 0 <= k < |Tree(fs, files)| && TreeNode(x.id, x.name, FileNode, []) in Tree(fs, files)[k].children)
      <== Target(fs, x).Some?
    ensures Target(fs, x).Some? <==>
      x.folderId.Some? && LastWithId(fs, x.folderId.value).Some? && IsRoot(LastWithId(fs, x.folderId.value).value)
  {
    var roots := Roots(fs);
    var t := Target(fs, x);
    if t.Some? {
      var f := LastWithId(fs, x.folderId.value).value;
      assert f in fs && IsRoot(f);
      assert f in roots;
      var k0 :| 0 <= k0 < |roots| && roots[k0] == f;
      var k := FirstIndexOf(roots, f.id, k0);
      assert AttachesTo(fs, roots, k)(x);
      var hits := Filter(files, AttachesTo(fs, roots, k));
      assert x in hits;
      var m :| 0 <= m < |hits| && hits[m] == x;
      assert FileNodes(hits)[m] == TreeNode(x.id, x.name, FileNode, []);
      assert Tree(fs, files)[k].children == FileNodes(hits);
    }
  }

  /** The first index carrying an id that occurs at index k0. */
  lemma FirstIndexOf(roots: seq<ViewFolder>, id: string, k0: nat) returns (k: nat)
    requires k0 < |roots| && roots[k0].id == id
    ensures k <= k0 && roots[k].id == id && FirstWithId(roots, k)
  {
    k := 0;
    while roots[k].id != id
      invariant k <= k0 && forall j :: 0 <= j < k ==> roots[j].id != id
      decreases k0 - k
    {
      k := k + 1;
    }
  }

  /** A file node is drawn under the node of its root folder only. */
  lemma FileShownOnlyUnderItsFolder(fs: seq<ViewFolder>, files: seq<ViewFile>, k: nat, c: TreeNode)
    requires k < |Tree(fs, files)| && c in Tree(fs, files)[k].children
    ensures exists x :: x in files && c == TreeNode(x.id, x.name, FileNode, []) && Target(fs, x) == Some(Tree(fs, files)[k].id)
  {
    var roots := Roots(fs);
    var hits := Filter(files, AttachesTo(fs, roots, k));
    var m :| 0 <= m < |FileNodes(hits)| && FileNodes(hits)[m] == c;
    assert AttachesTo(fs, roots, k)(hits[m]);
  }

  /** The index of the first node with an id, as `Array.prototype.find`
      scans. */
  function FindNode(nodes: seq<TreeNode>, id: string): (k: Option<nat>)
    ensures k.None? ==> forall j :: 0 <= j < |nodes| ==> nodes[j].id != id
    ensures k.Some? ==> k.value < |nodes| && nodes[k.value].id == id && forall j :: 0 <= j < k.value ==> nodes[j].id != id
  {
    if nodes == [] then None
    else if nodes[0].id == id then Some(0)
    else
      var k := FindNode(nodes[1..], id);
      if k.Some? then Some(k.value + 1) else None
  }

  function FolderNodes(roots: seq<ViewFolder>): (r: seq<TreeNode>)
    ensures |r| == |roots|
    ensures forall k :: 0 <= k < |roots| ==> r[k] == TreeNode(roots[k].id, roots[k].name, FolderNode, [])
  {
    seq(|roots|, k requires 0 <= k < |roots| => TreeNode(roots[k].id, roots[k].name, FolderNode, []))
  }

  /** The node a file is appended to: its root folder's first node. */
  function Placement(fs: seq<ViewFolder>, nodes: seq<TreeNode>, x: ViewFile): Option<nat> {
    var folder := FolderOf(fs, x);
    if folder.Some? && IsRoot(folder.value) then FindNode(nodes, folder.value.id) else None
  }

  /** The placement the second pass computes is the one node the file
      attaches to. */
  lemma PlacementAttaches(fs: seq<ViewFolder>, roots: seq<ViewFolder>, nodes: seq<TreeNode>, x: ViewFile, k: nat)
    requires |nodes| == |roots| && k < |roots|
    requires forall j :: 0 <= j < |roots| ==> nodes[j].id == roots[j].id
    ensures AttachesTo(fs, roots, k)(x) <==> Placement(fs, nodes, x) == Some(k)
  {
  }

  /** The nodes after appending a file to the node at `p`, if any. */
  function Placed(nodes: seq<TreeNode>, p: Option<nat>, x: ViewFile): seq<TreeNode> {
    if p.Some? && p.value < |nodes|
    then nodes[p.value := nodes[p.value].(children := nodes[p.value].children + [TreeNode(x.id, x.name, FileNode, [])])]
    else nodes
  }

  /** One step of the second pass: appending a file's node where the pass
      places it extends the tree by that file. */
  lemma TreeStep(fs: seq<ViewFolder>, done: seq<ViewFile>, x: ViewFile, done': seq<ViewFile>)
    requires done' == done + [x]
    ensures Tree(fs, done') == Placed(Tree(fs, done), Placement(fs, Tree(fs, done), x), x)
  {
    var after := Placed(Tree(fs, done), Placement(fs, Tree(fs, done), x), x);
    forall k | 0 <= k < |Roots(fs)|
      ensures after[k] == Tree(fs, done')[k]
    {
      TreeStepAt(fs, done, x, done', k);
    }
  }

  /** The step at one top-level node. */
  lemma TreeStepAt(fs: seq<ViewFolder>, done: seq<ViewFile>, x: ViewFile, done': seq<ViewFile>, k: nat)
    requires done' == done + [x] && k < |Roots(fs)|
    ensures Placed(Tree(fs, done), Placement(fs, Tree(fs, done), x), x)[k] == Tree(fs, done')[k]
  {
    var attaches := AttachesTo(fs, Roots(fs), k);
    TreeAt(fs, done, k);
    TreeAt(fs, done', k);
    TreePlacement(fs, done, x, k);
    FilterStep(done, x, attaches, done');
    if attaches(x) {
      FileNodesStep(Filter(done, attaches), x);
      PlacedHere(Tree(fs, done), k, x);
    } else {
      PlacedElsewhere(Tree(fs, done), Placement(fs, Tree(fs, done), x), k, x);
    }
  }

  /** Node k of the tree. */
  lemma TreeAt(fs: seq<ViewFolder>, files: seq<ViewFile>, k: nat)
    requires k < |Roots(fs)|
    ensures Tree(fs, files)[k] ==
      TreeNode(Roots(fs)[k].id, Roots(fs)[k].name, FolderNode, FileNodes(Filter(files, AttachesTo(fs, Roots(fs), k))))
  {
  }

  /** The second pass places a file at node k exactly when it attaches there. */
  lemma TreePlacement(fs: seq<ViewFolder>, done: seq<ViewFile>, x: ViewFile, k: nat)
    requires k < |Roots(fs)|
    ensures AttachesTo(fs, Roots(fs), k)(x) <==> Placement(fs, Tree(fs, done), x) == Some(k)
  {
    var nodes := Tree(fs, done);
    forall j | 0 <= j < |Roots(fs)| ensures nodes[j].id == Roots(fs)[j].id {
      TreeAt(fs, done, j);
    }
    PlacementAttaches(fs, Roots(fs), nodes, x, k);
  }

  lemma PlacedHere(nodes: seq<TreeNode>, k: nat, x: ViewFile)
    requires k < |nodes|
    ensures Placed(nodes, Some(k), x)[k] == nodes[k].(children := nodes[k].children + [TreeNode(x.id, x.name, FileNode, [])])
  {
  }

  lemma PlacedElsewhere(nodes: seq<TreeNode>, p: Option<nat>, k: nat, x: ViewFile)
    requires k < |nodes| && p != Some(k)
    ensures Placed(nodes, p, x)[k] == nodes[k]
  {
  }

  lemma FilterStep<T>(done: seq<T>, x: T, p: T -> bool, done': seq<T>)
    requires done' == done + [x]
    ensures Filter(done', p) == Filter(done, p) + if p(x) then [x] else []
  {
    FilterAppend(done, [x], p);
    if p(x) {
      assert Filter([x], p) == [x];
    } else {
      assert Filter([x], p) == [];
    }
  }

  lemma FileNodesStep(xs: seq<ViewFile>, x: ViewFile)
    ensures FileNodes(xs + [x]) == FileNodes(xs) + [TreeNode(x.id, x.name, FileNode, [])]
  {
  }

  /** One step of the first pass: a root folder adds its node. */
  lemma RootsStep(fs: seq<ViewFolder>, i: nat)
    requires i < |fs|
    ensures FolderNodes(Roots(fs[..i + 1])) ==
      FolderNodes(Roots(fs[..i])) + if IsRoot(fs[i]) then [TreeNode(fs[i].id, fs[i].name, FolderNode, [])] else []
  {
    assert fs[..i + 1] == fs[..i] + [fs[i]];
    FilterAppend(fs[..i], [fs[i]], (f: ViewFolder) => IsRoot(f));
  }

  /** The first pass yields the tree of no files. */
  lemma FirstPassTree(fs: seq<ViewFolder>, files: seq<ViewFile>)
    ensures FolderNodes(Roots(fs)) == Tree(fs, files[..0])
  {
    assert files[..0] == [];
  }

  /** buildTree: a first pass pushes a node per root folder, a second pass
      appends each file to the node of its root folder. */
  method BuildTree(fs: seq<ViewFolder>, files: seq<ViewFile>) returns (nodes: seq<TreeNode>)
    ensures nodes == Tree(fs, files)
  {
    nodes := [];
    var i := 0;
    while i < |fs|
      invariant 0 <= i <= |fs|
      invariant nodes == FolderNodes(Roots(fs[..i]))
    {
      RootsStep(fs, i);
      if IsRoot(fs[i]) {
        nodes := nodes + [TreeNode(fs[i].id, fs[i].name, FolderNode, [])];
      }
      i := i + 1;
    }
    assert fs[..|fs|] == fs;
    FirstPassTree(fs, files);
    assert nodes == Tree(fs, files[..0]);
    var j := 0;
    while j < |files|
      invariant 0 <= j <= |files|
      invariant nodes == Tree(fs, files[..j])
    {
      var x := files[j];
      assert files[..j + 1] == files[..j] + [x];
      TreeStep(fs, files[..j], x, files[..j + 1]);
      ghost var next := Tree(fs, files[..j + 1]);
      assert next == Placed(nodes, Placement(fs, nodes, x), x);
      var folder := FolderOf(fs, x);
      if folder.Some? && IsRoot(folder.value) {
        var found := FindNode(nodes, folder.value.id);
        assert next == Placed(nodes, found, x);
        if found.Some? {
          var k := found.value;
          nodes := nodes[k := nodes[k].(children := nodes[k].children + [TreeNode(x.id, x.name, FileNode, [])])];
        }
      } else {
        assert next == Placed(nodes, None, x);
      }
      assert nodes == next;
      j := j + 1;
    }
    assert files[..|files|] == files;
  }

  /** toggleExpanded: the id's membership flips, nothing else changes. */
  function Toggled(expanded: set<string>, id: string): (r: set<string>)
    ensures id in r <==> id !in expanded
    ensures forall y :: y != id ==> (y in r <==> y in expanded)
  {
    if id in expanded then expanded - {id} else expanded + {id}
  }

  /** Toggling twice restores the set. */
  lemma ToggleTwice(expanded: set<string>, id: string)
    ensures Toggled(Toggled(expanded, id), id) == expanded
  {
  }

  /** The sidebar component's state: its inputs and the expanded ids. */
  class Sidebar {
    const folders: seq<ViewFolder>
    const files: seq<ViewFile>
    const currentPath: Option<string>
    var expanded: set<string>

    constructor (folders: seq<ViewFolder>, files: seq<ViewFile>, currentPath: Option<string>)
      ensures this.folders == folders && this.files == files && this.currentPath == currentPath
      ensures expanded == {}
    {
      this.folders, this.files, this.currentPath := folders, files, currentPath;
      expanded := {};
    }

    method ToggleExpanded(id: string)
      modifies this
      ensures expanded == Toggled(old(expanded), id)
    {
      if id in expanded {
        expanded := expanded - {id};
      } else {
        expanded := expanded + {id};
      }
    }

    /** A folder node lists its children when expanded and non-empty. */
    predicate ShowsChildren(n: TreeNode)
      reads this
    {
      n.kind == FolderNode && n.id in expanded && |n.children| > 0
    }

    /** The node of the open folder is highlighted. */
    predicate IsActive(n: TreeNode) {
      currentPath == Some(n.id)
    }

    /** A click on a node: a folder toggles and is opened, a file is opened. */
    method Click(n: TreeNode) returns (openFolder: Option<string>, openFile: Option<string>)
      modifies this
      ensures n.kind == FolderNode ==> expanded == Toggled(old(expanded), n.id) && openFolder == Some(n.id) && openFile.None?
      ensures n.kind == FileNode ==> expanded == old(expanded) && openFolder.None? && openFile == Some(n.id)
      ensures n.kind == FolderNode && |n.children| > 0 ==> (ShowsChildren(n) <==> !old(ShowsChildren(n)))
    {
      if n.kind == FolderNode {
        ToggleExpanded(n.id);
        return Some(n.id), None;
      }
      return None, Some(n.id);
    }
  }
}
