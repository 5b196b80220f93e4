/** The database the handlers share, as one object whose three tables the
    handlers replace, the object-storage bucket that holds uploaded bytes,
    and the evaluation of a `findMany` query (filter, then `orderBy`). */
module Store {
  import opened Common
  import opened Seqs
  import opened Hierarchy

  /** The three tables. Each write is one store statement; a write whose
      foreign key does not resolve is refused, as the database refuses it. */
  class Db {
    var rooms: Rooms
    var folders: Folders
    var files: Files

    ghost predicate Valid()
      reads this
    {
      Consistent(rooms, folders, files)
    }

    constructor ()
      ensures Valid() && rooms == map[] && folders == map[] && files == map[]
    {
      rooms, folders, files := map[], map[], map[];
      assert RankedBy(map[], map[]);
    }

    /** `dataRoom.create`; the id is the one the database generates. */
    method CreateRoom(id: Id, r: DataRoom)
      requires Valid() && id !in rooms
      modifies this
      ensures Valid()
      ensures rooms == old(rooms)[id := r] && folders == old(folders) && files == old(files)
    {
      rooms := rooms[id := r];
    }

    /** `dataRoom.update` of an existing room. */
    method UpdateRoom(id: Id, r: DataRoom)
      requires Valid() && id in rooms
      modifies this
      ensures Valid()
      ensures rooms == old(rooms)[id := r] && folders == old(folders) && files == old(files)
    {
      rooms := rooms[id := r];
    }

    /** `dataRoom.delete` with the schema's cascade to folders and files. */
    method DeleteRoom(id: Id)
      requires Valid() && id in rooms
      modifies this
      ensures Valid() && id !in rooms
      ensures (rooms, folders, files) == DeleteRoomCascade(old(rooms), old(folders), old(files), id)
    {
      DeleteRoomCascadeConsistent(rooms, folders, files, id);
      var after := DeleteRoomCascade(rooms, folders, files, id);
      rooms, folders, files := after.0, after.1, after.2;
    }

    /** `folder.create`: refused unless its data room and its parent exist. */
    method CreateFolder(id: Id, f: Folder) returns (ok: bool)
      requires Valid() && id !in folders
      modifies this
      ensures Valid()
      ensures ok <==> f.dataRoomId in old(rooms) && (f.parentId.Some? ==> f.parentId.value in old(folders))
      ensures folders == (if ok then old(folders)[id := f] else old(folders))
      ensures rooms == old(rooms) && files == old(files)
    {
      ok := f.dataRoomId in rooms && (f.parentId.Some? ==> f.parentId.value in folders);
      if ok {
        AddFolderKeepsTree(folders, id, f);
        folders := folders[id := f];
      }
    }

    /** `folder.update({ data: { name } })`: only the name changes. */
    method RenameFolder(id: Id, name: string)
      requires Valid() && id in folders
      modifies this
      ensures Valid()
      ensures folders == old(folders)[id := old(folders)[id].(name := name)]
      ensures rooms == old(rooms) && files == old(files)
    {
      UpdateFolderKeepsTree(folders, id, folders[id].(name := name));
      folders := folders[id := folders[id].(name := name)];
    }

    /** `folder.delete` with the schema's cascade to sub-folders and files. */
    method DeleteFolder(id: Id)
      requires Valid() && id in folders
      modifies this
      ensures Valid() && id !in folders
      ensures (folders, files) == DeleteFolderCascade(old(folders), old(files), id)
      ensures rooms == old(rooms)
    {
      DeleteFolderCascadeConsistent(rooms, folders, files, id);
      var after := DeleteFolderCascade(folders, files, id);
      folders, files := after.0, after.1;
    }

    /** `file.create`: refused unless its folder (and room, when given) exist. */
    method CreateFile(id: Id, x: StoredFile) returns (ok: bool)
      requires Valid() && id !in files
      modifies this
      ensures Valid()
      ensures ok <==> x.folderId in old(folders) && (x.dataRoomId.Some? ==> x.dataRoomId.value in old(rooms))
      ensures files == (if ok then old(files)[id := x] else old(files))
      ensures rooms == old(rooms) && folders == old(folders)
    {
      ok := x.folderId in folders && (x.dataRoomId.Some? ==> x.dataRoomId.value in rooms);
      if ok {
        files := files[id := x];
      }
    }

    /** `file.update({ data: { name } })`: only the name changes. */
    method RenameFile(id: Id, name: string)
      requires Valid() && id in files
      modifies this
      ensures Valid()
      ensures files == old(files)[id := old(files)[id].(name := name)]
      ensures rooms == old(rooms) && folders == old(folders)
    {
      files := files[id := files[id].(name := name)];
    }

    /** `file.delete`: removes the row only. */
    method DeleteFile(id: Id)
      requires Valid() && id in files
      modifies this
      ensures Valid()
      ensures files == old(files) - {id}
      ensures rooms == old(rooms) && folders == old(folders)
    {
      files := files - {id};
    }
  }

  /** The storage bucket: the set of object keys it holds. Whether the remote
      service answers is an input (`up`). */
  class Bucket {
    var objects: set<string>

    constructor ()
      ensures objects == {}
    {
      objects := {};
    }

    /** Upload without overwrite: fails when the service is down or the key
        is taken. */
    method Put(key: string, up: bool) returns (ok: bool)
      modifies this
      ensures ok <==> up && key !in old(objects)
      ensures objects == (if ok then old(objects) + {key} else old(objects))
    {
      ok := up && key !in objects;
      if ok {
        objects := objects + {key};
      }
    }

    /** Removal of a key; removing a key that is not there is not an error. */
    method Remove(key: string, up: bool) returns (ok: bool)
      modifies this
      ensures ok == up
      ensures objects == (if ok then old(objects) - {key} else old(objects))
    {
      ok := up;
      if ok {
        objects := objects - {key};
      }
    }
  }

  // ---------------------------------------------------------------------
  // Queries
  // ---------------------------------------------------------------------

  /** rs lists, once each and with its stored value, exactly the entries of
      m that satisfy p. */
  ghost predicate IsSelection<T>(rs: seq<Row<T>>, m: map<Id, T>, p: Row<T> -> bool) {
    (forall i :: 0 <= i < |rs| ==> rs[i].id in m && rs[i].val == m[rs[i].id] && p(rs[i])) &&
    (forall id :: id in m && p(Row(id, m[id])) ==> Row(id, m[id]) in rs) &&
    (forall i, j :: 0 <= i < j < |rs| ==> rs[i].id != rs[j].id)
  }

  /** Enumerates the entries of a table, in an order the store chooses. */
  method Rows<T(==)>(m: map<Id, T>) returns (rs: seq<Row<T>>)
    ensures forall i :: 0 <= i < |rs| ==> rs[i].id in m && rs[i].val == m[rs[i].id]
    ensures forall id :: id in m ==> Row(id, m[id]) in rs
    ensures forall i, j :: 0 <= i < j < |rs| ==> rs[i].id != rs[j].id
  {
    rs := [];
    var todo := m.Keys;
    while todo != {}
      invariant todo <= m.Keys
      invariant forall i :: 0 <= i < |rs| ==> rs[i].id in m.Keys - todo && rs[i].val == m[rs[i].id]
      invariant forall id :: id in m.Keys - todo ==> Row(id, m[id]) in rs
      invariant forall i, j :: 0 <= i < j < |rs| ==> rs[i].id != rs[j].id
      decreases todo
    {
      var k :| k in todo;
      rs := rs + [Row(k, m[k])];
      todo := todo - {k};
    }
  }

  /** `findMany({ where: p, orderBy: le })`. */
  method FindMany<T(==,!new)>(m: map<Id, T>, p: Row<T> -> bool, le: (Row<T>, Row<T>) -> bool)
    returns (rs: seq<Row<T>>)
    requires TotalPreorder(le)
    ensures IsSelection(rs, m, p) && Sorted(rs, le)
  {
    var all := Rows(m);
    rs := SortBy(Filter(all, p), le);
    SortByCorrect(Filter(all, p), le);
    SortedHitsAreSelection(all, m, p, le);
  }

  /** `findMany({ where: p })` without `orderBy`: the rows come in an order
      the store chooses. */
  method FindAll<T(==,!new)>(m: map<Id, T>, p: Row<T> -> bool) returns (rs: seq<Row<T>>)
    ensures IsSelection(rs, m, p)
  {
    rs := FindMany(m, p, (a: Row<T>, b: Row<T>) => true);
  }

  /** Filtering an enumeration of m by p and sorting the hits selects exactly
      the entries of m satisfying p. */
  lemma SortedHitsAreSelection<T(!new)>(all: seq<Row<T>>, m: map<Id, T>, p: Row<T> -> bool, le: (Row<T>, Row<T>) -> bool)
    requires forall i :: 0 <= i < |all| ==> all[i].id in m && all[i].val == m[all[i].id]
    requires forall id :: id in m ==> Row(id, m[id]) in all
    requires forall i, j :: 0 <= i < j < |all| ==> all[i].id != all[j].id
    ensures IsSelection(SortBy(Filter(all, p), le), m, p)
  {
    var hits := Filter(all, p);
    var rs := SortBy(hits, le);
    assert multiset(rs) == multiset(hits);
    forall i | 0 <= i < |rs| ensures rs[i].id in m && rs[i].val == m[rs[i].id] && p(rs[i]) {
      assert rs[i] in multiset(hits);
    }
    forall id | id in m && p(Row(id, m[id])) ensures Row(id, m[id]) in rs {
      var k :| 0 <= k < |all| && all[k] == Row(id, m[id]);
      assert all[k] in hits;
      assert Row(id, m[id]) in multiset(rs);
    }
    assert NoDup(all);
    FilterNoDup(all, p);
    NoDupSameMultiset(hits, rs);
    forall i, j | 0 <= i < j < |rs| ensures rs[i].id != rs[j].id {
      assert rs[i].val == m[rs[i].id] && rs[j].val == m[rs[j].id];
    }
  }

  /** A permutation of a duplicate-free sequence is duplicate-free. */
  lemma NoDupSameMultiset<T>(s: seq<T>, r: seq<T>)
    requires NoDup(s) && multiset(r) == multiset(s)
    ensures NoDup(r)
  {
    forall i, j | 0 <= i < j < |r| ensures r[i] != r[j] {
      if r[i] == r[j] {
        assert r == r[..i] + [r[i]] + r[i + 1..j] + [r[j]] + r[j + 1..];
        assert multiset(r)[r[i]] >= 2;
        NoDupCount(s, r[i]);
      }
    }
  }

  lemma {:induction false} NoDupCount<T>(s: seq<T>, x: T)
    requires NoDup(s)
    ensures multiset(s)[x] <= 1
  {
    if s != [] {
      assert s == [s[0]] + s[1..];
      NoDupCount(s[1..], x);
      if s[0] == x {
        assert x !in s[1..];
      }
    }
  }
}
