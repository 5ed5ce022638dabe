/**
 * The in-memory file system the front end uses in place of the server: a
 * dictionary from paths to records, where a folder's record also lists its
 * children. The dictionary's keys keep their insertion order, as the keys
 * of a JavaScript object do.
 */
module MockFileApi {
  import opened Wrappers
  import opened JsString
  import opened Seqs
  import FolderManager

  /** An entry of a folder's `children` list. */
  datatype Child = Child(kind: string, name: string, path: string, modified: int)

  /** The record stored under a path. */
  datatype Record = Record(kind: string, name: string, path: string, children: Option<seq<Child>>, modified: int)

  /** The dictionary: its keys in insertion order, and the records. */
  datatype Fs = Fs(keys: seq<string>, files: map<string, Record>)

  /** The key order lists every key exactly once. */
  ghost predicate FsOk(fs: Fs) {
    NoDup(fs.keys) && forall k :: k in fs.keys <==> k in fs.files
  }

  datatype Outcome<T> = Done(value: T) | Failed(message: string)

  const FolderExists := "文件夹已存在"
  const ItemMissing := "文件不存在"

  // ---------------------------------------------------------------------
  // paths

  /** `.replace('//', '/')`: the first double slash becomes one slash. */
  function ReplaceDoubleSlash(s: string): (r: string)
    ensures FolderManager.SingleSlashes(s) ==> r == s
    ensures !FolderManager.SingleSlashes(s) ==> |r| == |s| - 1
    decreases |s|
  {
    if |s| < 2 then s
    else if s[0] == '/' && s[1] == '/' then s[1..]
    else
      assert !FolderManager.SingleSlashes(s) ==> !FolderManager.SingleSlashes(s[1..]);
      [s[0]] + ReplaceDoubleSlash(s[1..])
  }

  /** `` `${dir}/${name}`.replace('//', '/') ``. */
  function JoinPath(dir: string, name: string): string {
    ReplaceDoubleSlash(dir + "/" + name)
  }

  /** `p.split('/').slice(0, -1).join('/') || '/'`. */
  function ParentKey(p: string): string {
    var d := DropLastSegment(p, '/');
    if d == "" then "/" else d
  }

  /** A folder path as the mock writes them: `/`, or slash-led with single slashes and no trailing one. */
  predicate CleanDir(dir: string) {
    dir == "/" || (|dir| > 1 && dir[0] == '/' && dir[|dir| - 1] != '/' && FolderManager.SingleSlashes(dir))
  }

  /** A name placed in a clean folder has that folder as its parent key, and the name as its last segment. */
  lemma ParentOfJoined(dir: string, name: string)
    requires CleanDir(dir) && name != "" && '/' !in name
    ensures JoinPath(dir, name) != dir
    ensures ParentKey(JoinPath(dir, name)) == dir && LastSegment(JoinPath(dir, name), '/') == name
    ensures CleanDir(JoinPath(dir, name))
  {
    var s := dir + "/" + name;
    if dir == "/" {
      assert s[1..] == "/" + name;
      assert !FolderManager.SingleSlashes(s) by {
        assert s[0] == '/' && s[1] == '/';
      }
      SplitAtLastUnique("/" + name, '/', "", name);
    } else {
      assert FolderManager.SingleSlashes(s) by {
        forall i | 0 <= i < |s| - 1
          ensures !(s[i] == '/' && s[i + 1] == '/')
        {
          if i + 1 < |dir| {
            assert s[i] == dir[i] && s[i + 1] == dir[i + 1];
          } else if i + 1 == |dir| {
            assert s[i] == dir[|dir| - 1];
          } else {
            assert s[i + 1] == name[i - |dir|];
          }
        }
      }
      SplitAtLastUnique(s, '/', dir, name);
    }
  }

  // ---------------------------------------------------------------------
  // queries

  /** `getFiles`: the folder's children, an empty list for a record without them, or an error for an unknown path. */
  function GetFiles(fs: Fs, path: Option<string>): (r: Outcome<seq<Child>>)
    ensures r.Failed? <==> path.GetOr("/") !in fs.files
    ensures r.Done? && path.GetOr("/") in fs.files && fs.files[path.GetOr("/")].children.Some? ==>
              r.value == fs.files[path.GetOr("/")].children.value
  {
    var p := path.GetOr("/");
    if p !in fs.files then Failed("Path not found: " + p)
    else Done(fs.files[p].children.GetOr([]))
  }

  predicate IsChildKey(path: string, k: string) {
    k != path && ParentKey(k) == path
  }

  function ChildOf(path: string): string -> bool {
    (k: string) => IsChildKey(path, k)
  }

  /** An entry of `getFolderChildren`. */
  datatype FolderEntry = FolderEntry(kind: string, name: string, path: string, hasChildren: bool)

  /** The paths of `getFolderChildren` entries; the stores keep their own lists of other record types. */
  function EntryPaths(es: seq<FolderEntry>): (r: seq<string>)
    ensures |r| == |es| && forall i :: 0 <= i < |es| ==> r[i] == es[i].path
  {
    seq(|es|, i requires 0 <= i < |es| => es[i].path)
  }

  /** Some key lies under `p + '/'`. */
  predicate HasDescendant(keys: seq<string>, p: string) {
    exists i :: 0 <= i < |keys| && StartsWith(keys[i], p + "/")
  }

  /** `getFolderChildren`: one folder entry per key, in key order, whose parent key is `path`. */
  function GetFolderChildren(fs: Fs, path: string): (r: seq<FolderEntry>)
    requires FsOk(fs)
  {
    var ks := Filter(fs.keys, ChildOf(path));
    seq(|ks|, i requires 0 <= i < |ks| => FolderEntry("folder", fs.files[ks[i]].name, ks[i], HasDescendant(fs.keys, ks[i])))
  }

  /** The entries are exactly the keys other than `path` whose parent key is `path`, each once, named as their records. */
  lemma GetFolderChildrenExact(fs: Fs, path: string, k: string)
    requires FsOk(fs)
    ensures k in EntryPaths(GetFolderChildren(fs, path)) <==> k in fs.files && IsChildKey(path, k)
    ensures NoDup(EntryPaths(GetFolderChildren(fs, path)))
    ensures forall e :: e in GetFolderChildren(fs, path) ==> e.path in fs.files && e.name == fs.files[e.path].name
  {
    var ks := Filter(fs.keys, ChildOf(path));
    FilterNoDup(fs.keys, ChildOf(path));
    assert EntryPaths(GetFolderChildren(fs, path)) == ks;
    if k in fs.files && IsChildKey(path, k) {
      var i :| 0 <= i < |fs.keys| && fs.keys[i] == k;
      assert ChildOf(path)(fs.keys[i]);
    }
    if k in ks {
      var i :| 0 <= i < |ks| && ks[i] == k;
      assert ChildOf(path)(ks[i]);
    }
  }

  // ---------------------------------------------------------------------
  // createFolder

  /** The new folder's record, with no children yet. */
  function NewFolder(name: string, newPath: string, now: int): Record {
    Record("folder", name, newPath, Some([]), now)
  }

  /** The parent's record with `c` appended to its children, when it has a children list. */
  function WithChild(files: map<string, Record>, parent: string, c: Child): map<string, Record> {
    if parent in files && files[parent].children.Some? then
      files[parent := files[parent].(children := Some(files[parent].children.value + [c]))]
    else files
  }

  /** `createFolder`'s effect: nothing if the key exists; otherwise the new record, and the parent's new child. */
  function Created(fs: Fs, path: string, name: string, now: int): Fs {
    var newPath := JoinPath(path, name);
    if newPath in fs.files then fs
    else
      var files := fs.files[newPath := NewFolder(name, newPath, now)];
      Fs(fs.keys + [newPath], WithChild(files, path, Child("folder", name, newPath, now)))
  }

  /**
   * Creating keeps the dictionary well formed, adds the new key last with an
   * empty folder under it, gives a parent with a children list exactly one
   * more entry, and leaves every other record as it was.
   */
  lemma CreatedSpec(fs: Fs, path: string, name: string, now: int)
    requires FsOk(fs)
    ensures var newPath := JoinPath(path, name);
            var after := Created(fs, path, name, now);
            && FsOk(after)
            && (newPath in fs.files ==> after == fs)
            && (newPath !in fs.files ==>
                  && after.keys == fs.keys + [newPath]
                  && (newPath != path ==> after.files[newPath] == NewFolder(name, newPath, now))
                  && (path in fs.files && fs.files[path].children.Some? ==>
                        after.files[path] == fs.files[path].(children := Some(fs.files[path].children.value + [Child("folder", name, newPath, now)])))
                  && (forall k :: k in fs.files && k != path ==> after.files[k] == fs.files[k]))
  {
    var newPath := JoinPath(path, name);
    if newPath !in fs.files {
      NoDupSnoc(fs.keys, newPath);
    }
  }

  /** A folder created in a clean folder is listed among that folder's children and lists nothing itself. */
  lemma CreatedIsListed(fs: Fs, path: string, name: string, now: int)
    requires FsOk(fs) && CleanDir(path) && name != "" && '/' !in name
    requires JoinPath(path, name) !in fs.files
    ensures var after := Created(fs, path, name, now);
            && JoinPath(path, name) in EntryPaths(GetFolderChildren(after, path))
            && GetFiles(after, Some(JoinPath(path, name))) == Done([])
  {
    var after := Created(fs, path, name, now);
    ParentOfJoined(path, name);
    CreatedSpec(fs, path, name, now);
    GetFolderChildrenExact(after, path, JoinPath(path, name));
  }

  // ---------------------------------------------------------------------
  // deleteItems

  function NotKey(p: string): string -> bool {
    (k: string) => k != p
  }

  function NotChildAt(p: string): Child -> bool {
    (c: Child) => c.path != p
  }

  /** One path of `deleteItems`: its key goes, and its parent's children lose every entry with that path. */
  function DeletedOne(fs: Fs, p: string): Fs {
    var files := fs.files - {p};
    var keys := Filter(fs.keys, NotKey(p));
    var parentPath := ParentKey(p);
    if parentPath in files && files[parentPath].children.Some? then
      Fs(keys, files[parentPath := files[parentPath].(children := Some(Filter(files[parentPath].children.value, NotChildAt(p))))])
    else Fs(keys, files)
  }

  /** `deleteItems`: the paths, one after the other. */
  function Deleted(fs: Fs, paths: seq<string>): Fs
    decreases |paths|
  {
    if |paths| == 0 then fs else DeletedOne(Deleted(fs, paths[..|paths| - 1]), paths[|paths| - 1])
  }

  /**
   * Deleting one path keeps the dictionary well formed, removes the key and
   * its parent's entries for it, and keeps every other key with its kind,
   * name and path.
   */
  lemma DeletedOneSpec(fs: Fs, p: string)
    requires FsOk(fs)
    ensures var after := DeletedOne(fs, p);
            && FsOk(after)
            && p !in after.files
            && (forall k :: k in after.files <==> k in fs.files && k != p)
            && (forall k :: k in after.files && k != ParentKey(p) ==> after.files[k] == fs.files[k])
            && (forall k :: k in after.files ==> after.files[k].(children := None) == fs.files[k].(children := None))
            && (ParentKey(p) in after.files && after.files[ParentKey(p)].children.Some? ==>
                  forall c :: c in after.files[ParentKey(p)].children.value ==> c.path != p)
            && (ParentKey(p) in fs.files && ParentKey(p) != p && fs.files[ParentKey(p)].children.Some? ==>
                  after.files[ParentKey(p)].children == Some(Filter(fs.files[ParentKey(p)].children.value, NotChildAt(p))))
  {
    DeletedOneKeys(fs, p);
    var parentPath := ParentKey(p);
    var files := fs.files - {p};
    if parentPath in files && files[parentPath].children.Some? {
      ChildrenWithout(files[parentPath].children.value, p);
    }
  }

  /** Deleting one path keeps the dictionary well formed and drops exactly that key, other records keeping all but their children. */
  lemma DeletedOneKeys(fs: Fs, p: string)
    requires FsOk(fs)
    ensures var after := DeletedOne(fs, p);
            && FsOk(after)
            && (forall k :: k in after.files <==> k in fs.files && k != p)
            && (forall k :: k in after.files ==> after.files[k].(children := None) == fs.files[k].(children := None))
  {
    KeysWithout(fs.keys, p);
  }

  /** Filtering a key out of the key order keeps it duplicate-free and drops exactly that key. */
  lemma KeysWithout(ks: seq<string>, p: string)
    requires NoDup(ks)
    ensures NoDup(Filter(ks, NotKey(p)))
    ensures forall k :: k in Filter(ks, NotKey(p)) <==> k in ks && k != p
  {
    FilterNoDup(ks, NotKey(p));
    var keys := Filter(ks, NotKey(p));
    forall k | k in ks && k != p
      ensures k in keys
    {
      var i :| 0 <= i < |ks| && ks[i] == k;
      assert NotKey(p)(ks[i]);
    }
    forall k | k in keys
      ensures k != p
    {
      var i :| 0 <= i < |keys| && keys[i] == k;
      assert NotKey(p)(keys[i]);
    }
  }

  /** Filtering the children by path leaves no child with that path. */
  lemma ChildrenWithout(cs: seq<Child>, p: string)
    ensures forall c :: c in Filter(cs, NotChildAt(p)) ==> c.path != p
  {
    var kept := Filter(cs, NotChildAt(p));
    forall c | c in kept
      ensures c.path != p
    {
      var i :| 0 <= i < |kept| && kept[i] == c;
      assert NotChildAt(p)(kept[i]);
    }
  }

  /** After `deleteItems` none of the paths is a key, and every other key is still there with its kind and name. */
  lemma {:induction false} DeletedSpec(fs: Fs, paths: seq<string>)
    requires FsOk(fs)
    ensures var after := Deleted(fs, paths);
            && FsOk(after)
            && (forall k :: k in after.files <==> k in fs.files && k !in paths)
            && (forall k :: k in after.files ==> after.files[k].(children := None) == fs.files[k].(children := None))
    decreases |paths|
  {
    if |paths| > 0 {
      var init := paths[..|paths| - 1];
      DeletedSpec(fs, init);
      DeletedStep(fs, Deleted(fs, init), init, paths[|paths| - 1]);
      assert paths == init + [paths[|paths| - 1]];
    }
  }

  /** One more path of `deleteItems`, given what the earlier ones left. */
  lemma DeletedStep(fs: Fs, prev: Fs, done: seq<string>, p: string)
    requires FsOk(prev)
    requires forall k :: k in prev.files <==> k in fs.files && k !in done
    requires forall k :: k in prev.files ==> prev.files[k].(children := None) == fs.files[k].(children := None)
    ensures var after := DeletedOne(prev, p);
            && FsOk(after)
            && (forall k :: k in after.files <==> k in fs.files && k !in done + [p])
            && (forall k :: k in after.files ==> after.files[k].(children := None) == fs.files[k].(children := None))
  {
    DeletedOneKeys(prev, p);
  }

  /** Deleting a folder just created in a clean folder restores the dictionary. */
  lemma CreateThenDelete(fs: Fs, path: string, name: string, now: int)
    requires FsOk(fs) && CleanDir(path) && name != "" && '/' !in name
    requires JoinPath(path, name) !in fs.files
    requires path in fs.files && fs.files[path].children.Some? ==>
               forall c :: c in fs.files[path].children.value ==> c.path != JoinPath(path, name)
    ensures Deleted(Created(fs, path, name, now), [JoinPath(path, name)]) == fs
  {
    var newPath := JoinPath(path, name);
    ParentOfJoined(path, name);
    var c := Child("folder", name, newPath, now);
    var mid := Created(fs, path, name, now);
    assert mid == Fs(fs.keys + [newPath], WithChild(fs.files[newPath := NewFolder(name, newPath, now)], path, c));
    assert [newPath][..0] == [];
    assert Deleted(mid, [newPath]) == DeletedOne(mid, newPath);
    UnappendKey(fs.keys, newPath);
    FilesRestored(fs.files, newPath, NewFolder(name, newPath, now), path, c);
  }

  /**
   * Storing a fresh key with an entry for it under the parent, then removing
   * the key and the parent's entries for it, restores the records.
   */
  lemma FilesRestored(m: map<string, Record>, newPath: string, v: Record, path: string, c: Child)
    requires newPath !in m && path != newPath && c.path == newPath
    requires path in m && m[path].children.Some? ==> forall x :: x in m[path].children.value ==> x.path != newPath
    ensures var files := WithChild(m[newPath := v], path, c) - {newPath};
            (if path in files && files[path].children.Some? then
               files[path := files[path].(children := Some(Filter(files[path].children.value, NotChildAt(newPath))))]
             else files) == m
  {
    var stored := m[newPath := v];
    if path in m && m[path].children.Some? {
      var cs := m[path].children.value;
      var grown := m[path].(children := Some(cs + [c]));
      assert WithChild(stored, path, c) == stored[path := grown];
      MapStoreDrop(m, newPath, v, path, grown);
      UnappendChild(cs, c);
      assert grown.(children := Some(Filter(cs + [c], NotChildAt(newPath)))) == m[path];
      MapRestore(m, path, grown);
    } else {
      assert WithChild(stored, path, c) == stored;
      assert stored - {newPath} == m;
    }
  }

  /** Putting a key's old record back over an update undoes the update. */
  lemma MapRestore(m: map<string, Record>, p: string, w: Record)
    requires p in m
    ensures m[p := w][p := m[p]] == m
  {
  }

  /** Storing under a fresh key, updating another, then dropping the fresh key, only updates the other. */
  lemma MapStoreDrop(m: map<string, Record>, k: string, v: Record, p: string, w: Record)
    requires k !in m && p != k
    ensures m[k := v][p := w] - {k} == m[p := w]
  {
  }

  /** Filtering out a key just appended to an order without it gives the order back. */
  lemma UnappendKey(keys: seq<string>, k: string)
    requires k !in keys
    ensures Filter(keys + [k], NotKey(k)) == keys
  {
    FilterAppend(keys, [k], NotKey(k));
    FilterAll(keys, NotKey(k));
    assert Filter([k], NotKey(k)) == [];
  }

  /** Filtering out a child just appended to a list without its path gives the list back. */
  lemma UnappendChild(cs: seq<Child>, c: Child)
    requires forall x :: x in cs ==> x.path != c.path
    ensures Filter(cs + [c], NotChildAt(c.path)) == cs
  {
    FilterAppend(cs, [c], NotChildAt(c.path));
    FilterAll(cs, NotChildAt(c.path));
    assert Filter([c], NotChildAt(c.path)) == [];
  }

  // ---------------------------------------------------------------------
  // renameItem

  /** `findIndex(child => child.path === path)`. */
  function FindChild(cs: seq<Child>, path: string): (r: int)
    ensures -1 <= r < |cs|
    ensures r >= 0 ==> cs[r].path == path && forall i :: 0 <= i < r ==> cs[i].path != path
    ensures r == -1 ==> forall i :: 0 <= i < |cs| ==> cs[i].path != path
    decreases |cs|
  {
    if |cs| == 0 then -1
    else if cs[0].path == path then 0
    else
      var r := FindChild(cs[1..], path);
      if r == -1 then -1 else r + 1
  }

  /** The parent's first entry for the old path, renamed and moved, when there is one. */
  function RenamedChildren(cs: seq<Child>, oldPath: string, newName: string, newPath: string, now: int): (r: seq<Child>)
    ensures |r| == |cs|
    ensures forall j :: 0 <= j < |cs| && cs[j].path != oldPath ==> r[j] == cs[j]
    ensures forall j :: 0 <= j < |cs| && cs[j].path == oldPath ==>
              r[j] == if forall k :: 0 <= k < j ==> cs[k].path != oldPath
                      then cs[j].(name := newName, path := newPath, modified := now)
                      else cs[j]
  {
    var i := FindChild(cs, oldPath);
    if i > -1 then cs[i := cs[i].(name := newName, path := newPath, modified := now)] else cs
  }

  /** The record stored under the new path (its key appended if new), then the old key deleted. */
  function Moved(fs: Fs, oldPath: string, newPath: string, rec: Record): Fs {
    var keys := if newPath in fs.keys then fs.keys else fs.keys + [newPath];
    Fs(Filter(keys, NotKey(oldPath)), fs.files[newPath := rec] - {oldPath})
  }

  /** The parent's entry for the old path, rewritten, when the parent has a children list. */
  function RewriteParent(files: map<string, Record>, parentPath: string, oldPath: string, newName: string,
                         newPath: string, now: int): map<string, Record>
  {
    if parentPath in files && files[parentPath].children.Some? then
      var cs := files[parentPath].children.value;
      files[parentPath := files[parentPath].(children := Some(RenamedChildren(cs, oldPath, newName, newPath, now)))]
    else files
  }

  /**
   * `renameItem`'s effect: the record is stored under `parent/newName` with
   * the new name and path, then the old key is deleted, then the parent's
   * entry is rewritten. Nothing happens for a missing key.
   */
  function Renamed(fs: Fs, oldPath: string, newName: string, now: int): Fs {
    if oldPath !in fs.files then fs
    else
      var item := fs.files[oldPath];
      var parentPath := ParentKey(oldPath);
      var newPath := JoinPath(parentPath, newName);
      var moved := Moved(fs, oldPath, newPath, item.(name := newName, path := newPath, modified := now));
      Fs(moved.keys, RewriteParent(moved.files, parentPath, oldPath, newName, newPath, now))
  }

  /** Filtering a key out of a duplicate-free order removes exactly that key. */
  lemma FilterOutKey(keys: seq<string>, p: string)
    requires NoDup(keys)
    ensures NoDup(Filter(keys, NotKey(p)))
    ensures forall k :: k in Filter(keys, NotKey(p)) <==> k in keys && k != p
  {
    FilterNoDup(keys, NotKey(p));
    var keys' := Filter(keys, NotKey(p));
    forall k | k in keys && k != p
      ensures k in keys'
    {
      var i :| 0 <= i < |keys| && keys[i] == k;
      assert NotKey(p)(keys[i]);
    }
    forall k | k in keys'
      ensures k != p
    {
      var i :| 0 <= i < |keys'| && keys'[i] == k;
      assert NotKey(p)(keys'[i]);
    }
  }

  /** Storing under a key, appended to the order when new, keeps the order in step. */
  lemma StoredOk(fs: Fs, newPath: string, rec: Record)
    requires FsOk(fs)
    ensures FsOk(Fs(if newPath in fs.keys then fs.keys else fs.keys + [newPath], fs.files[newPath := rec]))
  {
    if newPath !in fs.keys {
      NoDupSnoc(fs.keys, newPath);
    }
  }

  /** Deleting a key and filtering it out of the order keeps the order in step. */
  lemma RemovedOk(fs: Fs, p: string)
    requires FsOk(fs)
    ensures FsOk(Fs(Filter(fs.keys, NotKey(p)), fs.files - {p}))
  {
    FilterOutKey(fs.keys, p);
  }

  /** Moving keeps the key order in step with the records. */
  lemma MovedOk(fs: Fs, oldPath: string, newPath: string, rec: Record)
    requires FsOk(fs)
    ensures FsOk(Moved(fs, oldPath, newPath, rec))
  {
    var stored := Fs(if newPath in fs.keys then fs.keys else fs.keys + [newPath], fs.files[newPath := rec]);
    StoredOk(fs, newPath, rec);
    RemovedOk(stored, oldPath);
  }

  lemma RenamedOk(fs: Fs, oldPath: string, newName: string, now: int)
    requires FsOk(fs)
    ensures FsOk(Renamed(fs, oldPath, newName, now))
  {
    if oldPath in fs.files {
      var item := fs.files[oldPath];
      var parentPath := ParentKey(oldPath);
      var newPath := JoinPath(parentPath, newName);
      var rec := item.(name := newName, path := newPath, modified := now);
      MovedOk(fs, oldPath, newPath, rec);
      var moved := Moved(fs, oldPath, newPath, rec);
      assert RewriteParent(moved.files, parentPath, oldPath, newName, newPath, now).Keys == moved.files.Keys;
    }
  }

  /**
   * Renaming keeps the dictionary well formed. The old key is gone; when the
   * new path differs from it, the record sits under the new path with the
   * new name; and every key other than the old, new and parent paths keeps
   * its record, so keys under the old path are not moved.
   */
  lemma RenamedSpec(fs: Fs, oldPath: string, newName: string, now: int)
    requires FsOk(fs)
    ensures var after := Renamed(fs, oldPath, newName, now);
            var parentPath := ParentKey(oldPath);
            var newPath := JoinPath(parentPath, newName);
            && FsOk(after)
            && (oldPath !in fs.files ==> after == fs)
            && (oldPath in fs.files ==>
                  && oldPath !in after.files
                  && (newPath != oldPath ==>
                        && newPath in after.files
                        && after.files[newPath].name == newName && after.files[newPath].path == newPath
                        && after.files[newPath].kind == fs.files[oldPath].kind
                        && (newPath != parentPath ==> after.files[newPath].children == fs.files[oldPath].children))
                  && (forall k :: k in fs.files && k != oldPath && k != newPath && k != parentPath ==>
                        k in after.files && after.files[k] == fs.files[k])
                  && (parentPath in fs.files && parentPath != oldPath && parentPath != newPath
                      && fs.files[parentPath].children.Some? ==>
                        after.files[parentPath] == fs.files[parentPath].(children :=
                          Some(RenamedChildren(fs.files[parentPath].children.value, oldPath, newName, newPath, now)))))
  {
    if oldPath in fs.files {
      var item := fs.files[oldPath];
      var parentPath := ParentKey(oldPath);
      var newPath := JoinPath(parentPath, newName);
      var rec := item.(name := newName, path := newPath, modified := now);
      MovedOk(fs, oldPath, newPath, rec);
      var moved := Moved(fs, oldPath, newPath, rec);
      var files := RewriteParent(moved.files, parentPath, oldPath, newName, newPath, now);
      assert Renamed(fs, oldPath, newName, now) == Fs(moved.keys, files);
      RewriteParentFrame(moved.files, parentPath, oldPath, newName, newPath, now);
      MoveFrame(fs.files, oldPath, newPath, parentPath, rec, files);
    }
  }

  /**
   * What survives a move followed by a change to the parent's children
   * only: the old key is gone, the moved record keeps all but its children
   * when it is the parent, and every other key keeps its record.
   */
  lemma MoveFrame(m: map<string, Record>, oldPath: string, newPath: string, parentPath: string, rec: Record,
                  files: map<string, Record>)
    requires oldPath in m
    requires files.Keys == (m[newPath := rec] - {oldPath}).Keys
    requires forall k :: k in files && k != parentPath ==> files[k] == (m[newPath := rec] - {oldPath})[k]
    requires parentPath in files ==>
               files[parentPath].(children := None) == (m[newPath := rec] - {oldPath})[parentPath].(children := None)
    ensures oldPath !in files
    ensures newPath != oldPath ==>
              && newPath in files
              && files[newPath].name == rec.name && files[newPath].path == rec.path && files[newPath].kind == rec.kind
              && (newPath != parentPath ==> files[newPath].children == rec.children)
    ensures forall k :: k in m && k != oldPath && k != newPath && k != parentPath ==> k in files && files[k] == m[k]
  {
    var moved := m[newPath := rec] - {oldPath};
    if newPath != oldPath {
      assert newPath in moved && moved[newPath] == rec;
    }
  }

  /** Rewriting the parent's entry changes no key and no record but the parent's. */
  lemma RewriteParentFrame(files: map<string, Record>, parentPath: string, oldPath: string, newName: string,
                           newPath: string, now: int)
    ensures var r := RewriteParent(files, parentPath, oldPath, newName, newPath, now);
            && r.Keys == files.Keys
            && (forall k :: k in files && k != parentPath ==> r[k] == files[k])
            && (parentPath in files ==> r[parentPath].(children := None) == files[parentPath].(children := None))
  {
  }

  /** Renaming an item to the name it already has deletes it. */
  lemma RenameToOwnNameDeletes(fs: Fs, oldPath: string, now: int)
    requires FsOk(fs) && oldPath in fs.files && CleanDir(oldPath) && oldPath != "/"
    ensures oldPath !in Renamed(fs, oldPath, LastSegment(oldPath, '/'), now).files
    ensures JoinPath(ParentKey(oldPath), LastSegment(oldPath, '/')) == oldPath
  {
    var name := LastSegment(oldPath, '/');
    var d := DropLastSegment(oldPath, '/');
    SplitAtLast(oldPath, '/');
    assert oldPath[0] == '/';
    assert oldPath == d + "/" + name;
    if d == "" {
      var s := "/" + "/" + name;
      assert s[0] == '/' && s[1] == '/';
      assert ReplaceDoubleSlash(s) == s[1..] == oldPath;
    } else {
      assert d + "/" + name == oldPath;
    }
    RenamedSpec(fs, oldPath, name, now);
  }

  // ---------------------------------------------------------------------
  // the mock itself

  class MockFileSystem {
    var keys: seq<string>
    var files: map<string, Record>

    function State(): Fs
      reads this
    {
      Fs(keys, files)
    }

    ghost predicate Valid()
      reads this
    {
      FsOk(State())
    }

    /** The dictionary starts from a given tree. */
    constructor (seed: Fs)
      requires FsOk(seed)
      ensures Valid() && State() == seed
    {
      keys := seed.keys;
      files := seed.files;
    }

    method CreateFolder(path: string, name: string, now: int) returns (r: Outcome<bool>)
      requires Valid()
      modifies this
      ensures Valid() && State() == Created(old(State()), path, name, now)
      ensures r == if JoinPath(path, name) in old(files) then Failed(FolderExists) else Done(true)
    {
      CreatedSpec(State(), path, name, now);
      var newPath := JoinPath(path, name);
      if newPath in files {
        return Failed(FolderExists);
      }
      files := files[newPath := NewFolder(name, newPath, now)];
      keys := keys + [newPath];
      if path in files && files[path].children.Some? {
        var parent := files[path];
        files := files[path := parent.(children := Some(parent.children.value + [Child("folder", name, newPath, now)]))];
      }
      r := Done(true);
    }

    method DeleteItems(paths: seq<string>) returns (r: bool)
      requires Valid()
      modifies this
      ensures Valid() && State() == Deleted(old(State()), paths)
      ensures r
    {
      for i := 0 to |paths|
        invariant Valid() && State() == Deleted(old(State()), paths[..i])
      {
        var path := paths[i];
        DeletedOneSpec(State(), path);
        assert paths[..i + 1][..i] == paths[..i];
        files := files - {path};
        keys := Filter(keys, NotKey(path));
        var parentPath := ParentKey(path);
        if parentPath in files && files[parentPath].children.Some? {
          var parent := files[parentPath];
          files := files[parentPath := parent.(children := Some(Filter(parent.children.value, NotChildAt(path))))];
        }
      }
      assert paths[..|paths|] == paths;
      r := true;
    }

    method RenameItem(oldPath: string, newName: string, now: int) returns (r: Outcome<bool>)
      requires Valid()
      modifies this
      ensures Valid() && State() == Renamed(old(State()), oldPath, newName, now)
      ensures r == if oldPath in old(files) then Done(true) else Failed(ItemMissing)
    {
      RenamedOk(State(), oldPath, newName, now);
      if oldPath !in files {
        return Failed(ItemMissing);
      }
      var item := files[oldPath];
      var parentPath := ParentKey(oldPath);
      var newPath := JoinPath(parentPath, newName);
      MoveRecord(oldPath, newPath, item.(name := newName, path := newPath, modified := now));
      RewriteParentEntry(parentPath, oldPath, newName, newPath, now);
      r := Done(true);
    }

    /** The first half of `renameItem`: store under the new path, delete the old key. */
    method MoveRecord(oldPath: string, newPath: string, rec: Record)
      modifies this
      ensures State() == Moved(old(State()), oldPath, newPath, rec)
    {
      if newPath !in keys {
        keys := keys + [newPath];
      }
      files := files[newPath := rec];
      files := files - {oldPath};
      keys := Filter(keys, NotKey(oldPath));
    }

    /** The second half of `renameItem`: rewrite the parent's entry for the old path. */
    method RewriteParentEntry(parentPath: string, oldPath: string, newName: string, newPath: string, now: int)
      modifies this`files
      ensures files == RewriteParent(old(files), parentPath, oldPath, newName, newPath, now)
    {
      if parentPath in files && files[parentPath].children.Some? {
        var parent := files[parentPath];
        var itemIndex := FindChild(parent.children.value, oldPath);
        if itemIndex > -1 {
          var cs := parent.children.value;
          files := files[parentPath := parent.(children := Some(cs[itemIndex := cs[itemIndex].(name := newName, path := newPath, modified := now)]))];
        }
      }
    }
  }
}
