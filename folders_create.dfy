/**
 * Folder creation (`/api/manage/folders/create`): one folder per request,
 * or a list of folders created one after the other.
 *
 * A folder is a KV record `folder:<fullPath>` holding a `Folder` value and
 * a small metadata object. When a folder is created below the root, the
 * record at the computed parent key (if any) gains the new folder as a child
 * and is written back without metadata.
 */
module FolderCreate {
  import opened Wrappers
  import opened JsString
  import opened Seqs
  import opened Kv

  const NameRequired: string := "文件夹名称不能为空"
  const NameIllegal: string := "文件夹名称包含非法字符"
  const AlreadyExists: string := "文件夹已存在"
  const ListEmpty: string := "文件夹列表不能为空"
  const TooMany: string := "单次最多创建50个文件夹"
  const BadFormat: string := "文件夹名称格式不正确"
  const MaxBatch: nat := 50

  /** A character the folder-name pattern refuses: one of `<>:"/\|?*` or a control character. */
  predicate Forbidden(c: char) {
    c in "<>:\"/\\|?*" || (c as int) < 32
  }

  /** The folder-name pattern `^[^<>:"/\\|?*\x00-\x1f]+$`. */
  predicate ValidName(s: string) {
    |s| > 0 && forall i :: 0 <= i < |s| ==> !Forbidden(s[i])
  }

  /** `path` with a trailing `/` ensured. */
  function FolderPath(path: string): (r: string)
    ensures EndsWith(r, "/")
    ensures r == path || r == path + "/"
    ensures EndsWith(path, "/") ==> r == path
  {
    if EndsWith(path, "/") then path else path + "/"
  }

  lemma FolderPathIdempotent(path: string)
    ensures FolderPath(FolderPath(path)) == FolderPath(path)
  {
  }

  /**
   * The key the creation code updates as the parent:
   * `folderPath.slice(0, -1).split('/').slice(0, -1).join('/') || '/'`.
   */
  function ParentPath(folderPath: string): (r: string)
    ensures r != ""
  {
    var inner := if |folderPath| == 0 then "" else folderPath[..|folderPath| - 1];
    var d := DropLastSegment(inner, '/');
    if d == "" then "/" else d
  }

  /** The parent key is never longer than the folder path it comes from. */
  lemma ParentPathShorter(folderPath: string)
    requires |folderPath| >= 2
    ensures |ParentPath(folderPath)| < |folderPath|
  {
    DropLastSegmentShorter(folderPath[..|folderPath| - 1], '/');
  }

  /**
   * A folder created in directory `dir` (so with folder path `dir + "/"`) is
   * not registered with the folder `dir` itself: the parent key drops one
   * segment too many.
   */
  lemma ParentPathSkipsDirectory(dir: string)
    requires dir != "/"
    ensures ParentPath(dir + "/") != dir
  {
    var fp := dir + "/";
    assert fp[..|fp| - 1] == dir;
    var d := DropLastSegment(dir, '/');
    SplitAtLast(dir, '/');
    DropLastSegmentShorter(dir, '/');
    if '/' in dir {
      assert |d| < |dir|;
    } else {
      assert d == "";
      assert '/' in ParentPath(fp);
    }
  }

  /** The metadata stored beside a folder record. */
  function FolderMeta(name: string, folderPath: string, createdAt: int): (r: Meta)
    ensures r.kind == Some("folder") && r.path == Some(folderPath)
    ensures r.name == Some(name) && r.createdAt == Some(createdAt)
    ensures r.fileName.None? && r.timeStamp.None?
  {
    NoMeta.(kind := Some("folder"), path := Some(folderPath), name := Some(name),
            createdAt := Some(createdAt))
  }

  /** A fresh folder record: empty, with its creation and update times equal. */
  function NewFolder(name: string, folderPath: string, description: string, permissions: string,
                     tags: seq<string>, now: int): (r: Folder)
    ensures r.fullPath == folderPath + name && r.path == folderPath && r.name == name
    ensures r.itemCount == 0 && r.size == 0 && r.children == []
    ensures r.createdAt == r.updatedAt == now && r.kind == "folder"
  {
    Folder(name, folderPath, folderPath + name, "folder", description, permissions, tags,
           now, now, 0, 0, [])
  }

  /** The record stored for a new folder. */
  function FolderRecord(f: Folder): Record {
    Record(FolderBlob(f), Some(FolderMeta(f.name, f.path, f.createdAt)))
  }

  /**
   * The parent update: the folder at `parentPath`, when there is one, gains
   * `kids` at the end of its children, its item count rises by their number,
   * its update time becomes `now`, and it is written back without metadata.
   */
  function WithChildren(m: Store, parentPath: string, kids: seq<FolderChild>, now: int): (r: Store)
    ensures FolderOf(m, parentPath).None? ==> r == m
    ensures forall k :: k != FolderKey(parentPath) ==> (k in r <==> k in m)
    ensures forall k :: k in m && k != FolderKey(parentPath) ==> r[k] == m[k]
    ensures FolderOf(m, parentPath).Some? ==>
              var p := FolderOf(m, parentPath).value;
              && FolderOf(r, parentPath).Some?
              && var q := FolderOf(r, parentPath).value;
              && q.children == p.children + kids
              && q.itemCount == p.itemCount + |kids|
              && q.updatedAt == now
              && q.(children := p.children, itemCount := p.itemCount, updatedAt := p.updatedAt) == p
              && r[FolderKey(parentPath)].metadata.None?
  {
    match FolderOf(m, parentPath)
    case None => m
    case Some(p) =>
      var q := p.(children := p.children + kids, itemCount := p.itemCount + |kids|, updatedAt := now);
      m[FolderKey(parentPath) := Record(FolderBlob(q), None)]
  }

  /** The store after a single folder `f` was created under `folderPath`. */
  function AfterCreate(m: Store, folderPath: string, f: Folder, now: int): Store {
    var m1 := m[FolderKey(f.fullPath) := FolderRecord(f)];
    if folderPath == "/" then m1
    else WithChildren(m1, ParentPath(folderPath), [FolderChild(f.name, "folder", f.fullPath)], now)
  }

  /**
   * After a creation the new folder is stored under its key with its
   * metadata, and no key other than the folder's and its parent's changed.
   */
  lemma CreateStoresFolder(m: Store, folderPath: string, f: Folder, now: int)
    requires |folderPath| >= 1 && |f.name| >= 1 && f.fullPath == folderPath + f.name
    ensures var r := AfterCreate(m, folderPath, f, now);
            && FolderKey(f.fullPath) in r
            && r[FolderKey(f.fullPath)] == FolderRecord(f)
            && forall k :: k != FolderKey(f.fullPath) && k != FolderKey(ParentPath(folderPath)) ==>
                 (k in r <==> k in m) && (k in m ==> r[k] == m[k])
  {
    if folderPath != "/" {
      KeysInjective();
      if |folderPath| >= 2 {
        ParentPathShorter(folderPath);
      }
      assert ParentPath(folderPath) != f.fullPath;
    }
  }

  /**
   * Creating a folder below the root, when the parent record exists, gives
   * that record exactly one more child, the new folder, and one more item.
   */
  lemma CreateUpdatesParent(m: Store, folderPath: string, f: Folder, now: int)
    requires |folderPath| >= 1 && |f.name| >= 1 && f.fullPath == folderPath + f.name
    requires folderPath != "/" && FolderOf(m, ParentPath(folderPath)).Some?
    ensures var r := AfterCreate(m, folderPath, f, now);
            var p := FolderOf(m, ParentPath(folderPath)).value;
            && FolderOf(r, ParentPath(folderPath)).Some?
            && var q := FolderOf(r, ParentPath(folderPath)).value;
            && q.children == p.children + [FolderChild(f.name, "folder", f.fullPath)]
            && q.itemCount == p.itemCount + 1
            && q.(children := p.children, itemCount := p.itemCount, updatedAt := p.updatedAt) == p
  {
    KeysInjective();
    if |folderPath| >= 2 {
      ParentPathShorter(folderPath);
    }
    var m1 := m[FolderKey(f.fullPath) := FolderRecord(f)];
    assert FolderKey(ParentPath(folderPath)) != FolderKey(f.fullPath);
    assert FolderOf(m1, ParentPath(folderPath)) == FolderOf(m, ParentPath(folderPath));
  }

  datatype Response =
    | BadRequest(error: string)
    | Conflict(error: string)
    | Created(folder: Folder)
    | Completed(results: seq<Made>, errors: seq<Failure>, summary: Summary)

  /** A folder a batch created, under the name it was given. */
  datatype Made = Made(name: string, path: string)
  /** A folder a batch refused, with the reason. */
  datatype Failure = Failure(name: string, error: string)
  datatype Summary = Summary(total: nat, success: nat, failed: nat)

  /** One element of a batch request. */
  datatype FolderInput = FolderInput(name: Option<string>, description: Option<string>,
                                     permissions: Option<string>, tags: Option<seq<string>>)

  /**
   * POST with a single folder. A missing or empty name is refused, then a
   * trimmed name the pattern refuses, then an existing folder; otherwise the
   * folder is stored and its parent record updated.
   */
  method CreateFolder(kv: KvStore, name: Option<string>, path: Option<string>,
                      description: Option<string>, permissions: Option<string>,
                      tags: Option<seq<string>>, now: int)
    returns (resp: Response)
    modifies kv
    ensures !Truthy(name) ==> resp == BadRequest(NameRequired)
    ensures Truthy(name) && !ValidName(Trim(name.value)) ==> resp == BadRequest(NameIllegal)
    ensures Truthy(name) && ValidName(Trim(name.value)) ==>
              var folderPath := FolderPath(path.GetOr("/"));
              var fullPath := folderPath + Trim(name.value);
              && (FolderKey(fullPath) in old(kv.entries) ==> resp == Conflict(AlreadyExists))
              && (FolderKey(fullPath) !in old(kv.entries) ==>
                    resp == Created(NewFolder(Trim(name.value), folderPath,
                                              Trim(description.GetOr("")),
                                              permissions.GetOr("public"), tags.GetOr([]), now)))
    ensures resp.Created? ==>
              kv.entries == AfterCreate(old(kv.entries), FolderPath(path.GetOr("/")), resp.folder, now)
    ensures !resp.Created? ==> kv.entries == old(kv.entries)
  {
    if !Truthy(name) {
      return BadRequest(NameRequired);
    }
    if !ValidName(Trim(name.value)) {
      return BadRequest(NameIllegal);
    }
    var folderName := Trim(name.value);
    var folderPath := FolderPath(path.GetOr("/"));
    var fullPath := folderPath + folderName;
    if FolderKey(fullPath) in kv.entries {
      return Conflict(AlreadyExists);
    }
    var folder := NewFolder(folderName, folderPath, Trim(description.GetOr("")),
                            permissions.GetOr("public"), tags.GetOr([]), now);
    StoreFolder(kv, folderPath, folder, now);
    resp := Created(folder);
  }

  /** The writes of a creation: the folder record, then the record at the parent key. */
  method StoreFolder(kv: KvStore, folderPath: string, folder: Folder, now: int)
    modifies kv
    ensures kv.entries == AfterCreate(old(kv.entries), folderPath, folder, now)
  {
    kv.Put(FolderKey(folder.fullPath), FolderRecord(folder));
    if folderPath != "/" {
      var parentPath := ParentPath(folderPath);
      var parent := FolderOf(kv.entries, parentPath);
      if parent.Some? {
        var p := parent.value;
        var kids := p.children + [FolderChild(folder.name, "folder", folder.fullPath)];
        kv.Put(FolderKey(parentPath),
               Record(FolderBlob(p.(children := kids, itemCount := p.itemCount + 1, updatedAt := now)), None));
      }
    }
  }

  /** What a batch has produced so far: the store, the created folders and the refusals. */
  datatype Progress = Progress(store: Store, results: seq<Made>, errors: seq<Failure>)

  /** The outcome of validating one batch element and looking up its key in `seen`. */
  datatype Check = Check(name: string, fullPath: string, present: bool, invalid: bool)

  function CheckOf(seen: Store, folderPath: string, f: FolderInput): (c: Check)
    ensures c.invalid <==> !Truthy(f.name) || !ValidName(Trim(f.name.value))
    ensures c.invalid ==> c.name == OrText(f.name, "unnamed")
    ensures !c.invalid ==> c.name == f.name.value && c.fullPath == folderPath + Trim(f.name.value)
                           && (c.present <==> FolderKey(c.fullPath) in seen)
  {
    if !Truthy(f.name) || !ValidName(Trim(f.name.value)) then
      Check(OrText(f.name, "unnamed"), "", false, true)
    else
      var fullPath := folderPath + Trim(f.name.value);
      Check(f.name.value, fullPath, FolderKey(fullPath) in seen, false)
  }

  /** The folder a batch stores for element `f` (description, permissions and tags defaulted with `||`). */
  function BatchFolder(c: Check, folderPath: string, f: FolderInput, now: int): Folder {
    NewFolder(Trim(c.name), folderPath, OrText(f.description, ""), OrText(f.permissions, "public"),
              f.tags.GetOr([]), now)
  }

  /** One batch element handled after its check `c`. */
  function Apply(p: Progress, c: Check, folderPath: string, f: FolderInput, now: int): (r: Progress)
    ensures |r.results| + |r.errors| == |p.results| + |p.errors| + 1
  {
    if c.invalid then p.(errors := p.errors + [Failure(c.name, BadFormat)])
    else if c.present then p.(errors := p.errors + [Failure(c.name, AlreadyExists)])
    else
      p.(store := p.store[FolderKey(c.fullPath) := FolderRecord(BatchFolder(c, folderPath, f, now))],
         results := p.results + [Made(c.name, c.fullPath)])
  }

  /**
   * The batch of `onRequestPost_Batch`: each element is checked against the
   * store as the earlier elements left it.
   */
  function CreateAll(m: Store, folderPath: string, folders: seq<FolderInput>, now: int): Progress
    decreases |folders|
  {
    if |folders| == 0 then Progress(m, [], [])
    else
      var p := CreateAll(m, folderPath, folders[..|folders| - 1], now);
      var f := folders[|folders| - 1];
      Apply(p, CheckOf(p.store, folderPath, f), folderPath, f, now)
  }

  function PathsOf(rs: seq<Made>): (r: seq<string>)
    ensures |r| == |rs| && forall i :: 0 <= i < |rs| ==> r[i] == rs[i].path
  {
    seq(|rs|, i requires 0 <= i < |rs| => rs[i].path)
  }

  /** Every element ends in exactly one of the two lists. */
  lemma {:induction false} CreateAllCounts(m: Store, folderPath: string, folders: seq<FolderInput>, now: int)
    ensures var p := CreateAll(m, folderPath, folders, now);
            |p.results| + |p.errors| == |folders|
    decreases |folders|
  {
    if |folders| > 0 {
      CreateAllCounts(m, folderPath, folders[..|folders| - 1], now);
    }
  }

  /**
   * The batch invariant: every created folder was absent from `m` and is in
   * the store, the created paths are distinct, and nothing of `m` was removed.
   */
  predicate FreshResults(m: Store, p: Progress) {
    && (forall i :: 0 <= i < |p.results| ==>
          FolderKey(p.results[i].path) !in m && FolderKey(p.results[i].path) in p.store)
    && NoDup(PathsOf(p.results))
    && (forall k :: k in m ==> k in p.store)
  }

  /** One element handled after a check against the current store keeps the invariant. */
  lemma ApplyKeepsFresh(m: Store, q: Progress, c: Check, folderPath: string, f: FolderInput, now: int)
    requires FreshResults(m, q)
    requires !c.invalid ==> (c.present <==> FolderKey(c.fullPath) in q.store)
    ensures FreshResults(m, Apply(q, c, folderPath, f, now))
  {
    var p := Apply(q, c, folderPath, f, now);
    if !c.invalid && !c.present {
      assert p.results == q.results + [Made(c.name, c.fullPath)];
      assert PathsOf(p.results) == PathsOf(q.results) + [c.fullPath];
      forall i | 0 <= i < |p.results|
        ensures FolderKey(p.results[i].path) !in m && FolderKey(p.results[i].path) in p.store
      {
        if i < |q.results| {
          assert p.results[i] == q.results[i];
        }
      }
      forall i | 0 <= i < |q.results|
        ensures PathsOf(q.results)[i] != c.fullPath
      {
        assert FolderKey(q.results[i].path) in q.store;
      }
    }
  }

  /**
   * Every folder the batch created was absent before it and is stored
   * afterwards, and no path is created twice: a name repeated later in the
   * same request is refused as existing.
   */
  lemma {:induction false} CreateAllFresh(m: Store, folderPath: string, folders: seq<FolderInput>, now: int)
    ensures FreshResults(m, CreateAll(m, folderPath, folders, now))
    decreases |folders|
  {
    if |folders| > 0 {
      var q := CreateAll(m, folderPath, folders[..|folders| - 1], now);
      CreateAllFresh(m, folderPath, folders[..|folders| - 1], now);
      var f := folders[|folders| - 1];
      ApplyKeepsFresh(m, q, CheckOf(q.store, folderPath, f), folderPath, f, now);
    }
  }

  /** The same valid new name twice in one request: the first is created, the second refused. */
  lemma RepeatedNameRefused(m: Store, folderPath: string, f: FolderInput, now: int)
    requires Truthy(f.name) && ValidName(Trim(f.name.value))
    requires FolderKey(folderPath + Trim(f.name.value)) !in m
    ensures var p := CreateAll(m, folderPath, [f, f], now);
            && p.results == [Made(f.name.value, folderPath + Trim(f.name.value))]
            && p.errors == [Failure(f.name.value, AlreadyExists)]
  {
    assert [f, f][..1] == [f];
    assert [f][..0] == [];
    var c := CheckOf(m, folderPath, f);
    var p1 := Apply(Progress(m, [], []), c, folderPath, f, now);
    assert CreateAll(m, folderPath, [f], now) == p1;
    assert p1.results == [Made(f.name.value, folderPath + Trim(f.name.value))];
    assert FolderKey(folderPath + Trim(f.name.value)) in p1.store;
  }

  /**
   * POST with a list of folders (`onRequestPost_Batch`): an absent or empty
   * list and a list of more than 50 are refused; otherwise the elements are
   * handled in order and the response summarises them.
   */
  method CreateBatch(kv: KvStore, folders: Option<seq<FolderInput>>, path: Option<string>, now: int)
    returns (resp: Response)
    modifies kv
    ensures (folders.None? || |folders.value| == 0) ==> resp == BadRequest(ListEmpty)
    ensures folders.Some? && |folders.value| > MaxBatch ==> resp == BadRequest(TooMany)
    ensures folders.Some? && 0 < |folders.value| <= MaxBatch ==>
              var p := CreateAll(old(kv.entries), FolderPath(path.GetOr("/")), folders.value, now);
              && resp == Completed(p.results, p.errors,
                                   Summary(|folders.value|, |p.results|, |p.errors|))
              && kv.entries == p.store
    ensures resp.BadRequest? ==> kv.entries == old(kv.entries)
  {
    if folders.None? || |folders.value| == 0 {
      return BadRequest(ListEmpty);
    }
    var list := folders.value;
    if |list| > MaxBatch {
      return BadRequest(TooMany);
    }
    var folderPath := FolderPath(path.GetOr("/"));
    var results: seq<Made> := [];
    var errors: seq<Failure> := [];
    ghost var m0 := kv.entries;
    for i := 0 to |list|
      invariant CreateAll(m0, folderPath, list[..i], now) == Progress(kv.entries, results, errors)
    {
      assert list[..i + 1][..i] == list[..i];
      results, errors := CreateOne(kv, folderPath, list[i], now, results, errors);
    }
    assert list[..|list|] == list;
    CreateAllCounts(m0, folderPath, list, now);
    resp := Completed(results, errors, Summary(|list|, |results|, |errors|));
  }

  /** One element of the batch, handled against the store as it stands. */
  method CreateOne(kv: KvStore, folderPath: string, f: FolderInput, now: int,
                   results0: seq<Made>, errors0: seq<Failure>)
    returns (results: seq<Made>, errors: seq<Failure>)
    modifies kv
    ensures Progress(kv.entries, results, errors)
            == Apply(Progress(old(kv.entries), results0, errors0), CheckOf(old(kv.entries), folderPath, f), folderPath, f, now)
  {
    results, errors := results0, errors0;
    if !Truthy(f.name) || !ValidName(Trim(f.name.value)) {
      errors := errors + [Failure(OrText(f.name, "unnamed"), BadFormat)];
      return;
    }
    var fullPath := folderPath + Trim(f.name.value);
    if FolderKey(fullPath) in kv.entries {
      errors := errors + [Failure(f.name.value, AlreadyExists)];
      return;
    }
    var folder := NewFolder(Trim(f.name.value), folderPath, OrText(f.description, ""),
                            OrText(f.permissions, "public"), f.tags.GetOr([]), now);
    kv.Put(FolderKey(fullPath), FolderRecord(folder));
    results := results + [Made(f.name.value, fullPath)];
  }
}
