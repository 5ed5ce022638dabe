/**
 * Batch folder creation (`/api/manage/folders/batch-create`).
 *
 * Unlike the batch of the single-folder endpoint, every element is checked
 * against the store as it was before the request, and only then are the
 * folders written one by one. The parent record is updated once, after all
 * folders, with one child per created folder.
 */
module FolderBatchCreate {
  import opened Wrappers
  import opened JsString
  import opened Seqs
  import opened Kv
  import FolderCreate

  type Progress = FolderCreate.Progress
  type Made = FolderCreate.Made
  type Failure = FolderCreate.Failure
  type FolderInput = FolderCreate.FolderInput

  datatype Summary = Summary(total: nat, success: nat, failed: nat)

  datatype Response =
    | BadRequest(error: string)
    | Completed(results: seq<Made>, errors: seq<Failure>, summary: Summary)

  /** The folders written in order, each checked against the store `m0` from before the request. */
  function CreateChecked(m0: Store, folderPath: string, folders: seq<FolderInput>, now: int): Progress
    decreases |folders|
  {
    if |folders| == 0 then FolderCreate.Progress(m0, [], [])
    else
      var p := CreateChecked(m0, folderPath, folders[..|folders| - 1], now);
      var f := folders[|folders| - 1];
      FolderCreate.Apply(p, FolderCreate.CheckOf(m0, folderPath, f), folderPath, f, now)
  }

  /** The children the parent gains: one per created folder, in order, under its given name. */
  function ChildrenOf(rs: seq<Made>): (r: seq<FolderChild>)
    ensures |r| == |rs|
    ensures forall i :: 0 <= i < |rs| ==> r[i] == FolderChild(rs[i].name, "folder", rs[i].path)
  {
    seq(|rs|, i requires 0 <= i < |rs| => FolderChild(rs[i].name, "folder", rs[i].path))
  }

  /** The store after the loop and the parent update. */
  function Finish(m: Store, results: seq<Made>, folderPath: string, now: int): Store {
    if |results| > 0 && folderPath != "/" then
      FolderCreate.WithChildren(m, FolderCreate.ParentPath(folderPath), ChildrenOf(results), now)
    else m
  }

  /** Every element ends in exactly one of the two lists. */
  lemma {:induction false} CreateCheckedCounts(m0: Store, folderPath: string, folders: seq<FolderInput>, now: int)
    ensures var p := CreateChecked(m0, folderPath, folders, now);
            |p.results| + |p.errors| == |folders|
    decreases |folders|
  {
    if |folders| > 0 {
      CreateCheckedCounts(m0, folderPath, folders[..|folders| - 1], now);
    }
  }

  /**
   * The loop's effect on the store: every created folder was absent from
   * `m0` and is stored, and no key as short as `folder:<folderPath>` changed.
   */
  ghost predicate Written(m0: Store, folderPath: string, p: Progress) {
    && (forall i :: 0 <= i < |p.results| ==>
          FolderKey(p.results[i].path) !in m0 && FolderKey(p.results[i].path) in p.store)
    && (forall k :: k in m0 ==> k in p.store)
    && (forall k :: |k| <= |FolderKey(folderPath)| ==>
          (k in p.store <==> k in m0) && (k in m0 ==> p.store[k] == m0[k]))
  }

  lemma ApplyKeepsWritten(m0: Store, folderPath: string, q: Progress, f: FolderInput, now: int)
    requires Written(m0, folderPath, q)
    ensures Written(m0, folderPath,
                    FolderCreate.Apply(q, FolderCreate.CheckOf(m0, folderPath, f), folderPath, f, now))
  {
    var c := FolderCreate.CheckOf(m0, folderPath, f);
    if !c.invalid && !c.present {
      var key := FolderKey(c.fullPath);
      var rec := FolderCreate.FolderRecord(FolderCreate.BatchFolder(c, folderPath, f, now));
      assert |Trim(f.name.value)| > 0;
      assert |key| > |FolderKey(folderPath)|;
      assert key !in m0;
      PutKeepsWritten(m0, folderPath, q, key, rec, FolderCreate.Made(c.name, c.fullPath));
    }
  }

  /** Storing a longer key that was absent from `m0`, and recording it as created, keeps `Written`. */
  lemma PutKeepsWritten(m0: Store, folderPath: string, q: Progress, key: string, rec: Record, made: FolderCreate.Made)
    requires Written(m0, folderPath, q)
    requires key == FolderKey(made.path) && key !in m0 && |key| > |FolderKey(folderPath)|
    ensures Written(m0, folderPath, q.(store := q.store[key := rec], results := q.results + [made]))
  {
    var p := q.(store := q.store[key := rec], results := q.results + [made]);
    forall i | 0 <= i < |p.results|
      ensures FolderKey(p.results[i].path) !in m0 && FolderKey(p.results[i].path) in p.store
    {
      if i < |q.results| {
        assert p.results[i] == q.results[i];
      }
    }
  }

  lemma {:induction false} CreateCheckedWritten(m0: Store, folderPath: string, folders: seq<FolderInput>, now: int)
    ensures Written(m0, folderPath, CreateChecked(m0, folderPath, folders, now))
    decreases |folders|
  {
    if |folders| > 0 {
      CreateCheckedWritten(m0, folderPath, folders[..|folders| - 1], now);
      ApplyKeepsWritten(m0, folderPath, CreateChecked(m0, folderPath, folders[..|folders| - 1], now),
                        folders[|folders| - 1], now);
    }
  }

  /**
   * When at least one folder was created below the root and the parent
   * record exists, the parent gains one child per created folder, in order,
   * and its item count rises by their number; nothing else of it changes
   * but its update time.
   */
  lemma FinishUpdatesParent(m0: Store, folderPath: string, folders: seq<FolderInput>, now: int)
    requires EndsWith(folderPath, "/") && folderPath != "/"
    requires FolderOf(m0, FolderCreate.ParentPath(folderPath)).Some?
    ensures var p := CreateChecked(m0, folderPath, folders, now);
            var before := FolderOf(m0, FolderCreate.ParentPath(folderPath)).value;
            |p.results| > 0 ==>
              && FolderOf(Finish(p.store, p.results, folderPath, now), FolderCreate.ParentPath(folderPath)).Some?
              && var after := FolderOf(Finish(p.store, p.results, folderPath, now), FolderCreate.ParentPath(folderPath)).value;
              && after.children == before.children + ChildrenOf(p.results)
              && after.itemCount == before.itemCount + |p.results|
              && after.(children := before.children, itemCount := before.itemCount,
                        updatedAt := before.updatedAt) == before
  {
    var p := CreateChecked(m0, folderPath, folders, now);
    var parent := FolderCreate.ParentPath(folderPath);
    CreateCheckedWritten(m0, folderPath, folders, now);
    FolderCreate.ParentPathShorter(folderPath);
    assert |FolderKey(parent)| <= |FolderKey(folderPath)|;
    assert FolderOf(p.store, parent) == FolderOf(m0, parent);
  }

  /**
   * The same valid new name twice in one request: both pass the check made
   * before any write, so both are reported as created, under one path, and
   * the parent would gain that path twice.
   */
  lemma RepeatedNameCreatedTwice(m0: Store, folderPath: string, f: FolderInput, now: int)
    requires Truthy(f.name) && FolderCreate.ValidName(Trim(f.name.value))
    requires FolderKey(folderPath + Trim(f.name.value)) !in m0
    ensures var p := CreateChecked(m0, folderPath, [f, f], now);
            var made := FolderCreate.Made(f.name.value, folderPath + Trim(f.name.value));
            && p.results == [made, made]
            && p.errors == []
            && !NoDup(FolderCreate.PathsOf(p.results))
  {
    var c := FolderCreate.CheckOf(m0, folderPath, f);
    var made := FolderCreate.Made(f.name.value, folderPath + Trim(f.name.value));
    assert !c.invalid && !c.present && FolderCreate.Made(c.name, c.fullPath) == made;
    CheckedTwice(m0, folderPath, f, now);
    var p1 := FolderCreate.Apply(FolderCreate.Progress(m0, [], []), c, folderPath, f, now);
    ApplyFresh(FolderCreate.Progress(m0, [], []), c, folderPath, f, now);
    ApplyFresh(p1, c, folderPath, f, now);
    var p := FolderCreate.Apply(p1, c, folderPath, f, now);
    assert p.results == [made, made];
    assert FolderCreate.PathsOf(p.results)[0] == FolderCreate.PathsOf(p.results)[1];
  }

  /** Two copies of one element are both checked against the first store. */
  lemma CheckedTwice(m0: Store, folderPath: string, f: FolderInput, now: int)
    ensures var c := FolderCreate.CheckOf(m0, folderPath, f);
            CreateChecked(m0, folderPath, [f, f], now)
              == FolderCreate.Apply(FolderCreate.Apply(FolderCreate.Progress(m0, [], []), c, folderPath, f, now),
                                    c, folderPath, f, now)
  {
    CheckedSnoc(m0, folderPath, [], f, now);
    assert [] + [f] == [f];
    CheckedSnoc(m0, folderPath, [f], f, now);
    assert [f] + [f] == [f, f];
  }

  /** `CheckedSnoc` at position `i` of a list. */
  lemma CheckedStep(m0: Store, folderPath: string, list: seq<FolderInput>, i: int, now: int)
    requires 0 <= i < |list|
    ensures CreateChecked(m0, folderPath, list[..i + 1], now)
              == FolderCreate.Apply(CreateChecked(m0, folderPath, list[..i], now),
                                    FolderCreate.CheckOf(m0, folderPath, list[i]), folderPath, list[i], now)
  {
    CheckedSnoc(m0, folderPath, list[..i], list[i], now);
    assert list[..i] + [list[i]] == list[..i + 1];
  }

  /** One more element is checked against the first store and applied to the progress so far. */
  lemma CheckedSnoc(m0: Store, folderPath: string, fs: seq<FolderInput>, f: FolderInput, now: int)
    ensures CreateChecked(m0, folderPath, fs + [f], now)
              == FolderCreate.Apply(CreateChecked(m0, folderPath, fs, now), FolderCreate.CheckOf(m0, folderPath, f),
                                    folderPath, f, now)
  {
    assert (fs + [f])[..|fs|] == fs;
  }

  /** A check that passes adds one result and no error. */
  lemma ApplyFresh(p: FolderCreate.Progress, c: FolderCreate.Check, folderPath: string, f: FolderInput, now: int)
    requires !c.invalid && !c.present
    ensures FolderCreate.Apply(p, c, folderPath, f, now).results == p.results + [FolderCreate.Made(c.name, c.fullPath)]
    ensures FolderCreate.Apply(p, c, folderPath, f, now).errors == p.errors
  {
  }

  /** The existence checks (`Promise.all` over the elements), all made against the store before any write. */
  method CheckAll(kv: KvStore, folderPath: string, folders: seq<FolderInput>)
    returns (checks: seq<FolderCreate.Check>)
    ensures |checks| == |folders|
    ensures forall j :: 0 <= j < |folders| ==> checks[j] == FolderCreate.CheckOf(kv.entries, folderPath, folders[j])
  {
    var m := kv.entries;
    checks := seq(|folders|, j requires 0 <= j < |folders| => FolderCreate.CheckOf(m, folderPath, folders[j]));
  }

  /** The parent update after the loop, when something was created below the root. */
  method UpdateParent(kv: KvStore, folderPath: string, results: seq<Made>, now: int)
    modifies kv
    ensures kv.entries == Finish(old(kv.entries), results, folderPath, now)
  {
    if |results| > 0 && folderPath != "/" {
      var parentPath := FolderCreate.ParentPath(folderPath);
      var parent := FolderOf(kv.entries, parentPath);
      if parent.Some? {
        var p := parent.value;
        var kids := p.children;
        for i := 0 to |results|
          invariant kids == p.children + ChildrenOf(results[..i])
        {
          assert ChildrenOf(results[..i + 1]) == ChildrenOf(results[..i]) + [FolderChild(results[i].name, "folder", results[i].path)];
          kids := kids + [FolderChild(results[i].name, "folder", results[i].path)];
        }
        assert results[..|results|] == results;
        kv.Put(FolderKey(parentPath),
               Record(FolderBlob(p.(children := kids, itemCount := p.itemCount + |results|, updatedAt := now)), None));
      }
    }
  }

  /**
   * POST: an absent or empty list and a list of more than 50 are refused.
   * Otherwise all elements are checked against the store first, the valid
   * new ones are written in order, and the parent record is updated once.
   */
  method BatchCreate(kv: KvStore, folders: Option<seq<FolderInput>>, path: Option<string>, now: int)
    returns (resp: Response)
    modifies kv
    ensures (folders.None? || |folders.value| == 0) ==> resp == BadRequest(FolderCreate.ListEmpty)
    ensures folders.Some? && |folders.value| > FolderCreate.MaxBatch ==>
              resp == BadRequest(FolderCreate.TooMany)
    ensures folders.Some? && 0 < |folders.value| <= FolderCreate.MaxBatch ==>
              var folderPath := FolderCreate.FolderPath(path.GetOr("/"));
              var p := CreateChecked(old(kv.entries), folderPath, folders.value, now);
              && resp == Completed(p.results, p.errors,
                                   Summary(|folders.value|, |p.results|, |p.errors|))
              && kv.entries == Finish(p.store, p.results, folderPath, now)
    ensures resp.BadRequest? ==> kv.entries == old(kv.entries)
  {
    if folders.None? || |folders.value| == 0 {
      return BadRequest(FolderCreate.ListEmpty);
    }
    var list := folders.value;
    if |list| > FolderCreate.MaxBatch {
      return BadRequest(FolderCreate.TooMany);
    }
    var folderPath := FolderCreate.FolderPath(path.GetOr("/"));
    ghost var m0 := kv.entries;
    var checks := CheckAll(kv, folderPath, list);
    var results, errors := WriteChecked(kv, folderPath, list, checks, now);
    UpdateParent(kv, folderPath, results, now);
    CreateCheckedCounts(m0, folderPath, list, now);
    resp := Completed(results, errors, Summary(|list|, |results|, |errors|));
  }

  /** One loop iteration: a failed check is reported, a passed one written and listed. */
  method ApplyOne(kv: KvStore, check: FolderCreate.Check, folderPath: string, f: FolderInput, now: int,
                  results0: seq<Made>, errors0: seq<Failure>)
    returns (results: seq<Made>, errors: seq<Failure>)
    modifies kv
    ensures FolderCreate.Progress(kv.entries, results, errors)
              == FolderCreate.Apply(FolderCreate.Progress(old(kv.entries), results0, errors0), check, folderPath, f, now)
  {
    results, errors := results0, errors0;
    if check.invalid {
      errors := errors + [FolderCreate.Failure(check.name, FolderCreate.BadFormat)];
      return;
    }
    if check.present {
      errors := errors + [FolderCreate.Failure(check.name, FolderCreate.AlreadyExists)];
      return;
    }
    var folder := FolderCreate.BatchFolder(check, folderPath, f, now);
    kv.Put(FolderKey(check.fullPath), FolderCreate.FolderRecord(folder));
    results := results + [FolderCreate.Made(check.name, check.fullPath)];
  }

  /** The loop over the elements, each written or reported as its early check decided. */
  method WriteChecked(kv: KvStore, folderPath: string, list: seq<FolderInput>, checks: seq<FolderCreate.Check>, now: int)
    returns (results: seq<Made>, errors: seq<Failure>)
    requires |checks| == |list|
    requires forall j :: 0 <= j < |list| ==> checks[j] == FolderCreate.CheckOf(kv.entries, folderPath, list[j])
    modifies kv
    ensures CreateChecked(old(kv.entries), folderPath, list, now) == FolderCreate.Progress(kv.entries, results, errors)
  {
    ghost var m0 := kv.entries;
    results := [];
    errors := [];
    for i := 0 to |list|
      invariant CreateChecked(m0, folderPath, list[..i], now) == FolderCreate.Progress(kv.entries, results, errors)
    {
      CheckedStep(m0, folderPath, list, i, now);
      results, errors := ApplyOne(kv, checks[i], folderPath, list[i], now, results, errors);
    }
    assert list[..|list|] == list;
  }
}
