/**
 * Adding many files to one favourite group
 * (`/api/manage/batch/favorites/add`).
 *
 * The group's list is read once, grows in memory while the files are
 * processed in request order, and is written back once at the end; the
 * mirror entry of each added file is written as soon as the file is added.
 */
module BatchFavorites {
  import opened Wrappers
  import opened Seqs
  import opened Kv
  import opened FileIds
  import Favorites

  datatype Outcome = Added | Skipped

  datatype FileError = FileError(file: string, error: string)

  datatype Results = Results(successCount: nat, failedCount: nat, skippedCount: nat,
                             totalFiles: nat, errors: seq<FileError>)

  datatype Response =
    | MethodNotAllowed
    | BadRequest(error: string)
    | NotFound(error: string)
    | ServerError(error: string)
    | Completed(results: Results)
  {
    function Status(): int {
      match this
      case MethodNotAllowed => 405
      case BadRequest(_) => 400
      case NotFound(_) => 404
      case ServerError(_) => 500
      case Completed(_) => 200
    }
  }

  /** The store, the in-memory group list and the outcome of each file processed so far. */
  datatype Progress = Progress(store: Store, files: seq<FavoriteEntry>, outcomes: seq<Outcome>)

  /**
   * The loop over `paths`, starting from the store `m` and the group list
   * `files0`. The file processed at position `i` gets the id `ids(i)` if
   * it is added.
   */
  function AddAll(m: Store, groupId: string, files0: seq<FavoriteEntry>, paths: seq<string>,
                  ids: nat -> string, now: int): (r: Progress)
    ensures |r.outcomes| == |paths|
  {
    if |paths| == 0 then Progress(m, files0, [])
    else
      AddStep(AddAll(m, groupId, files0, paths[..|paths| - 1], ids, now), groupId, paths[|paths| - 1], ids(|paths| - 1), now)
  }

  /**
   * One iteration: a file already in the group is skipped, any other is
   * added under `id`. The file's record is read with `getWithMetadata`,
   * which answers every key with an object, so the `!fileRecord` test never
   * fails a file and an id with no record is added like any other.
   */
  function AddStep(prev: Progress, groupId: string, path: string, id: string, now: int): (r: Progress)
    ensures |r.outcomes| == |prev.outcomes| + 1
  {
    if Favorites.InGroup(prev.files, path) then
      Progress(prev.store, prev.files, prev.outcomes + [Skipped])
    else
      var entry := FavoriteEntry(id, path, groupId, now, "");
      Progress(Favorites.WithFileFavorite(prev.store, path, entry), prev.files + [entry], prev.outcomes + [Added])
  }

  /** The store after the loop and the final write of the group list. */
  function Stored(groupId: string, r: Progress): Store {
    r.store[GroupFilesKey(groupId) := Record(GroupFiles(r.files), None)]
  }

  function Occurrences(outcomes: seq<Outcome>, o: Outcome): (n: nat)
    ensures n <= |outcomes|
  {
    if |outcomes| == 0 then 0
    else Occurrences(outcomes[..|outcomes| - 1], o) + (if outcomes[|outcomes| - 1] == o then 1 else 0)
  }

  /**
   * The `results` object of the response, built from the outcomes. Only an
   * exception thrown while a file is processed counts it as failed.
   */
  function Tally(paths: seq<string>, outcomes: seq<Outcome>): (r: Results)
    requires |paths| == |outcomes|
    ensures r.totalFiles == |paths|
    ensures r.successCount == Occurrences(outcomes, Added)
    ensures r.skippedCount == Occurrences(outcomes, Skipped)
    ensures r.failedCount == 0 && r.errors == []
    ensures r.successCount + r.failedCount + r.skippedCount == r.totalFiles
  {
    if |paths| == 0 then Results(0, 0, 0, 0, [])
    else
      TallyStep(Tally(paths[..|paths| - 1], outcomes[..|outcomes| - 1]), paths[|paths| - 1], outcomes[|outcomes| - 1])
  }

  /** The counters after one more file with outcome `o`. */
  function TallyStep(prev: Results, path: string, o: Outcome): Results {
    var total := prev.totalFiles + 1;
    match o
    case Added => prev.(successCount := prev.successCount + 1, totalFiles := total)
    case Skipped => prev.(skippedCount := prev.skippedCount + 1, totalFiles := total)
  }

  // ---------------------------------------------------------------------
  // what the loop guarantees

  lemma InGroupGrows(a: seq<FavoriteEntry>, b: seq<FavoriteEntry>, path: string)
    requires a <= b && Favorites.InGroup(a, path)
    ensures Favorites.InGroup(b, path)
  {
    var i :| 0 <= i < |a| && a[i].fileId == path;
    assert b[i] == a[i];
  }

  /** The loop only appends to the group list, and keys only appear. */
  lemma {:induction false} AddAllGrows(m: Store, groupId: string, files0: seq<FavoriteEntry>,
                                       paths: seq<string>, ids: nat -> string, now: int)
    ensures var r := AddAll(m, groupId, files0, paths, ids, now);
            files0 <= r.files && m.Keys <= r.store.Keys
  {
    if |paths| > 0 {
      AddAllGrows(m, groupId, files0, paths[..|paths| - 1], ids, now);
    }
  }

  /** One entry is appended per file added: `successCount` is the growth of the group list. */
  lemma {:induction false} AddAllCountsAdded(m: Store, groupId: string, files0: seq<FavoriteEntry>,
                                             paths: seq<string>, ids: nat -> string, now: int)
    ensures var r := AddAll(m, groupId, files0, paths, ids, now);
            |r.files| == |files0| + Occurrences(r.outcomes, Added)
  {
    if |paths| > 0 {
      var r := AddAll(m, groupId, files0, paths, ids, now);
      var prev := AddAll(m, groupId, files0, paths[..|paths| - 1], ids, now);
      AddAllCountsAdded(m, groupId, files0, paths[..|paths| - 1], ids, now);
      assert r.outcomes[..|r.outcomes| - 1] == prev.outcomes;
    }
  }

  /** Every requested file is in the group afterwards, whether or not it has a record. */
  lemma {:induction false} AddAllCovers(m: Store, groupId: string, files0: seq<FavoriteEntry>,
                                        paths: seq<string>, ids: nat -> string, now: int)
    ensures var r := AddAll(m, groupId, files0, paths, ids, now);
            forall i :: 0 <= i < |paths| ==> Favorites.InGroup(r.files, paths[i])
  {
    if |paths| > 0 {
      var init := paths[..|paths| - 1];
      var r := AddAll(m, groupId, files0, paths, ids, now);
      var prev := AddAll(m, groupId, files0, init, ids, now);
      AddAllCovers(m, groupId, files0, init, ids, now);
      AddAllGrows(m, groupId, files0, init, ids, now);
      assert prev.files <= r.files;
      forall i | 0 <= i < |paths|
        ensures Favorites.InGroup(r.files, paths[i])
      {
        if i < |init| {
          assert paths[i] == init[i];
          InGroupGrows(prev.files, r.files, paths[i]);
        } else {
          if !Favorites.InGroup(prev.files, paths[i]) {
            assert r.files[|r.files| - 1].fileId == paths[i];
          }
        }
      }
    }
  }

  /** A file the group already holds is skipped, wherever it occurs in the request. */
  lemma {:induction false} AddAllSkipsPresent(m: Store, groupId: string, files0: seq<FavoriteEntry>,
                                              paths: seq<string>, ids: nat -> string, now: int)
    ensures var r := AddAll(m, groupId, files0, paths, ids, now);
            forall i :: 0 <= i < |paths| && Favorites.InGroup(files0, paths[i]) ==>
              r.outcomes[i] == Skipped
  {
    if |paths| > 0 {
      var init := paths[..|paths| - 1];
      var r := AddAll(m, groupId, files0, paths, ids, now);
      var prev := AddAll(m, groupId, files0, init, ids, now);
      AddAllSkipsPresent(m, groupId, files0, init, ids, now);
      AddAllGrows(m, groupId, files0, init, ids, now);
      forall i | 0 <= i < |paths| && Favorites.InGroup(files0, paths[i])
        ensures r.outcomes[i] == Skipped
      {
        if i < |init| {
          assert paths[i] == init[i];
          assert r.outcomes[i] == prev.outcomes[i];
        } else {
          InGroupGrows(files0, prev.files, paths[i]);
        }
      }
    }
  }

  /** No file is added twice, even when the request names it twice. */
  lemma {:induction false} AddAllKeepsUnique(m: Store, groupId: string, files0: seq<FavoriteEntry>,
                                             paths: seq<string>, ids: nat -> string, now: int)
    requires Favorites.UniqueFiles(files0)
    ensures Favorites.UniqueFiles(AddAll(m, groupId, files0, paths, ids, now).files)
  {
    if |paths| > 0 {
      var init := paths[..|paths| - 1];
      var prev := AddAll(m, groupId, files0, init, ids, now);
      var r := AddAll(m, groupId, files0, paths, ids, now);
      AddAllKeepsUnique(m, groupId, files0, init, ids, now);
      if r.files != prev.files {
        var path := paths[|paths| - 1];
        assert !Favorites.InGroup(prev.files, path);
        forall i, j | 0 <= i < j < |r.files|
          ensures r.files[i].fileId != r.files[j].fileId
        {
          if j == |prev.files| {
            assert r.files[i] == prev.files[i];
          } else {
            assert r.files[i] == prev.files[i] && r.files[j] == prev.files[j];
          }
        }
      }
    }
  }

  /** Each entry of the in-memory list has its mirror in the file's list. */
  predicate AllMirrored(m: Store, files: seq<FavoriteEntry>) {
    forall e :: e in files ==> Favorites.Mirror(e) in FileFavoritesOf(m, e.fileId)
  }

  /** Appending to one file's list keeps the mirrors already present. */
  lemma WithFileFavoriteKeepsMirrors(m: Store, files: seq<FavoriteEntry>, path: string, entry: FavoriteEntry)
    requires AllMirrored(m, files)
    ensures AllMirrored(Favorites.WithFileFavorite(m, path, entry), files)
  {
    var m' := Favorites.WithFileFavorite(m, path, entry);
    forall e | e in files
      ensures Favorites.Mirror(e) in FileFavoritesOf(m', e.fileId)
    {
      KeysInjective();
      if e.fileId == path {
        assert FileFavoritesOf(m, e.fileId) <= FileFavoritesOf(m', e.fileId);
        PrefixMember(FileFavoritesOf(m, e.fileId), FileFavoritesOf(m', e.fileId), Favorites.Mirror(e));
      } else {
        assert FileFavoritesOf(m', e.fileId) == FileFavoritesOf(m, e.fileId);
      }
    }
  }

  /** Every entry the loop adds is mirrored, and the mirrors already present stay. */
  lemma {:induction false} AddAllMirrored(m: Store, groupId: string, files0: seq<FavoriteEntry>,
                                          paths: seq<string>, ids: nat -> string, now: int)
    requires AllMirrored(m, files0)
    ensures var r := AddAll(m, groupId, files0, paths, ids, now);
            AllMirrored(r.store, r.files)
  {
    if |paths| > 0 {
      var init := paths[..|paths| - 1];
      var prev := AddAll(m, groupId, files0, init, ids, now);
      var r := AddAll(m, groupId, files0, paths, ids, now);
      AddAllMirrored(m, groupId, files0, init, ids, now);
      if r.files != prev.files {
        var entry := r.files[|r.files| - 1];
        WithFileFavoriteKeepsMirrors(prev.store, prev.files, entry.fileId, entry);
        assert Favorites.Mirror(entry) in FileFavoritesOf(r.store, entry.fileId);
      }
    }
  }

  /** After the request, the group's stored list is mirrored in the files' lists again. */
  lemma BatchKeepsMirrored(m: Store, groupId: string, paths: seq<string>, ids: nat -> string, now: int)
    requires Favorites.Mirrored(m, groupId)
    ensures Favorites.Mirrored(Stored(groupId, AddAll(m, groupId, GroupFilesOf(m, groupId), paths, ids, now)), groupId)
  {
    var r := AddAll(m, groupId, GroupFilesOf(m, groupId), paths, ids, now);
    var m' := Stored(groupId, r);
    AddAllMirrored(m, groupId, GroupFilesOf(m, groupId), paths, ids, now);
    forall e | e in GroupFilesOf(m', groupId)
      ensures Favorites.Mirror(e) in FileFavoritesOf(m', e.fileId)
    {
      GroupKeysDistinct("", groupId, e.fileId);
      assert FileFavoritesOf(m', e.fileId) == FileFavoritesOf(r.store, e.fileId);
    }
  }

  /** Sending the same request again adds none of its files. */
  lemma RepeatedBatchSkips(m: Store, groupId: string, paths: seq<string>,
                           ids: nat -> string, ids2: nat -> string, now: int, now2: int)
    ensures var m' := Stored(groupId, AddAll(m, groupId, GroupFilesOf(m, groupId), paths, ids, now));
            var again := AddAll(m', groupId, GroupFilesOf(m', groupId), paths, ids2, now2);
            forall i :: 0 <= i < |paths| ==> again.outcomes[i] == Skipped
  {
    var r := AddAll(m, groupId, GroupFilesOf(m, groupId), paths, ids, now);
    var m' := Stored(groupId, r);
    AddAllCovers(m, groupId, GroupFilesOf(m, groupId), paths, ids, now);
    AddAllGrows(m, groupId, GroupFilesOf(m, groupId), paths, ids, now);
    AddAllSkipsPresent(m', groupId, GroupFilesOf(m', groupId), paths, ids2, now2);
    assert GroupFilesOf(m', groupId) == r.files;
  }

  // ---------------------------------------------------------------------
  // the handler

  /** The loop of `batchAddToFavorites` and the final write of the group list. */
  method AddEach(kv: KvStore, groupId: string, paths: seq<string>, ids: nat -> string, now: int)
    returns (results: Results)
    modifies kv
    ensures var r := AddAll(old(kv.entries), groupId, GroupFilesOf(old(kv.entries), groupId), paths, ids, now);
            kv.entries == Stored(groupId, r) && results == Tally(paths, r.outcomes)
  {
    ghost var m0 := kv.entries;
    var files0 := GroupFilesOf(kv.entries, groupId);
    var files := files0;
    results := Results(0, 0, 0, 0, []);
    ghost var outcomes: seq<Outcome> := [];
    for i := 0 to |paths|
      invariant AddAll(m0, groupId, files0, paths[..i], ids, now) == Progress(kv.entries, files, outcomes)
      invariant results == Tally(paths[..i], outcomes)
    {
      AllSnoc(m0, groupId, files0, paths, i, ids, now, outcomes);
      ghost var o;
      files, o, results := AddOne(kv, groupId, paths[i], ids(i), now, files, outcomes, results);
      outcomes := outcomes + [o];
    }
    assert paths[..|paths|] == paths;
    kv.Put(GroupFilesKey(groupId), Record(GroupFiles(files), None));
  }

  /** The loop's recursive definitions, one element further. */
  lemma AllSnoc(m: Store, groupId: string, files0: seq<FavoriteEntry>, paths: seq<string>, i: int,
                ids: nat -> string, now: int, outcomes: seq<Outcome>)
    requires 0 <= i < |paths| && |outcomes| == i
    ensures AddAll(m, groupId, files0, paths[..i + 1], ids, now)
              == AddStep(AddAll(m, groupId, files0, paths[..i], ids, now), groupId, paths[i], ids(i), now)
    ensures forall o :: Tally(paths[..i + 1], outcomes + [o]) == TallyStep(Tally(paths[..i], outcomes), paths[i], o)
  {
    assert paths[..i + 1][..i] == paths[..i];
    forall o
      ensures Tally(paths[..i + 1], outcomes + [o]) == TallyStep(Tally(paths[..i], outcomes), paths[i], o)
    {
      assert (outcomes + [o])[..i] == outcomes;
    }
  }

  /** One iteration of the loop, on the store and on the counters. */
  method AddOne(kv: KvStore, groupId: string, path: string, id: string, now: int,
                files0: seq<FavoriteEntry>, ghost outcomes0: seq<Outcome>, results0: Results)
    returns (files: seq<FavoriteEntry>, ghost o: Outcome, results: Results)
    modifies kv
    ensures Progress(kv.entries, files, outcomes0 + [o]) == AddStep(Progress(old(kv.entries), files0, outcomes0), groupId, path, id, now)
    ensures results == TallyStep(results0, path, o)
  {
    files := files0;
    if Favorites.InGroup(files, path) {
      o := Skipped;
      results := results0.(skippedCount := results0.skippedCount + 1, totalFiles := results0.totalFiles + 1);
    } else {
      var entry := FavoriteEntry(id, path, groupId, now, "");
      files := files + [entry];
      Favorites.AddFavoriteToFile(kv, path, entry);
      o := Added;
      results := results0.(successCount := results0.successCount + 1, totalFiles := results0.totalFiles + 1);
    }
  }

  /** `batchAddToFavorites`. A missing `groupId` is the default group. */
  method BatchAddToFavorites(kv: KvStore, decode: string -> Option<string>, fileIds: Option<seq<string>>,
                             groupId: Option<string>, ids: nat -> string, now: int)
    returns (resp: Response)
    modifies kv
    ensures fileIds.None? || |fileIds.value| == 0 ==>
              resp == BadRequest("File IDs array is required and cannot be empty")
    ensures fileIds.Some? && |fileIds.value| > 0 && GroupKey(groupId.GetOr(Favorites.DefaultGroupId)) !in old(kv.entries) ==>
              resp == NotFound("Favorite group not found")
    ensures fileIds.Some? && |fileIds.value| > 0 && GroupKey(groupId.GetOr(Favorites.DefaultGroupId)) in old(kv.entries) ==>
              (DecodeAll(decode, fileIds.value).None? <==> resp == ServerError("Failed to batch add to favorites: URI malformed"))
    ensures !resp.Completed? ==> kv.entries == old(kv.entries)
    ensures (fileIds.Some? && |fileIds.value| > 0 && GroupKey(groupId.GetOr(Favorites.DefaultGroupId)) in old(kv.entries)
             && DecodeAll(decode, fileIds.value).Some?) ==> resp.Completed?
    ensures resp.Completed? ==>
              fileIds.Some? && DecodeAll(decode, fileIds.value).Some?
              && var group := groupId.GetOr(Favorites.DefaultGroupId);
                 var r := AddAll(old(kv.entries), group, GroupFilesOf(old(kv.entries), group),
                                 DecodeAll(decode, fileIds.value).value, ids, now);
                 kv.entries == Stored(group, r) && resp.results == Tally(DecodeAll(decode, fileIds.value).value, r.outcomes)
  {
    if fileIds.None? || |fileIds.value| == 0 {
      return BadRequest("File IDs array is required and cannot be empty");
    }
    var group := groupId.GetOr(Favorites.DefaultGroupId);
    if GroupKey(group) !in kv.entries {
      return NotFound("Favorite group not found");
    }
    var decoded := DecodeAll(decode, fileIds.value);
    if decoded.None? {
      return ServerError("Failed to batch add to favorites: URI malformed");
    }
    var results := AddEach(kv, group, decoded.value, ids, now);
    resp := Completed(results);
  }

  /** `onRequest`: only POST is served. */
  method OnRequest(kv: KvStore, httpMethod: string, decode: string -> Option<string>,
                   fileIds: Option<seq<string>>, groupId: Option<string>, ids: nat -> string, now: int)
    returns (resp: Response)
    modifies kv
    ensures httpMethod != "POST" ==> resp == MethodNotAllowed
    ensures !resp.Completed? ==> kv.entries == old(kv.entries)
    ensures (httpMethod == "POST" && fileIds.Some? && |fileIds.value| > 0
             && GroupKey(groupId.GetOr(Favorites.DefaultGroupId)) in old(kv.entries)
             && DecodeAll(decode, fileIds.value).Some?) ==>
              var group := groupId.GetOr(Favorites.DefaultGroupId);
              var paths := DecodeAll(decode, fileIds.value).value;
              var r := AddAll(old(kv.entries), group, GroupFilesOf(old(kv.entries), group), paths, ids, now);
              kv.entries == Stored(group, r) && resp == Completed(Tally(paths, r.outcomes))
  {
    if httpMethod != "POST" {
      return MethodNotAllowed;
    }
    resp := BatchAddToFavorites(kv, decode, fileIds, groupId, ids, now);
  }
}
