/**
 * The favourites of one group (`/api/manage/favorites`): GET lists the
 * favourite files of a group, sorted and paged; POST adds one file.
 *
 * A favourite is written twice: as an entry of the group's list
 * `manage@favorite_files@<group>` and as a mirror entry in the file's own
 * list `manage@file_favorites@<path>`.
 */
module Favorites {
  import opened Wrappers
  import opened JsString
  import opened Seqs
  import opened Ordering
  import opened Kv
  import opened FileIds

  const DefaultGroupId: string := "default"

  /** A favourite as GET reports it: the entry joined with the file's metadata. */
  datatype FavoriteFile = FavoriteFile(
    id: string,
    fileId: string,
    fileName: string,
    fileType: string,
    fileSize: Option<real>,
    uploadTime: Option<int>,
    directory: string,
    addedAt: int,
    note: string,
    metadata: Meta)

  /** The body of a GET response. */
  datatype Listing = Listing(files: seq<FavoriteFile>, total: nat, start: nat, count: nat, hasMore: bool)

  datatype Response =
    | MethodNotAllowed
    | BadRequest(error: string)
    | NotFound(error: string)
    | Conflict(error: string)
    | ServerError(error: string)
    | FileList(listing: Listing)
    | Added(favorite: FavoriteEntry)
  {
    function Status(): int {
      match this
      case MethodNotAllowed => 405
      case BadRequest(_) => 400
      case NotFound(_) => 404
      case Conflict(_) => 409
      case ServerError(_) => 500
      case _ => 200
    }
  }

  // ---------------------------------------------------------------------
  // GET: the favourite files of a group

  /** The entry's file has a record with metadata (entries without one are skipped). */
  predicate Listable(m: Store, e: FavoriteEntry) {
    e.fileId in m && m[e.fileId].metadata.Some?
  }

  function ListableIn(m: Store): FavoriteEntry -> bool {
    e => Listable(m, e)
  }

  function Describe(e: FavoriteEntry, meta: Meta): FavoriteFile {
    FavoriteFile(e.id, e.fileId, OrText(meta.fileName, e.fileId), OrText(meta.fileType, ""),
                 meta.fileSize, meta.timeStamp, OrText(meta.directory, ""), e.addedAt, e.note, meta)
  }

  /** `f` is what GET reports for the entry `e`. */
  predicate Describes(m: Store, f: FavoriteFile, e: FavoriteEntry) {
    Listable(m, e) && f == Describe(e, m[e.fileId].metadata.value)
  }

  /** `filesWithMetadata`: the entries whose file has metadata, described, in list order. */
  function Collect(m: Store, entries: seq<FavoriteEntry>): (r: seq<FavoriteFile>)
    ensures |r| == Count(entries, ListableIn(m))
  {
    if |entries| == 0 then []
    else
      var e := entries[|entries| - 1];
      var rest := Collect(m, entries[..|entries| - 1]);
      if Listable(m, e) then rest + [Describe(e, m[e.fileId].metadata.value)] else rest
  }

  /** Everything listed describes one of the entries. */
  lemma {:induction false} CollectSound(m: Store, entries: seq<FavoriteEntry>)
    ensures forall f :: f in Collect(m, entries) ==> exists e :: e in entries && Describes(m, f, e)
  {
    if |entries| > 0 {
      var init := entries[..|entries| - 1];
      var e := entries[|entries| - 1];
      CollectSound(m, init);
      forall f | f in Collect(m, entries)
        ensures exists e' :: e' in entries && Describes(m, f, e')
      {
        if f in Collect(m, init) {
          var e' :| e' in init && Describes(m, f, e');
          PrefixMember(init, entries, e');
        } else {
          assert Describes(m, f, e);
        }
      }
    }
  }

  /** Every entry whose file has metadata is listed. */
  lemma {:induction false} CollectComplete(m: Store, entries: seq<FavoriteEntry>)
    ensures forall e :: e in entries && Listable(m, e) ==>
              Describe(e, m[e.fileId].metadata.value) in Collect(m, entries)
  {
    if |entries| > 0 {
      var init := entries[..|entries| - 1];
      var last := entries[|entries| - 1];
      CollectComplete(m, init);
      CollectLast(m, entries);
      forall e | e in entries && Listable(m, e)
        ensures Describe(e, m[e.fileId].metadata.value) in Collect(m, entries)
      {
        if e != last {
          InitMember(entries, e);
        }
      }
    }
  }

  /** `Collect` unfolded once at the last entry. */
  lemma CollectLast(m: Store, entries: seq<FavoriteEntry>)
    requires |entries| > 0
    ensures var e := entries[|entries| - 1];
            Collect(m, entries) == Collect(m, entries[..|entries| - 1])
              + (if Listable(m, e) then [Describe(e, m[e.fileId].metadata.value)] else [])
  {
  }

  /** The sort key of the comparator for `sortBy`; unknown names sort by `addedAt`. */
  function SortKeyOf(sortBy: string, f: FavoriteFile): SortKey {
    if sortBy == "name" then Text(Lower(f.fileName))
    else if sortBy == "size" then Num(f.fileSize.GetOr(0.0))
    else if sortBy == "time" then Num(f.uploadTime.GetOr(0) as real)
    else Num(f.addedAt as real)
  }

  function KeyFor(sortBy: string): FavoriteFile -> SortKey {
    f => SortKeyOf(sortBy, f)
  }

  /** `getFavoriteFiles`: the listable favourites of the group, sorted, then the page `start..start+count`. */
  function GetFavoriteFiles(m: Store, groupId: Option<string>, start: nat, count: nat,
                            sortBy: Option<string>, sortOrder: Option<string>): (r: Listing)
    ensures var entries := GroupFilesOf(m, OrText(groupId, DefaultGroupId));
            && r.total == Count(entries, ListableIn(m))
            && r.start == start
            && r.count == |r.files| == Min(count, Max(0, r.total - start))
            && r.hasMore == HasMore(r.total, start, count)
            && SortedBy(r.files, KeyFor(OrText(sortBy, "addedAt")), OrText(sortOrder, "desc") == "desc")
            && (forall f :: f in r.files ==> f in Collect(m, entries))
    ensures var entries := GroupFilesOf(m, OrText(groupId, DefaultGroupId));
            var all := Collect(m, entries);
            && r.total == |all|
            && r.files == Page(SortBy(all, KeyFor(OrText(sortBy, "addedAt")), OrText(sortOrder, "desc") == "desc"), start, count)
  {
    var entries := GroupFilesOf(m, OrText(groupId, DefaultGroupId));
    var key := KeyFor(OrText(sortBy, "addedAt"));
    var desc := OrText(sortOrder, "desc") == "desc";
    var all := Collect(m, entries);
    var sorted := SortBy(all, key, desc);
    PageOfSorted(sorted, start, count, key, desc);
    forall f | f in Page(sorted, start, count)
      ensures f in all
    {
      assert f in multiset(sorted);
    }
    var files := Page(sorted, start, count);
    Listing(files, |all|, start, |files|, HasMore(|all|, start, count))
  }

  /** Without sort parameters the newest favourites come first. */
  lemma DefaultOrderNewestFirst(m: Store, groupId: Option<string>, start: nat, count: nat)
    ensures var files := GetFavoriteFiles(m, groupId, start, count, None, None).files;
            forall i, j :: 0 <= i < j < |files| ==> files[i].addedAt >= files[j].addedAt
  {
    var files := GetFavoriteFiles(m, groupId, start, count, None, None).files;
    assert SortedBy(files, KeyFor("addedAt"), true);
    NewestFirst(files);
  }

  /** Sorted descending by the `addedAt` key is newest first. */
  lemma NewestFirst(files: seq<FavoriteFile>)
    requires SortedBy(files, KeyFor("addedAt"), true)
    ensures forall i, j :: 0 <= i < j < |files| ==> files[i].addedAt >= files[j].addedAt
  {
    forall i, j | 0 <= i < j < |files|
      ensures files[i].addedAt >= files[j].addedAt
    {
      assert Before(KeyFor("addedAt")(files[i]), KeyFor("addedAt")(files[j]), true);
    }
  }

  // ---------------------------------------------------------------------
  // POST: adding a file to a group

  /** The mirror of a group entry kept in the file's own list. */
  function Mirror(e: FavoriteEntry): FileFavorite {
    FileFavorite(e.id, e.groupId, e.addedAt, e.note)
  }

  /** `groupFiles.files.find(f => f.fileId === filePath)` finds something. */
  predicate InGroup(entries: seq<FavoriteEntry>, path: string) {
    exists i :: 0 <= i < |entries| && entries[i].fileId == path
  }

  /** No file occurs twice in a group's list. */
  predicate UniqueFiles(entries: seq<FavoriteEntry>) {
    forall i, j :: 0 <= i < j < |entries| ==> entries[i].fileId != entries[j].fileId
  }

  /** Every entry of the group's list has its mirror in the file's list. */
  predicate Mirrored(m: Store, groupId: string) {
    forall e :: e in GroupFilesOf(m, groupId) ==> Mirror(e) in FileFavoritesOf(m, e.fileId)
  }

  /** The store after `addFavoriteToFile(kv, path, entry)`. */
  function WithFileFavorite(m: Store, path: string, entry: FavoriteEntry): (m': Store)
    ensures FileFavoritesOf(m', path) == FileFavoritesOf(m, path) + [Mirror(entry)]
    ensures m'.Keys == m.Keys + {FileFavoritesKey(path)}
    ensures forall k :: k in m && k != FileFavoritesKey(path) ==> m'[k] == m[k]
  {
    m[FileFavoritesKey(path) := Record(FileFavorites(FileFavoritesOf(m, path) + [Mirror(entry)]), None)]
  }

  /** `addFavoriteToFile`: appends the mirror of `entry` to the file's list. */
  method AddFavoriteToFile(kv: KvStore, path: string, entry: FavoriteEntry)
    modifies kv
    ensures kv.entries == WithFileFavorite(old(kv.entries), path, entry)
  {
    var favorites := FileFavoritesOf(kv.entries, path);
    kv.Put(FileFavoritesKey(path), Record(FileFavorites(favorites + [Mirror(entry)]), None));
  }

  /** The store after `entry` was added to its group and mirrored to its file. */
  function Favorited(m: Store, entry: FavoriteEntry): (m': Store)
    ensures GroupFilesOf(m', entry.groupId) == GroupFilesOf(m, entry.groupId) + [entry]
    ensures FileFavoritesOf(m', entry.fileId) == FileFavoritesOf(m, entry.fileId) + [Mirror(entry)]
    ensures m'.Keys == m.Keys + {GroupFilesKey(entry.groupId), FileFavoritesKey(entry.fileId)}
    ensures forall k :: k in m && k != GroupFilesKey(entry.groupId) && k != FileFavoritesKey(entry.fileId) ==>
              m'[k] == m[k]
  {
    GroupKeysDistinct("", entry.groupId, entry.fileId);
    var m1 := m[GroupFilesKey(entry.groupId) := Record(GroupFiles(GroupFilesOf(m, entry.groupId) + [entry]), None)];
    assert FileFavoritesOf(m1, entry.fileId) == FileFavoritesOf(m, entry.fileId);
    WithFileFavorite(m1, entry.fileId, entry)
  }

  /** Once added, the file is in the group: adding it again is refused with 409. */
  lemma FavoritedIsInGroup(m: Store, entry: FavoriteEntry)
    ensures InGroup(GroupFilesOf(Favorited(m, entry), entry.groupId), entry.fileId)
  {
    var files := GroupFilesOf(Favorited(m, entry), entry.groupId);
    assert files[|files| - 1] == entry;
  }

  /** Adding a file the group does not hold keeps the group free of duplicates. */
  lemma FavoritedKeepsUnique(m: Store, entry: FavoriteEntry)
    requires UniqueFiles(GroupFilesOf(m, entry.groupId))
    requires !InGroup(GroupFilesOf(m, entry.groupId), entry.fileId)
    ensures UniqueFiles(GroupFilesOf(Favorited(m, entry), entry.groupId))
  {
    var before := GroupFilesOf(m, entry.groupId);
    var after := GroupFilesOf(Favorited(m, entry), entry.groupId);
    forall i, j | 0 <= i < j < |after|
      ensures after[i].fileId != after[j].fileId
    {
      if j == |before| {
        assert after[i] == before[i];
      } else {
        assert after[i] == before[i] && after[j] == before[j];
      }
    }
  }

  /** Adding a favourite keeps every group's list mirrored in the files' lists. */
  lemma FavoritedKeepsMirrored(m: Store, entry: FavoriteEntry, groupId: string)
    requires Mirrored(m, groupId)
    ensures Mirrored(Favorited(m, entry), groupId)
  {
    var m' := Favorited(m, entry);
    forall e | e in GroupFilesOf(m', groupId)
      ensures Mirror(e) in FileFavoritesOf(m', e.fileId)
    {
      GroupKeysDistinct("", groupId, e.fileId);
      GroupKeysDistinct("", entry.groupId, e.fileId);
      KeysInjective();
      if e.fileId == entry.fileId {
        if e != entry {
          assert e in GroupFilesOf(m, groupId);
        }
      } else {
        if groupId == entry.groupId && e == entry {
        } else {
          if groupId != entry.groupId {
            assert GroupFilesOf(m', groupId) == GroupFilesOf(m, groupId);
          }
          assert e in GroupFilesOf(m, groupId);
          assert FileFavoritesOf(m', e.fileId) == FileFavoritesOf(m, e.fileId);
        }
      }
    }
  }

  /** The entry POST creates. */
  function NewEntry(favoriteId: string, path: string, groupId: string, note: string, now: int): (e: FavoriteEntry)
    ensures e.fileId == path && e.groupId == groupId && e.note == Trim(note)
  {
    FavoriteEntry(favoriteId, path, groupId, now, Trim(note))
  }

  /**
   * `addToFavorites`. A missing `groupId` is the default group and a missing
   * `note` is empty; a present but empty `groupId` is kept. The file's record
   * is read with `getWithMetadata`, which answers every key with an object,
   * so the `File not found` answer is never given and an id without a
   * record is added like any other.
   */
  method AddToFavorites(kv: KvStore, decode: string -> Option<string>, fileId: Option<string>,
                        groupId: Option<string>, note: Option<string>, favoriteId: string, now: int)
    returns (resp: Response)
    modifies kv
    ensures !Truthy(fileId) ==> resp == BadRequest("File ID is required")
    ensures Truthy(fileId) && DecodeFileId(decode, fileId.value).None? ==>
              resp == ServerError("Failed to add to favorites: URI malformed")
    ensures Truthy(fileId) && DecodeFileId(decode, fileId.value).Some? ==>
              var path := DecodeFileId(decode, fileId.value).value;
              var group := groupId.GetOr(DefaultGroupId);
              && (GroupKey(group) !in old(kv.entries) ==> resp == NotFound("Favorite group not found"))
              && (GroupKey(group) in old(kv.entries) && InGroup(GroupFilesOf(old(kv.entries), group), path) ==>
                    resp == Conflict("File is already in favorites"))
              && (GroupKey(group) in old(kv.entries) && !InGroup(GroupFilesOf(old(kv.entries), group), path) ==>
                    resp == Added(NewEntry(favoriteId, path, group, note.GetOr(""), now)))
    ensures resp.Added? ==> kv.entries == Favorited(old(kv.entries), resp.favorite)
    ensures !resp.Added? ==> kv.entries == old(kv.entries)
  {
    if !Truthy(fileId) {
      return BadRequest("File ID is required");
    }
    var decoded := DecodeFileId(decode, fileId.value);
    if decoded.None? {
      return ServerError("Failed to add to favorites: URI malformed");
    }
    var path := decoded.value;
    var group := groupId.GetOr(DefaultGroupId);
    if GroupKey(group) !in kv.entries {
      return NotFound("Favorite group not found");
    }
    var files := GroupFilesOf(kv.entries, group);
    if InGroup(files, path) {
      return Conflict("File is already in favorites");
    }
    var entry := NewEntry(favoriteId, path, group, note.GetOr(""), now);
    kv.Put(GroupFilesKey(group), Record(GroupFiles(files + [entry]), None));
    AddFavoriteToFile(kv, path, entry);
    resp := Added(entry);
  }

  /** `onRequest`: GET lists, POST adds, anything else is refused. */
  method OnRequest(kv: KvStore, httpMethod: string, decode: string -> Option<string>,
                   groupIdParam: Option<string>, start: nat, count: nat,
                   sortBy: Option<string>, sortOrder: Option<string>,
                   fileId: Option<string>, groupId: Option<string>, note: Option<string>,
                   favoriteId: string, now: int)
    returns (resp: Response)
    modifies kv
    ensures httpMethod != "GET" && httpMethod != "POST" ==> resp == MethodNotAllowed
    ensures httpMethod == "GET" ==>
              resp == FileList(GetFavoriteFiles(old(kv.entries), groupIdParam, start, count, sortBy, sortOrder))
    ensures !resp.Added? ==> kv.entries == old(kv.entries)
    ensures httpMethod == "POST" && !Truthy(fileId) ==> resp == BadRequest("File ID is required")
    ensures httpMethod == "POST" && Truthy(fileId) && DecodeFileId(decode, fileId.value).None? ==>
              resp == ServerError("Failed to add to favorites: URI malformed")
    ensures httpMethod == "POST" && Truthy(fileId) && DecodeFileId(decode, fileId.value).Some? ==>
              var path := DecodeFileId(decode, fileId.value).value;
              var group := groupId.GetOr(DefaultGroupId);
              && (GroupKey(group) !in old(kv.entries) ==> resp == NotFound("Favorite group not found"))
              && (GroupKey(group) in old(kv.entries) && InGroup(GroupFilesOf(old(kv.entries), group), path) ==>
                    resp == Conflict("File is already in favorites"))
              && (GroupKey(group) in old(kv.entries) && !InGroup(GroupFilesOf(old(kv.entries), group), path) ==>
                    resp == Added(NewEntry(favoriteId, path, group, note.GetOr(""), now))
                    && kv.entries == Favorited(old(kv.entries), resp.favorite))
  {
    if httpMethod == "GET" {
      resp := FileList(GetFavoriteFiles(kv.entries, groupIdParam, start, count, sortBy, sortOrder));
    } else if httpMethod == "POST" {
      resp := AddToFavorites(kv, decode, fileId, groupId, note, favoriteId, now);
    } else {
      resp := MethodNotAllowed;
    }
  }
}
