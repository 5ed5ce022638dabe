/**
 * The Workers KV namespace the management API keeps its state in, the R2
 * bucket and the S3 bucket that hold file bodies.
 *
 * A KV record is a value and optional metadata. File records keep their
 * description in the metadata; the management blobs (tag lists, favourite
 * lists, folder records, access logs, cached statistics) are JSON values
 * without metadata. Each kind of blob is a variant of `Value` here; a key
 * holding a blob of another kind is read as if it were missing.
 */
module Kv {
  import opened Wrappers

  /** Metadata of a record; every field may be absent, as in the JSON object. */
  datatype Meta = Meta(
    fileName: Option<string>,   // FileName
    fileType: Option<string>,   // FileType, a MIME type
    fileSize: Option<real>,     // FileSize, as parseFloat reads it
    timeStamp: Option<int>,     // TimeStamp, milliseconds since the epoch
    directory: Option<string>,  // Directory
    channel: Option<string>,    // Channel: CloudflareR2, S3, Telegram, External, ...
    folder: Option<string>,     // Folder
    s3FileKey: Option<string>,  // S3FileKey
    kind: Option<string>,       // `type` of a folder record
    path: Option<string>,       // `path` of a folder record
    name: Option<string>,       // `name` of a folder record
    createdAt: Option<int>)     // `createdAt` of a folder record

  const NoMeta := Meta(None, None, None, None, None, None, None, None, None, None, None, None)

  /** `parseFloat(metadata.FileSize) || 0`. */
  function SizeOf(m: Meta): real {
    m.fileSize.GetOr(0.0)
  }

  datatype Tag = Tag(id: string, name: string, color: string, description: string,
                     createdAt: int, updatedAt: int, fileCount: int)

  datatype Group = Group(id: string, name: string, description: string, color: string,
                         icon: string, createdAt: int, updatedAt: int, fileCount: int,
                         isDefault: bool)

  /** An entry of a group's favourite list `manage@favorite_files@<group>`. */
  datatype FavoriteEntry = FavoriteEntry(id: string, fileId: string, groupId: string,
                                         addedAt: int, note: string)

  /** The mirror entry in a file's list `manage@file_favorites@<path>`. */
  datatype FileFavorite = FileFavorite(id: string, groupId: string, addedAt: int, note: string)

  datatype FolderChild = FolderChild(name: string, kind: string, path: string)

  datatype Folder = Folder(name: string, path: string, fullPath: string, kind: string,
                           description: string, permissions: string, tags: seq<string>,
                           createdAt: int, updatedAt: int, size: int, itemCount: int,
                           children: seq<FolderChild>)

  datatype AccessLog = AccessLog(accessType: string, accessTime: int)

  /** A `{count, size}` bucket of the storage statistics, under its key. */
  datatype Bucket = Bucket(key: string, count: nat, size: real)

  datatype StorageUsage = StorageUsage(
    totalSize: real,
    totalFiles: nat,
    channelStats: seq<Bucket>,
    typeStats: seq<Bucket>,
    sizeDistribution: seq<Bucket>,
    directoryStats: seq<Bucket>,
    uploadTrends: seq<Bucket>)

  datatype Value =
    | FileValue(data: string)                    // body or placeholder of a file record
    | TagIndex(ids: seq<string>)                 // manage@tags@index
    | TagBlob(tag: Tag)                          // manage@tags@<id>
    | TagFiles(files: seq<string>)               // manage@tag_files@<id>
    | FileTags(tags: seq<string>)                // manage@file_tags@<path>
    | GroupIndex(ids: seq<string>)               // manage@favorite_groups@index
    | GroupBlob(group: Group)                    // manage@favorite_groups@<id>
    | GroupFiles(entries: seq<FavoriteEntry>)    // manage@favorite_files@<id>
    | FileFavorites(favorites: seq<FileFavorite>)  // manage@file_favorites@<path>
    | FolderBlob(folder: Folder)                 // folder:<fullPath>
    | FileStatsBlob(logs: seq<AccessLog>)        // manage@file_stats@<path>
    | StatsIndex(files: seq<string>)             // manage@stats@index
    | StorageCache(usage: StorageUsage, lastUpdated: int)  // manage@storage_stats@cache

  datatype Record = Record(value: Value, metadata: Option<Meta>)

  type Store = map<string, Record>

  // ---------------------------------------------------------------------
  // keys

  const TagsIndexKey: string := "manage@tags@index"
  const GroupsIndexKey: string := "manage@favorite_groups@index"
  const StatsIndexKey: string := "manage@stats@index"
  const StorageCacheKey: string := "manage@storage_stats@cache"

  function TagKey(id: string): string { "manage@tags@" + id }
  function TagFilesKey(id: string): string { "manage@tag_files@" + id }
  function FileTagsKey(path: string): string { "manage@file_tags@" + path }
  function GroupKey(id: string): string { "manage@favorite_groups@" + id }
  function GroupFilesKey(id: string): string { "manage@favorite_files@" + id }
  function FileFavoritesKey(path: string): string { "manage@file_favorites@" + path }
  function FolderKey(fullPath: string): string { "folder:" + fullPath }
  function FileStatsKey(path: string): string { "manage@file_stats@" + path }

  /** Keys with prefixes that differ at some position are different keys. */
  lemma PrefixesDiffer(p1: string, p2: string, a: string, b: string, i: nat)
    requires i < |p1| && i < |p2| && p1[i] != p2[i]
    ensures p1 + a != p2 + b
  {
    assert (p1 + a)[i] == p1[i] && (p2 + b)[i] == p2[i];
  }

  lemma TagKeysDistinct(t: string, u: string, p: string)
    ensures TagKey(t) != TagFilesKey(u)
    ensures FileTagsKey(p) != TagFilesKey(u) && FileTagsKey(p) != TagKey(t)
    ensures FileTagsKey(p) != TagsIndexKey && TagFilesKey(u) != TagsIndexKey
  {
    PrefixesDiffer("manage@tags@", "manage@tag_files@", t, u, 10);
    PrefixesDiffer("manage@file_tags@", "manage@tag_files@", p, u, 7);
    PrefixesDiffer("manage@file_tags@", "manage@tags@", p, t, 7);
    PrefixesDiffer("manage@file_tags@", "manage@tags@", p, "index", 7);
    PrefixesDiffer("manage@tag_files@", "manage@tags@", u, "index", 10);
  }

  /** A key built from a prefix determines what follows the prefix. */
  lemma SamePrefixSameRest(p: string, a: string, b: string)
    requires p + a == p + b
    ensures a == b
  {
    assert a == (p + a)[|p|..] && b == (p + b)[|p|..];
  }

  lemma IndexKeys(id: string)
    ensures TagKey(id) == TagsIndexKey ==> id == "index"
    ensures GroupKey(id) == GroupsIndexKey ==> id == "index"
  {
    if TagKey(id) == TagsIndexKey {
      SamePrefixSameRest("manage@tags@", id, "index");
    }
    if GroupKey(id) == GroupsIndexKey {
      SamePrefixSameRest("manage@favorite_groups@", id, "index");
    }
  }

  /** Each key family determines its suffix. */
  lemma KeysInjective()
    ensures forall a, b :: TagKey(a) == TagKey(b) ==> a == b
    ensures forall a, b :: TagFilesKey(a) == TagFilesKey(b) ==> a == b
    ensures forall a, b :: FileTagsKey(a) == FileTagsKey(b) ==> a == b
    ensures forall a, b :: GroupKey(a) == GroupKey(b) ==> a == b
    ensures forall a, b :: GroupFilesKey(a) == GroupFilesKey(b) ==> a == b
    ensures forall a, b :: FileFavoritesKey(a) == FileFavoritesKey(b) ==> a == b
    ensures forall a, b :: FolderKey(a) == FolderKey(b) ==> a == b
  {
    forall a, b | TagKey(a) == TagKey(b) ensures a == b { SamePrefixSameRest("manage@tags@", a, b); }
    forall a, b | TagFilesKey(a) == TagFilesKey(b) ensures a == b { SamePrefixSameRest("manage@tag_files@", a, b); }
    forall a, b | FileTagsKey(a) == FileTagsKey(b) ensures a == b { SamePrefixSameRest("manage@file_tags@", a, b); }
    forall a, b | GroupKey(a) == GroupKey(b) ensures a == b { SamePrefixSameRest("manage@favorite_groups@", a, b); }
    forall a, b | GroupFilesKey(a) == GroupFilesKey(b) ensures a == b { SamePrefixSameRest("manage@favorite_files@", a, b); }
    forall a, b | FileFavoritesKey(a) == FileFavoritesKey(b) ensures a == b { SamePrefixSameRest("manage@file_favorites@", a, b); }
    forall a, b | FolderKey(a) == FolderKey(b) ensures a == b { SamePrefixSameRest("folder:", a, b); }
  }

  lemma GroupKeysDistinct(g: string, h: string, p: string)
    ensures GroupKey(g) != GroupFilesKey(h)
    ensures FileFavoritesKey(p) != GroupFilesKey(h) && FileFavoritesKey(p) != GroupKey(g)
    ensures GroupFilesKey(h) != GroupsIndexKey && FileFavoritesKey(p) != GroupsIndexKey
  {
    PrefixesDiffer("manage@favorite_groups@", "manage@favorite_files@", g, h, 16);
    PrefixesDiffer("manage@file_favorites@", "manage@favorite_files@", p, h, 8);
    PrefixesDiffer("manage@file_favorites@", "manage@favorite_groups@", p, g, 8);
    PrefixesDiffer("manage@favorite_files@", "manage@favorite_groups@", h, "index", 16);
    PrefixesDiffer("manage@file_favorites@", "manage@favorite_groups@", p, "index", 8);
  }

  // ---------------------------------------------------------------------
  // typed reads: `JSON.parse(await kv.get(key))`, or the handler's default

  function MetaOf(m: Store, key: string): Option<Meta> {
    if key in m then m[key].metadata else None
  }

  function TagIndexOf(m: Store): seq<string> {
    if TagsIndexKey in m && m[TagsIndexKey].value.TagIndex? then m[TagsIndexKey].value.ids else []
  }

  function TagOf(m: Store, id: string): Option<Tag> {
    var k := TagKey(id);
    if k in m && m[k].value.TagBlob? then Some(m[k].value.tag) else None
  }

  function TagFilesOf(m: Store, id: string): seq<string> {
    var k := TagFilesKey(id);
    if k in m && m[k].value.TagFiles? then m[k].value.files else []
  }

  function FileTagsOf(m: Store, path: string): seq<string> {
    var k := FileTagsKey(path);
    if k in m && m[k].value.FileTags? then m[k].value.tags else []
  }

  function GroupIndexOf(m: Store): seq<string> {
    if GroupsIndexKey in m && m[GroupsIndexKey].value.GroupIndex? then m[GroupsIndexKey].value.ids else []
  }

  function GroupOf(m: Store, id: string): Option<Group> {
    var k := GroupKey(id);
    if k in m && m[k].value.GroupBlob? then Some(m[k].value.group) else None
  }

  function GroupFilesOf(m: Store, id: string): seq<FavoriteEntry> {
    var k := GroupFilesKey(id);
    if k in m && m[k].value.GroupFiles? then m[k].value.entries else []
  }

  function FileFavoritesOf(m: Store, path: string): seq<FileFavorite> {
    var k := FileFavoritesKey(path);
    if k in m && m[k].value.FileFavorites? then m[k].value.favorites else []
  }

  function FolderOf(m: Store, fullPath: string): Option<Folder> {
    var k := FolderKey(fullPath);
    if k in m && m[k].value.FolderBlob? then Some(m[k].value.folder) else None
  }

  function FileStatsOf(m: Store, path: string): Option<seq<AccessLog>> {
    var k := FileStatsKey(path);
    if k in m && m[k].value.FileStatsBlob? then Some(m[k].value.logs) else None
  }

  function StatsIndexOf(m: Store): seq<string> {
    if StatsIndexKey in m && m[StatsIndexKey].value.StatsIndex? then m[StatsIndexKey].value.files else []
  }

  // ---------------------------------------------------------------------
  // the namespaces and buckets

  /** A KV namespace: `get`/`getWithMetadata` read `entries`, `put` and `delete` change it. */
  class KvStore {
    var entries: Store

    constructor(initial: Store)
      ensures entries == initial
    {
      entries := initial;
    }

    method Put(key: string, rec: Record)
      modifies this
      ensures entries == old(entries)[key := rec]
    {
      entries := entries[key := rec];
    }

    method Delete(key: string)
      modifies this
      ensures entries == old(entries) - {key}
    {
      entries := entries - {key};
    }
  }

  /** An R2 bucket: object bodies by key. */
  class R2Bucket {
    var objects: map<string, string>

    constructor(initial: map<string, string>)
      ensures objects == initial
    {
      objects := initial;
    }

    method Put(key: string, body: string)
      modifies this
      ensures objects == old(objects)[key := body]
    {
      objects := objects[key := body];
    }

    method Delete(key: string)
      modifies this
      ensures objects == old(objects) - {key}
    {
      objects := objects - {key};
    }
  }

  /** What `CopyObject` leaves in an S3 bucket, or None when the request fails. */
  function S3Copy(objects: map<string, string>, failing: set<string>,
                  source: Option<string>, target: string): Option<map<string, string>>
  {
    if source.None? || source.value in failing || target in failing || source.value !in objects then None
    else Some(objects[target := objects[source.value]])
  }

  /** What `DeleteObject` leaves in an S3 bucket, or None when the request fails. */
  function S3Delete(objects: map<string, string>, failing: set<string>,
                    key: Option<string>): Option<map<string, string>>
  {
    if key.None? || key.value in failing then None else Some(objects - {key.value})
  }

  /**
   * An S3-compatible bucket. Requests about a key in `failing`, or without a
   * key, fail (the network, the credentials or the service may refuse them).
   */
  class S3Bucket {
    var objects: map<string, string>
    const failing: set<string>

    constructor(initial: map<string, string>, unreachable: set<string>)
      ensures objects == initial && failing == unreachable
    {
      objects := initial;
      failing := unreachable;
    }

    method CopyObject(source: Option<string>, target: string) returns (ok: bool)
      modifies this
      ensures ok == S3Copy(old(objects), failing, source, target).Some?
      ensures ok ==> objects == S3Copy(old(objects), failing, source, target).value
      ensures !ok ==> objects == old(objects)
    {
      var r := S3Copy(objects, failing, source, target);
      ok := r.Some?;
      if ok {
        objects := r.value;
      }
    }

    method DeleteObject(key: Option<string>) returns (ok: bool)
      modifies this
      ensures ok == S3Delete(old(objects), failing, key).Some?
      ensures ok ==> objects == S3Delete(old(objects), failing, key).value
      ensures !ok ==> objects == old(objects)
    {
      var r := S3Delete(objects, failing, key);
      ok := r.Some?;
      if ok {
        objects := r.value;
      }
    }
  }
}
