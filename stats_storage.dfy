/**
 * Storage usage statistics (`/api/manage/stats/storage`).
 *
 * The handler answers from the cache `manage@storage_stats@cache` while it
 * is younger than an hour. Otherwise it walks the listed keys, adds every
 * record with metadata (other than the `manage@` keys) to the totals and to
 * the channel, type, size, directory and month buckets, answers with the
 * result and writes it back as the new cache.
 */
module StorageStats {
  import opened Wrappers
  import opened JsString
  import opened Seqs
  import opened Ordering
  import opened Kv
  import FileStats
  import FolderCreate

  const CacheMaxAge: int := 3600000
  const ChannelKeys: seq<string> := ["CloudflareR2", "S3", "Telegram", "External", "Unknown"]
  const TypeKeys: seq<string> := ["images", "videos", "audio", "documents", "archives", "others"]
  const SizeKeys: seq<string> := ["small", "medium", "large", "xlarge"]

  /** `getSizeCategory`: the size class of a size in megabytes. */
  function SizeCategory(size: real): (r: string)
    ensures r in SizeKeys
    ensures r == "small" <==> size < 1.0
    ensures r == "medium" <==> 1.0 <= size < 10.0
    ensures r == "large" <==> 10.0 <= size < 100.0
    ensures r == "xlarge" <==> 100.0 <= size
  {
    if size < 1.0 then "small"
    else if size < 10.0 then "medium"
    else if size < 100.0 then "large"
    else "xlarge"
  }

  // ---------------------------------------------------------------------
  // bucket families

  /** The keys of a bucket family (each statistics module projects its own record type). */
  function KeysOf(bs: seq<Bucket>): (r: seq<string>)
    ensures |r| == |bs| && forall i :: 0 <= i < |bs| ==> r[i] == bs[i].key
  {
    seq(|bs|, i requires 0 <= i < |bs| => bs[i].key)
  }

  /** Empty buckets for the given keys. */
  function Zeroed(keys: seq<string>): (r: seq<Bucket>)
    ensures KeysOf(r) == keys
    ensures forall i :: 0 <= i < |r| ==> r[i].count == 0 && r[i].size == 0.0
  {
    seq(|keys|, i requires 0 <= i < |keys| => Bucket(keys[i], 0, 0.0))
  }

  function SumCounts(bs: seq<Bucket>): nat {
    if |bs| == 0 then 0 else bs[0].count + SumCounts(bs[1..])
  }

  function SumSizes(bs: seq<Bucket>): real {
    if |bs| == 0 then 0.0 else bs[0].size + SumSizes(bs[1..])
  }

  lemma {:induction false} ZeroedSums(keys: seq<string>)
    ensures SumCounts(Zeroed(keys)) == 0 && SumSizes(Zeroed(keys)) == 0.0
  {
    if |keys| > 0 {
      ZeroedSums(keys[1..]);
      assert Zeroed(keys)[1..] == Zeroed(keys[1..]);
    }
  }

  lemma {:induction false} SumsSnoc(bs: seq<Bucket>, b: Bucket)
    ensures SumCounts(bs + [b]) == SumCounts(bs) + b.count
    ensures SumSizes(bs + [b]) == SumSizes(bs) + b.size
  {
    if |bs| > 0 {
      SumsSnoc(bs[1..], b);
      assert (bs + [b])[1..] == bs[1..] + [b];
    } else {
      assert bs + [b] == [b];
    }
  }

  /** `if (family[key]) { family[key].size += size; family[key].count++ }`: only an existing bucket gains. */
  function AddTo(bs: seq<Bucket>, key: string, size: real): (r: seq<Bucket>)
    decreases |bs|
  {
    if |bs| == 0 then []
    else if bs[0].key == key then [bs[0].(count := bs[0].count + 1, size := bs[0].size + size)] + bs[1..]
    else [bs[0]] + AddTo(bs[1..], key, size)
  }

  /** A bucket family gains one file exactly when it has a bucket for its key; its keys never change. */
  lemma {:induction false} AddToSums(bs: seq<Bucket>, key: string, size: real)
    ensures KeysOf(AddTo(bs, key, size)) == KeysOf(bs)
    ensures SumCounts(AddTo(bs, key, size)) == SumCounts(bs) + (if key in KeysOf(bs) then 1 else 0)
    ensures SumSizes(AddTo(bs, key, size)) == SumSizes(bs) + (if key in KeysOf(bs) then size else 0.0)
    decreases |bs|
  {
    if |bs| > 0 {
      var r := AddTo(bs, key, size);
      assert KeysOf(bs) == [bs[0].key] + KeysOf(bs[1..]);
      if bs[0].key == key {
        assert r[1..] == bs[1..];
      } else {
        AddToSums(bs[1..], key, size);
        assert r[1..] == AddTo(bs[1..], key, size);
        assert KeysOf(r) == [bs[0].key] + KeysOf(r[1..]);
      }
    }
  }

  /** `family[key] ||= {size: 0, count: 0}` followed by the increment: a missing bucket is appended. */
  function AddOrAppend(bs: seq<Bucket>, key: string, size: real): seq<Bucket> {
    if key in KeysOf(bs) then AddTo(bs, key, size) else bs + [Bucket(key, 1, size)]
  }

  /** The family always gains one file, and keeps one bucket per key. */
  lemma AddOrAppendSums(bs: seq<Bucket>, key: string, size: real)
    requires NoDup(KeysOf(bs))
    ensures var r := AddOrAppend(bs, key, size);
            && SumCounts(r) == SumCounts(bs) + 1
            && SumSizes(r) == SumSizes(bs) + size
            && NoDup(KeysOf(r))
            && key in KeysOf(r)
  {
    if key in KeysOf(bs) {
      AddToSums(bs, key, size);
    } else {
      SumsSnoc(bs, Bucket(key, 1, size));
      assert KeysOf(bs + [Bucket(key, 1, size)]) == KeysOf(bs) + [key];
    }
  }

  // ---------------------------------------------------------------------
  // the walk over the listed keys

  /** A listed key is counted when it is not a `manage@` key and its record has metadata. */
  predicate Counted(m: Store, key: string) {
    !StartsWith(key, "manage@") && key in m && m[key].metadata.Some?
  }

  function CountedBy(m: Store): string -> bool {
    (key: string) => Counted(m, key)
  }

  /** `metadata.TimeStamp` is truthy. */
  predicate Dated(meta: Meta) {
    meta.timeStamp.Some? && meta.timeStamp.value != 0
  }

  const Empty: StorageUsage :=
    StorageUsage(0.0, 0, Zeroed(ChannelKeys), Zeroed(TypeKeys), Zeroed(SizeKeys), [], [])

  /**
   * One counted file: its size (`parseFloat(FileSize) || 0`) goes to the
   * total, to its channel (default `Unknown`) if that is one of the five
   * named channels, to its type, to its size class, to its directory
   * (default `root`) and, when it is dated, to its month.
   */
  function AddFile(u: StorageUsage, meta: Meta, monthOf: int -> string): StorageUsage {
    var size := SizeOf(meta);
    Bumped(u, size, OrText(meta.channel, "Unknown"), FileStats.TypeCategory(OrText(meta.fileType, "")),
           SizeCategory(size), OrText(meta.directory, "root"),
           if Dated(meta) then Some(monthOf(meta.timeStamp.value)) else None)
  }

  /** One more file of `size` in the named bucket of each family; no month leaves the trends alone. */
  function Bumped(u: StorageUsage, size: real, channel: string, kind: string, sizeKey: string,
                  dir: string, month: Option<string>): StorageUsage {
    StorageUsage(
      u.totalSize + size,
      u.totalFiles + 1,
      AddTo(u.channelStats, channel, size),
      AddTo(u.typeStats, kind, size),
      AddTo(u.sizeDistribution, sizeKey, size),
      AddOrAppend(u.directoryStats, dir, size),
      if month.Some? then AddOrAppend(u.uploadTrends, month.value, size) else u.uploadTrends)
  }

  /** The buckets before sorting the months, after the first listed keys. */
  function Usage(m: Store, listed: seq<string>, monthOf: int -> string): StorageUsage
    decreases |listed|
  {
    if |listed| == 0 then Empty
    else
      var u := Usage(m, listed[..|listed| - 1], monthOf);
      var key := listed[|listed| - 1];
      if Counted(m, key) then AddFile(u, m[key].metadata.value, monthOf) else u
  }

  /**
   * What the buckets promise: the fixed families keep their keys; the
   * type, size and directory families account for every counted file and
   * its size; the channel and month families for at most that; and the
   * directory and month families hold one bucket per key.
   */
  predicate Balanced(u: StorageUsage) {
    BalancedOver(u, ChannelKeys, TypeKeys, SizeKeys)
  }

  /** Balance with the fixed families' key lists as parameters. */
  predicate BalancedOver(u: StorageUsage, channels: seq<string>, types: seq<string>, sizes: seq<string>) {
    && KeysOf(u.channelStats) == channels
    && KeysOf(u.typeStats) == types
    && KeysOf(u.sizeDistribution) == sizes
    && SumCounts(u.typeStats) == u.totalFiles && SumSizes(u.typeStats) == u.totalSize
    && SumCounts(u.sizeDistribution) == u.totalFiles && SumSizes(u.sizeDistribution) == u.totalSize
    && SumCounts(u.directoryStats) == u.totalFiles && SumSizes(u.directoryStats) == u.totalSize
    && SumCounts(u.channelStats) <= u.totalFiles
    && SumCounts(u.uploadTrends) <= u.totalFiles
    && NoDup(KeysOf(u.directoryStats))
    && NoDup(KeysOf(u.uploadTrends))
  }

  lemma EmptyBalanced()
    ensures Balanced(Empty)
  {
    ZeroedSums(ChannelKeys);
    ZeroedSums(TypeKeys);
    ZeroedSums(SizeKeys);
  }

  lemma AddFileBalanced(u: StorageUsage, meta: Meta, monthOf: int -> string)
    requires Balanced(u)
    ensures Balanced(AddFile(u, meta, monthOf))
  {
    var size := SizeOf(meta);
    var kind := FileStats.TypeCategory(OrText(meta.fileType, ""));
    assert kind in TypeKeys;
    var month := if Dated(meta) then Some(monthOf(meta.timeStamp.value)) else None;
    BumpedBalanced(u, ChannelKeys, TypeKeys, SizeKeys, size, OrText(meta.channel, "Unknown"), kind,
                   SizeCategory(size), OrText(meta.directory, "root"), month);
  }

  /** One more file, counted in a type and a size bucket that exist, keeps the families balanced. */
  lemma BumpedBalanced(u: StorageUsage, channels: seq<string>, types: seq<string>, sizes: seq<string>,
                       size: real, channel: string, kind: string, sizeKey: string, dir: string, month: Option<string>)
    requires BalancedOver(u, channels, types, sizes) && kind in types && sizeKey in sizes
    ensures BalancedOver(Bumped(u, size, channel, kind, sizeKey, dir, month), channels, types, sizes)
  {
    AddToSums(u.channelStats, channel, size);
    AddToSums(u.typeStats, kind, size);
    AddToSums(u.sizeDistribution, sizeKey, size);
    AddOrAppendSums(u.directoryStats, dir, size);
    if month.Some? {
      AddOrAppendSums(u.uploadTrends, month.value, size);
    }
  }

  /** `totalFiles` counts the listed keys that count, and the buckets stay balanced. */
  lemma {:induction false} UsageBalanced(m: Store, listed: seq<string>, monthOf: int -> string)
    ensures Balanced(Usage(m, listed, monthOf))
    ensures Usage(m, listed, monthOf).totalFiles == Count(listed, CountedBy(m))
    decreases |listed|
  {
    if |listed| == 0 {
      EmptyBalanced();
    } else {
      var key := listed[|listed| - 1];
      UsageBalanced(m, listed[..|listed| - 1], monthOf);
      if Counted(m, key) {
        AddFileBalanced(Usage(m, listed[..|listed| - 1], monthOf), m[key].metadata.value, monthOf);
      }
    }
  }

  /** Months compare as strings (`localeCompare` on `YYYY-MM` keys). */
  function MonthKey(): Bucket -> SortKey {
    (b: Bucket) => Text(b.key)
  }

  /** The result of `calculateStorageUsage`: the buckets, with the months sorted ascending. */
  function Calculated(m: Store, listed: seq<string>, monthOf: int -> string): StorageUsage {
    var u := Usage(m, listed, monthOf);
    u.(uploadTrends := SortBy(u.uploadTrends, MonthKey(), false))
  }

  /** The months are sorted ascending and are the month buckets of the walk, one per month. */
  lemma CalculatedTrends(m: Store, listed: seq<string>, monthOf: int -> string)
    ensures var u := Usage(m, listed, monthOf);
            var c := Calculated(m, listed, monthOf);
            && SortedBy(c.uploadTrends, MonthKey(), false)
            && multiset(c.uploadTrends) == multiset(u.uploadTrends)
            && NoDup(KeysOf(u.uploadTrends))
            && c.(uploadTrends := u.uploadTrends) == u
  {
    UsageBalanced(m, listed, monthOf);
  }

  /** The loop of `calculateStorageUsage` over the keys of one `list()` call. */
  method Calculate(kv: KvStore, listed: seq<string>, monthOf: int -> string) returns (u: StorageUsage)
    ensures u == Calculated(kv.entries, listed, monthOf)
  {
    u := Empty;
    for i := 0 to |listed|
      invariant u == Usage(kv.entries, listed[..i], monthOf)
    {
      assert listed[..i + 1][..i] == listed[..i];
      var key := listed[i];
      if StartsWith(key, "manage@") {
        continue;
      }
      if key !in kv.entries || kv.entries[key].metadata.None? {
        continue;
      }
      u := AddFile(u, kv.entries[key].metadata.value, monthOf);
    }
    assert listed[..|listed|] == listed;
    u := u.(uploadTrends := SortBy(u.uploadTrends, MonthKey(), false));
  }

  // ---------------------------------------------------------------------
  // the cache and the handler

  /** The cache exists and is younger than an hour at time `now`. */
  predicate CacheFresh(m: Store, now: int) {
    StorageCacheKey in m && m[StorageCacheKey].value.StorageCache?
    && now - m[StorageCacheKey].value.lastUpdated < CacheMaxAge
  }

  datatype Response = MethodNotAllowed | Cached(usage: StorageUsage) | Computed(usage: StorageUsage)

  /** `getStorageUsage`: the cache while it is fresh, otherwise a fresh computation that replaces it. */
  method GetStorageUsage(kv: KvStore, listed: seq<string>, now: int, monthOf: int -> string)
    returns (resp: Response)
    modifies kv
    ensures CacheFresh(old(kv.entries), now) ==>
              resp == Cached(old(kv.entries)[StorageCacheKey].value.usage) && kv.entries == old(kv.entries)
    ensures !CacheFresh(old(kv.entries), now) ==>
              && resp == Computed(Calculated(old(kv.entries), listed, monthOf))
              && kv.entries == old(kv.entries)[StorageCacheKey := Record(StorageCache(resp.usage, now), None)]
  {
    if StorageCacheKey in kv.entries && kv.entries[StorageCacheKey].value.StorageCache? {
      var cache := kv.entries[StorageCacheKey].value;
      if now - cache.lastUpdated < CacheMaxAge {
        return Cached(cache.usage);
      }
    }
    var usage := Calculate(kv, listed, monthOf);
    kv.Put(StorageCacheKey, Record(StorageCache(usage, now), None));
    resp := Computed(usage);
  }

  /** A recomputed answer is served from the cache for the next hour, and is never counted itself. */
  lemma RecomputedIsCached(m: Store, listed: seq<string>, now: int, later: int, monthOf: int -> string)
    requires now <= later < now + CacheMaxAge
    ensures var usage := Calculated(m, listed, monthOf);
            var m1 := m[StorageCacheKey := Record(StorageCache(usage, now), None)];
            && CacheFresh(m1, later)
            && m1[StorageCacheKey].value.usage == usage
            && !Counted(m1, StorageCacheKey)
  {
    assert StorageCacheKey[..7] == "manage@";
  }

  /**
   * Folder records carry metadata, so a folder created through the folder
   * endpoint counts as a file once its key is listed.
   */
  lemma CreatedFolderCounted(m: Store, folderPath: string, f: Folder, now: int)
    requires |folderPath| >= 1 && |f.name| >= 1 && f.fullPath == folderPath + f.name
    ensures Counted(FolderCreate.AfterCreate(m, folderPath, f, now), FolderKey(f.fullPath))
  {
    FolderCreate.CreateStoresFolder(m, folderPath, f, now);
    var k := FolderKey(f.fullPath);
    assert k[0] == 'f';
  }

  /** A channel outside the five named ones is counted in the totals but in no channel bucket. */
  lemma UnnamedChannelUncounted(u: StorageUsage, meta: Meta, monthOf: int -> string)
    requires Balanced(u)
    requires OrText(meta.channel, "Unknown") !in ChannelKeys
    ensures AddFile(u, meta, monthOf).totalFiles == u.totalFiles + 1
    ensures SumCounts(AddFile(u, meta, monthOf).channelStats) == SumCounts(u.channelStats)
  {
    AddToSums(u.channelStats, OrText(meta.channel, "Unknown"), SizeOf(meta));
  }

  method OnRequest(kv: KvStore, httpMethod: string, listed: seq<string>, now: int, monthOf: int -> string)
    returns (resp: Response)
    modifies kv
    ensures httpMethod != "GET" ==> resp == MethodNotAllowed && kv.entries == old(kv.entries)
    ensures httpMethod == "GET" && CacheFresh(old(kv.entries), now) ==>
              resp == Cached(old(kv.entries)[StorageCacheKey].value.usage) && kv.entries == old(kv.entries)
    ensures httpMethod == "GET" && !CacheFresh(old(kv.entries), now) ==>
              && resp == Computed(Calculated(old(kv.entries), listed, monthOf))
              && kv.entries == old(kv.entries)[StorageCacheKey := Record(StorageCache(resp.usage, now), None)]
  {
    if httpMethod != "GET" {
      return MethodNotAllowed;
    }
    resp := GetStorageUsage(kv, listed, now, monthOf);
  }
}
