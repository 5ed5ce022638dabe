/**
 * File access statistics (`/api/manage/stats/files`).
 *
 * Every file listed in `manage@stats@index` may have an access log
 * `manage@file_stats@<path>`. The handler sums the logs that fall in the
 * requested time window into totals and per-category counters and,
 * on request, lists the accessed files by number of accesses.
 */
module FileStats {
  import opened Wrappers
  import opened JsString
  import opened Seqs
  import opened Ordering
  import opened Kv

  /** `getFileTypeCategory`: the statistics family of a MIME type. */
  function TypeCategory(mime: string): (r: string)
    ensures r in {"images", "videos", "audio", "documents", "archives", "others"}
    ensures r == "images" <==> StartsWith(mime, "image/")
    ensures r == "videos" <==> StartsWith(mime, "video/")
    ensures r == "audio" <==> StartsWith(mime, "audio/")
    ensures r == "documents" ==> StartsWith(mime, "text/") || Contains(mime, "document") || Contains(mime, "pdf")
    ensures r == "archives" ==> Contains(mime, "zip") || Contains(mime, "rar") || Contains(mime, "tar")
  {
    if StartsWith(mime, "image/") then "images"
    else if StartsWith(mime, "video/") then "videos"
    else if StartsWith(mime, "audio/") then "audio"
    else if StartsWith(mime, "text/") || Contains(mime, "document") || Contains(mime, "pdf") then "documents"
    else if Contains(mime, "zip") || Contains(mime, "rar") || Contains(mime, "tar") then "archives"
    else "others"
  }

  /** A log counts when its time lies in the window, both ends included. */
  predicate InWindow(log: AccessLog, from: int, to: int) {
    from <= log.accessTime <= to
  }

  function WindowOf(from: int, to: int): AccessLog -> bool {
    (log: AccessLog) => InWindow(log, from, to)
  }

  /** The logs of the window, in their stored order. */
  function Recent(logs: seq<AccessLog>, from: int, to: int): seq<AccessLog> {
    Filter(logs, WindowOf(from, to))
  }

  function OfKind(kind: string): AccessLog -> bool {
    (log: AccessLog) => log.accessType == kind
  }

  /** The number of views, downloads and shares among some logs. */
  datatype Hits = Hits(views: nat, downloads: nat, shares: nat) {
    function Total(): nat { views + downloads + shares }
  }

  function HitsOf(logs: seq<AccessLog>): (h: Hits)
    ensures h.views <= |logs| && h.downloads <= |logs| && h.shares <= |logs|
  {
    Hits(Count(logs, OfKind("view")), Count(logs, OfKind("download")), Count(logs, OfKind("share")))
  }

  /** The `type` filter: `'all'`, or a MIME type beginning with `type + '/'`. */
  predicate TypeMatches(kind: string, meta: Meta) {
    kind == "all" || StartsWith(OrText(meta.fileType, ""), kind + "/")
  }

  // ---------------------------------------------------------------------
  // the summary

  /** What the summary learns from one counted file. */
  datatype Counted = Counted(hits: Hits, category: string)

  /**
   * One indexed file in the summary loop: skipped without a stats record,
   * without a log in the window, without metadata, or of another type.
   */
  function SummaryEntry(m: Store, id: string, kind: string, from: int, to: int): Option<Counted> {
    match FileStatsOf(m, id)
    case None => None
    case Some(logs) =>
      var recent := Recent(logs, from, to);
      if |recent| == 0 then None
      else if id !in m || m[id].metadata.None? then None
      else if !TypeMatches(kind, m[id].metadata.value) then None
      else Some(Counted(HitsOf(recent), TypeCategory(OrText(m[id].metadata.value.fileType, ""))))
  }

  /** A file counts exactly when it has a stats record, a log in the window, metadata and the type asked for. */
  lemma SummaryEntryCounts(m: Store, id: string, kind: string, from: int, to: int)
    ensures SummaryEntry(m, id, kind, from, to).Some? <==>
              && FileStatsOf(m, id).Some?
              && |Recent(FileStatsOf(m, id).value, from, to)| > 0
              && id in m && m[id].metadata.Some?
              && TypeMatches(kind, m[id].metadata.value)
  {
  }

  function CountedIn(m: Store, kind: string, from: int, to: int): string -> bool {
    (id: string) => SummaryEntry(m, id, kind, from, to).Some?
  }

  /** A per-category counter of `fileTypeStats`. */
  datatype TypeStat = TypeStat(key: string, count: nat, views: nat, downloads: nat, shares: nat)

  /** The counter of `key` gains one file and its hits; a missing counter is appended first. */
  function Bump(stats: seq<TypeStat>, key: string, h: Hits): (r: seq<TypeStat>)
    decreases |stats|
  {
    if |stats| == 0 then [TypeStat(key, 1, h.views, h.downloads, h.shares)]
    else if stats[0].key == key then
      [stats[0].(count := stats[0].count + 1, views := stats[0].views + h.views,
                 downloads := stats[0].downloads + h.downloads, shares := stats[0].shares + h.shares)]
      + stats[1..]
    else [stats[0]] + Bump(stats[1..], key, h)
  }

  /** The keys of the per-type counters (each statistics module projects its own record type). */
  function KeysOf(stats: seq<TypeStat>): (r: seq<string>)
    ensures |r| == |stats| && forall i :: 0 <= i < |stats| ==> r[i] == stats[i].key
  {
    seq(|stats|, i requires 0 <= i < |stats| => stats[i].key)
  }

  function SumCount(stats: seq<TypeStat>): nat {
    if |stats| == 0 then 0 else stats[0].count + SumCount(stats[1..])
  }

  function SumViews(stats: seq<TypeStat>): nat {
    if |stats| == 0 then 0 else stats[0].views + SumViews(stats[1..])
  }

  function SumDownloads(stats: seq<TypeStat>): nat {
    if |stats| == 0 then 0 else stats[0].downloads + SumDownloads(stats[1..])
  }

  function SumShares(stats: seq<TypeStat>): nat {
    if |stats| == 0 then 0 else stats[0].shares + SumShares(stats[1..])
  }

  /** Bumping adds exactly one file and its hits to the sums, and keeps one counter per key. */
  lemma {:induction false} BumpSums(stats: seq<TypeStat>, key: string, h: Hits)
    ensures var r := Bump(stats, key, h);
            && SumCount(r) == SumCount(stats) + 1
            && SumViews(r) == SumViews(stats) + h.views
            && SumDownloads(r) == SumDownloads(stats) + h.downloads
            && SumShares(r) == SumShares(stats) + h.shares
    decreases |stats|
  {
    if |stats| > 0 && stats[0].key != key {
      BumpSums(stats[1..], key, h);
      assert Bump(stats, key, h)[1..] == Bump(stats[1..], key, h);
    } else if |stats| > 0 {
      assert Bump(stats, key, h)[1..] == stats[1..];
    }
  }

  lemma {:induction false} BumpKeys(stats: seq<TypeStat>, key: string, h: Hits)
    requires NoDup(KeysOf(stats))
    ensures NoDup(KeysOf(Bump(stats, key, h)))
    ensures key in KeysOf(Bump(stats, key, h))
    ensures forall k :: k in KeysOf(Bump(stats, key, h)) <==> k in KeysOf(stats) || k == key
    decreases |stats|
  {
    if |stats| > 0 {
      assert KeysOf(stats[1..]) == KeysOf(stats)[1..];
      if stats[0].key != key {
        BumpKeys(stats[1..], key, h);
        var rest := KeysOf(Bump(stats[1..], key, h));
        assert KeysOf(Bump(stats, key, h)) == [stats[0].key] + rest;
        assert stats[0].key !in KeysOf(stats[1..]);
        assert stats[0].key !in rest;
      } else {
        assert KeysOf(Bump(stats, key, h)) == KeysOf(stats);
        assert KeysOf(stats)[0] == key;
      }
    } else {
      assert KeysOf(Bump(stats, key, h))[0] == key;
    }
  }

  /** The totals of the summary. */
  datatype Totals = Totals(files: nat, views: nat, downloads: nat, shares: nat, byType: seq<TypeStat>)

  function AddCounted(t: Totals, c: Counted): Totals {
    Totals(t.files + 1, t.views + c.hits.views, t.downloads + c.hits.downloads,
           t.shares + c.hits.shares, Bump(t.byType, c.category, c.hits))
  }

  /** The summary over the first indexed files, one step per file. */
  function SummaryOf(m: Store, ids: seq<string>, kind: string, from: int, to: int): Totals
    decreases |ids|
  {
    if |ids| == 0 then Totals(0, 0, 0, 0, [])
    else
      var t := SummaryOf(m, ids[..|ids| - 1], kind, from, to);
      match SummaryEntry(m, ids[|ids| - 1], kind, from, to)
      case None => t
      case Some(c) => AddCounted(t, c)
  }

  /** `totalFiles` is the number of indexed files that count. */
  lemma {:induction false} SummaryCountsFiles(m: Store, ids: seq<string>, kind: string, from: int, to: int)
    ensures SummaryOf(m, ids, kind, from, to).files == Count(ids, CountedIn(m, kind, from, to))
    decreases |ids|
  {
    if |ids| > 0 {
      SummaryCountsFiles(m, ids[..|ids| - 1], kind, from, to);
    }
  }

  /**
   * The per-category counters hold one entry per category, and their
   * counts, views, downloads and shares add up to the totals.
   */
  lemma {:induction false} SummaryBalanced(m: Store, ids: seq<string>, kind: string, from: int, to: int)
    ensures var t := SummaryOf(m, ids, kind, from, to);
            && SumCount(t.byType) == t.files
            && SumViews(t.byType) == t.views
            && SumDownloads(t.byType) == t.downloads
            && SumShares(t.byType) == t.shares
            && NoDup(KeysOf(t.byType))
    decreases |ids|
  {
    if |ids| > 0 {
      var t := SummaryOf(m, ids[..|ids| - 1], kind, from, to);
      SummaryBalanced(m, ids[..|ids| - 1], kind, from, to);
      var e := SummaryEntry(m, ids[|ids| - 1], kind, from, to);
      if e.Some? {
        assert SummaryOf(m, ids, kind, from, to) == AddCounted(t, e.value);
        AddCountedBalanced(t, e.value);
      } else {
        assert SummaryOf(m, ids, kind, from, to) == t;
      }
    }
  }

  /** Totals whose per-category counters add up to them, one counter per category. */
  predicate Balanced(t: Totals) {
    && SumCount(t.byType) == t.files
    && SumViews(t.byType) == t.views
    && SumDownloads(t.byType) == t.downloads
    && SumShares(t.byType) == t.shares
    && NoDup(KeysOf(t.byType))
  }

  /** Counting one more file keeps the totals balanced. */
  lemma AddCountedBalanced(t: Totals, c: Counted)
    requires Balanced(t)
    ensures Balanced(AddCounted(t, c))
  {
    BumpSums(t.byType, c.category, c.hits);
    BumpKeys(t.byType, c.category, c.hits);
  }

  /** The body of the summary loop for one indexed file: what it adds, if anything. */
  method Examine(kv: KvStore, id: string, kind: string, from: int, to: int) returns (e: Option<Counted>)
    ensures e == SummaryEntry(kv.entries, id, kind, from, to)
  {
    var stats := FileStatsOf(kv.entries, id);
    if stats.None? {
      return None;
    }
    var recent := Recent(stats.value, from, to);
    if |recent| == 0 {
      return None;
    }
    if id !in kv.entries || kv.entries[id].metadata.None? {
      return None;
    }
    var meta := kv.entries[id].metadata.value;
    if kind != "all" && !StartsWith(OrText(meta.fileType, ""), kind + "/") {
      return None;
    }
    e := Some(Counted(HitsOf(recent), TypeCategory(OrText(meta.fileType, ""))));
  }

  /** The summary loop of `getFileStats`. */
  method Summarize(kv: KvStore, ids: seq<string>, kind: string, from: int, to: int) returns (t: Totals)
    ensures t == SummaryOf(kv.entries, ids, kind, from, to)
  {
    t := Totals(0, 0, 0, 0, []);
    for i := 0 to |ids|
      invariant t == SummaryOf(kv.entries, ids[..i], kind, from, to)
    {
      assert ids[..i + 1][..i] == ids[..i];
      var e := Examine(kv, ids[i], kind, from, to);
      if e.Some? {
        t := AddCounted(t, e.value);
      }
    }
    assert ids[..|ids|] == ids;
  }

  // ---------------------------------------------------------------------
  // the detailed list

  /** An entry of the detailed list. */
  datatype FileEntry = FileEntry(fileId: string, fileName: string, fileType: string,
                                 fileSize: Option<real>, uploadTime: Option<int>,
                                 viewCount: nat, downloadCount: nat, shareCount: nat,
                                 totalAccess: nat, lastAccessed: int)

  /** The latest access time among some logs. */
  function Latest(logs: seq<AccessLog>): (t: int)
    requires |logs| > 0
    ensures exists i :: 0 <= i < |logs| && logs[i].accessTime == t
    ensures forall i :: 0 <= i < |logs| ==> logs[i].accessTime <= t
  {
    if |logs| == 1 then logs[0].accessTime
    else
      var rest := Latest(logs[1..]);
      assert forall i :: 1 <= i < |logs| ==> logs[i] == logs[1..][i - 1];
      if logs[0].accessTime >= rest then logs[0].accessTime else rest
  }

  /**
   * One indexed file in `getAllFilesWithStats`: skipped without a stats
   * record, without metadata, of another type, or without any view,
   * download or share in the window.
   */
  function DetailEntry(m: Store, id: string, kind: string, from: int, to: int): Option<FileEntry> {
    match FileStatsOf(m, id)
    case None => None
    case Some(logs) =>
      if id !in m || m[id].metadata.None? then None
      else
        var meta := m[id].metadata.value;
        if !TypeMatches(kind, meta) then None
        else
          var recent := Recent(logs, from, to);
          var h := HitsOf(recent);
          if h.Total() == 0 then None
          else Some(FileEntry(id, OrText(meta.fileName, id), OrText(meta.fileType, ""), meta.fileSize,
                              meta.timeStamp, h.views, h.downloads, h.shares, h.Total(), Latest(recent)))
  }

  function Details(m: Store, ids: seq<string>, kind: string, from: int, to: int): seq<FileEntry>
    decreases |ids|
  {
    if |ids| == 0 then []
    else
      var d := Details(m, ids[..|ids| - 1], kind, from, to);
      match DetailEntry(m, ids[|ids| - 1], kind, from, to)
      case None => d
      case Some(e) => d + [e]
  }

  /**
   * Every listed file was accessed in the window, its total is the sum of
   * its views, downloads and shares, its last access is the latest time in
   * the window, and the summary counts it too.
   */
  lemma DetailEntrySound(m: Store, id: string, kind: string, from: int, to: int)
    requires DetailEntry(m, id, kind, from, to).Some?
    ensures var e := DetailEntry(m, id, kind, from, to).value;
            var recent := Recent(FileStatsOf(m, id).value, from, to);
            && e.fileId == id
            && e.totalAccess > 0
            && e.totalAccess == e.viewCount + e.downloadCount + e.shareCount
            && (forall i :: 0 <= i < |recent| ==> recent[i].accessTime <= e.lastAccessed)
            && from <= e.lastAccessed <= to
            && SummaryEntry(m, id, kind, from, to).Some?
  {
    var recent := Recent(FileStatsOf(m, id).value, from, to);
    assert |recent| > 0;
    var e := DetailEntry(m, id, kind, from, to).value;
    var i :| 0 <= i < |recent| && recent[i].accessTime == e.lastAccessed;
    assert InWindow(recent[i], from, to);
  }

  lemma {:induction false} DetailsSound(m: Store, ids: seq<string>, kind: string, from: int, to: int)
    ensures forall e :: e in Details(m, ids, kind, from, to) ==>
              e.fileId in ids && e.totalAccess > 0 && CountedIn(m, kind, from, to)(e.fileId)
    decreases |ids|
  {
    if |ids| > 0 {
      var prefix := ids[..|ids| - 1];
      DetailsSound(m, prefix, kind, from, to);
      forall e | e in Details(m, prefix, kind, from, to)
        ensures e.fileId in ids
      {
        PrefixMember(prefix, ids, e.fileId);
      }
      var x := DetailEntry(m, ids[|ids| - 1], kind, from, to);
      if x.Some? {
        DetailEntrySound(m, ids[|ids| - 1], kind, from, to);
      }
    }
  }

  /** The loop of `getAllFilesWithStats`. */
  method CollectDetails(kv: KvStore, ids: seq<string>, kind: string, from: int, to: int)
    returns (files: seq<FileEntry>)
    ensures files == Details(kv.entries, ids, kind, from, to)
  {
    files := [];
    for i := 0 to |ids|
      invariant files == Details(kv.entries, ids[..i], kind, from, to)
    {
      DetailsSnoc(kv.entries, ids, i, kind, from, to);
      var x := DetailOf(kv, ids[i], kind, from, to);
      if x.Some? {
        files := files + [x.value];
      }
    }
    assert ids[..|ids|] == ids;
  }

  lemma DetailsSnoc(m: Store, ids: seq<string>, i: int, kind: string, from: int, to: int)
    requires 0 <= i < |ids|
    ensures Details(m, ids[..i + 1], kind, from, to) ==
            match DetailEntry(m, ids[i], kind, from, to)
            case None => Details(m, ids[..i], kind, from, to)
            case Some(e) => Details(m, ids[..i], kind, from, to) + [e]
  {
    assert ids[..i + 1][..i] == ids[..i];
  }

  /** One iteration of that loop: the entry of one file, or nothing when it is skipped. */
  method DetailOf(kv: KvStore, id: string, kind: string, from: int, to: int) returns (x: Option<FileEntry>)
    ensures x == DetailEntry(kv.entries, id, kind, from, to)
  {
    var stats := FileStatsOf(kv.entries, id);
    if stats.None? || id !in kv.entries || kv.entries[id].metadata.None? {
      return None;
    }
    var meta := kv.entries[id].metadata.value;
    if kind != "all" && !StartsWith(OrText(meta.fileType, ""), kind + "/") {
      return None;
    }
    assert TypeMatches(kind, meta);
    var recent := Recent(stats.value, from, to);
    var h := HitsOf(recent);
    if h.views + h.downloads + h.shares > 0 {
      x := Some(FileEntry(id, OrText(meta.fileName, id), OrText(meta.fileType, ""), meta.fileSize,
                          meta.timeStamp, h.views, h.downloads, h.shares, h.Total(), Latest(recent)));
    } else {
      x := None;
    }
  }

  function AccessKey(): FileEntry -> SortKey {
    (e: FileEntry) => Num(e.totalAccess as real)
  }

  // ---------------------------------------------------------------------
  // the handler

  datatype Response =
    | MethodNotAllowed
    | Stats(totalFiles: nat, totalViews: nat, totalDownloads: nat, totalShares: nat,
            fileTypeStats: seq<TypeStat>, files: seq<FileEntry>, total: Option<nat>)

  /**
   * GET: the summary of the indexed files for the window `[from, to]` and the
   * `type` filter (default `'all'`); with `detailed`, also the page
   * `[start, start + count)` of the listed files, most accessed first, and
   * their number.
   */
  method GetFileStats(kv: KvStore, kind: Option<string>, detailed: bool, start: nat, count: nat,
                      from: int, to: int)
    returns (resp: Response)
    ensures var ids := StatsIndexOf(kv.entries);
            var t := SummaryOf(kv.entries, ids, OrText(kind, "all"), from, to);
            var all := Details(kv.entries, ids, OrText(kind, "all"), from, to);
            && resp.Stats?
            && resp.totalFiles == t.files && resp.totalViews == t.views
            && resp.totalDownloads == t.downloads && resp.totalShares == t.shares
            && resp.fileTypeStats == t.byType
            && (detailed ==> resp.files == Page(SortBy(all, AccessKey(), true), start, count)
                             && resp.total == Some(|all|))
            && (!detailed ==> resp.files == [] && resp.total.None?)
  {
    var k := OrText(kind, "all");
    var ids := StatsIndexOf(kv.entries);
    var files: seq<FileEntry> := [];
    var total: Option<nat> := None;
    if detailed {
      var all := CollectDetails(kv, ids, k, from, to);
      files := Page(SortBy(all, AccessKey(), true), start, count);
      total := Some(|all|);
    }
    var t := Summarize(kv, ids, k, from, to);
    resp := Stats(t.files, t.views, t.downloads, t.shares, t.byType, files, total);
  }

  /** The listed page is ordered by number of accesses, most first, and every entry was counted. */
  lemma ListedPageSorted(m: Store, kind: string, start: nat, count: nat, from: int, to: int)
    ensures var all := Details(m, StatsIndexOf(m), kind, from, to);
            var page := Page(SortBy(all, AccessKey(), true), start, count);
            && SortedBy(page, AccessKey(), true)
            && forall e :: e in page ==> e.totalAccess > 0 && CountedIn(m, kind, from, to)(e.fileId)
  {
    var all := Details(m, StatsIndexOf(m), kind, from, to);
    var sorted := SortBy(all, AccessKey(), true);
    PageOfSorted(sorted, start, count, AccessKey(), true);
    DetailsSound(m, StatsIndexOf(m), kind, from, to);
    forall e | e in Page(sorted, start, count)
      ensures e.totalAccess > 0 && CountedIn(m, kind, from, to)(e.fileId)
    {
      assert e in multiset(sorted);
      assert e in all;
    }
  }

  method OnRequest(kv: KvStore, httpMethod: string, kind: Option<string>, detailed: bool,
                   start: nat, count: nat, from: int, to: int)
    returns (resp: Response)
    ensures httpMethod != "GET" ==> resp == MethodNotAllowed
    ensures httpMethod == "GET" ==>
              var ids := StatsIndexOf(kv.entries);
              var t := SummaryOf(kv.entries, ids, OrText(kind, "all"), from, to);
              var all := Details(kv.entries, ids, OrText(kind, "all"), from, to);
              && resp.Stats?
              && resp.totalFiles == t.files && resp.totalViews == t.views
              && resp.totalDownloads == t.downloads && resp.totalShares == t.shares
              && resp.fileTypeStats == t.byType
              && (detailed ==> resp.files == Page(SortBy(all, AccessKey(), true), start, count)
                               && resp.total == Some(|all|))
              && (!detailed ==> resp.files == [] && resp.total.None?)
  {
    if httpMethod != "GET" {
      return MethodNotAllowed;
    }
    resp := GetFileStats(kv, kind, detailed, start, count, from, to);
  }
}
