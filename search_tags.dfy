/**
 * Searching files by tags (`/api/manage/search/tags`): the files carrying
 * every requested tag, optionally restricted to a directory, joined with
 * their metadata and tags, sorted and paged.
 */
module SearchTags {
  import opened Wrappers
  import opened JsString
  import opened Seqs
  import opened Ordering
  import opened Kv

  /** A matching file as the response lists it. */
  datatype TaggedFile = TaggedFile(
    name: string,
    fileName: string,
    fileType: string,
    fileSize: Option<real>,
    uploadTime: Option<int>,
    directory: string,
    tags: seq<string>,
    metadata: Meta)

  datatype Listing = Listing(files: seq<TaggedFile>, total: nat, start: nat, count: nat, hasMore: bool)

  datatype Response =
    | MethodNotAllowed
    | BadRequest(error: string)
    | FileList(listing: Listing)
  {
    function Status(): int {
      match this
      case MethodNotAllowed => 405
      case BadRequest(_) => 400
      case FileList(_) => 200
    }
  }

  // ---------------------------------------------------------------------
  // the `tags` parameter

  /** The trimmed pieces that are not empty, in order. */
  function TrimNonEmpty(parts: seq<string>): seq<string> {
    if |parts| == 0 then []
    else (if Trim(parts[0]) == "" then [] else [Trim(parts[0])]) + TrimNonEmpty(parts[1..])
  }

  /** `tagsParam.split(',').map(id => id.trim()).filter(id => id)`. */
  function ParseTagIds(tagsParam: string): seq<string> {
    TrimNonEmpty(Split(tagsParam, ','))
  }

  /** A tag id is clean when it is not empty, has no white space at either end and no comma. */
  predicate CleanId(id: string) {
    id != "" && Trim(id) == id && ',' !in id
  }

  lemma {:induction false} TrimNonEmptyClean(parts: seq<string>)
    requires forall k :: 0 <= k < |parts| ==> ',' !in parts[k]
    ensures forall i :: 0 <= i < |TrimNonEmpty(parts)| ==> CleanId(TrimNonEmpty(parts)[i])
  {
    if |parts| > 0 {
      var t := Trim(parts[0]);
      var head := if t == "" then [] else [t];
      var rest := TrimNonEmpty(parts[1..]);
      assert TrimNonEmpty(parts) == head + rest;
      assert forall k :: 0 <= k < |parts[1..]| ==> parts[1..][k] == parts[k + 1];
      TrimNonEmptyClean(parts[1..]);
      if t != "" {
        TrimmedClean(parts[0]);
      }
      CleanConcat(head, rest);
    }
  }

  /** A piece without commas that does not trim to nothing trims to a clean id. */
  lemma TrimmedClean(p: string)
    requires ',' !in p && Trim(p) != ""
    ensures CleanId(Trim(p))
  {
    TrimIdempotent(p);
    if ',' in Trim(p) {
      TrimKeepsChars(p, ',');
    }
  }

  lemma CleanConcat(a: seq<string>, b: seq<string>)
    requires forall i :: 0 <= i < |a| ==> CleanId(a[i])
    requires forall i :: 0 <= i < |b| ==> CleanId(b[i])
    ensures forall i :: 0 <= i < |a + b| ==> CleanId((a + b)[i])
  {
    forall i | 0 <= i < |a + b|
      ensures CleanId((a + b)[i])
    {
      if i >= |a| {
        assert (a + b)[i] == b[i - |a|];
      }
    }
  }

  /** Every id read from the parameter is clean. */
  lemma ParseTagIdsClean(tagsParam: string)
    ensures forall i :: 0 <= i < |ParseTagIds(tagsParam)| ==> CleanId(ParseTagIds(tagsParam)[i])
  {
    TrimNonEmptyClean(Split(tagsParam, ','));
  }

  lemma TrimNonEmptyCons(ids: seq<string>)
    requires |ids| > 0 && CleanId(ids[0])
    requires TrimNonEmpty(ids[1..]) == ids[1..]
    ensures TrimNonEmpty(ids) == ids
  {
    assert ids == [ids[0]] + ids[1..];
  }

  lemma {:induction false} TrimNonEmptyKeepsClean(ids: seq<string>)
    requires forall i :: 0 <= i < |ids| ==> CleanId(ids[i])
    ensures TrimNonEmpty(ids) == ids
  {
    if |ids| > 0 {
      var rest := ids[1..];
      forall k | 0 <= k < |rest|
        ensures CleanId(rest[k])
      {
        assert rest[k] == ids[k + 1];
      }
      TrimNonEmptyKeepsClean(rest);
      TrimNonEmptyCons(ids);
    }
  }

  /** Clean tag ids written as a comma-separated list are read back as they were. */
  lemma ParseTagIdsJoined(ids: seq<string>)
    requires forall i :: 0 <= i < |ids| ==> CleanId(ids[i])
    ensures ParseTagIds(Join(ids, ',')) == ids
  {
    if |ids| == 0 {
      assert Split("", ',') == [""];
    } else {
      SplitJoin(ids, ',');
      TrimNonEmptyKeepsClean(ids);
    }
  }

  // ---------------------------------------------------------------------
  // the files carrying the tags

  /** `list.filter(file => other.includes(file))`. */
  function KeepIn(files: seq<string>, other: seq<string>): (r: seq<string>)
    ensures |r| <= |files|
    ensures forall x :: x in r <==> x in files && x in other
  {
    if |files| == 0 then []
    else
      var rest := KeepIn(files[..|files| - 1], other);
      assert files == files[..|files| - 1] + [files[|files| - 1]];
      if files[|files| - 1] in other then rest + [files[|files| - 1]] else rest
  }

  /** The files of `first` that every tag of `tagIds` also lists, one intersection step per tag. */
  function Common(m: Store, first: seq<string>, tagIds: seq<string>): (r: seq<string>)
    ensures |r| <= |first|
  {
    if |tagIds| == 0 then first
    else KeepIn(Common(m, first, tagIds[..|tagIds| - 1]), TagFilesOf(m, tagIds[|tagIds| - 1]))
  }

  /** A file is in the intersection exactly when it is in the first list and in every other tag's list. */
  lemma {:induction false} CommonMembers(m: Store, first: seq<string>, tagIds: seq<string>, x: string)
    ensures x in Common(m, first, tagIds) <==>
              x in first && forall t :: t in tagIds ==> x in TagFilesOf(m, t)
  {
    if |tagIds| > 0 {
      var init := tagIds[..|tagIds| - 1];
      CommonMembers(m, first, init, x);
      assert tagIds == init + [tagIds[|tagIds| - 1]];
    }
  }

  /** Once the intersection is empty it stays empty, so the loop may stop early. */
  lemma {:induction false} CommonEmpty(m: Store, first: seq<string>, tagIds: seq<string>, n: nat)
    requires n <= |tagIds| && Common(m, first, tagIds[..n]) == []
    ensures Common(m, first, tagIds) == []
    decreases |tagIds| - n
  {
    if n < |tagIds| {
      assert tagIds[..n + 1][..n] == tagIds[..n];
      CommonEmpty(m, first, tagIds, n + 1);
    } else {
      assert tagIds[..n] == tagIds;
    }
  }

  /** `getFilesByMultipleTags`: intersects the tags' file lists in order, stopping once nothing is left. */
  method GetFilesByMultipleTags(kv: KvStore, tagIds: seq<string>) returns (files: seq<string>)
    ensures |tagIds| == 0 ==> files == []
    ensures |tagIds| > 0 ==> files == Common(kv.entries, TagFilesOf(kv.entries, tagIds[0]), tagIds[1..])
  {
    if |tagIds| == 0 {
      return [];
    }
    var first := TagFilesOf(kv.entries, tagIds[0]);
    var rest := tagIds[1..];
    files := first;
    var i := 1;
    while i < |tagIds|
      invariant 1 <= i <= |tagIds|
      invariant files == Common(kv.entries, first, rest[..i - 1])
    {
      assert rest[..i][..i - 1] == rest[..i - 1];
      files := KeepIn(files, TagFilesOf(kv.entries, tagIds[i]));
      if |files| == 0 {
        CommonEmpty(kv.entries, first, rest, i);
        return;
      }
      i := i + 1;
    }
    assert rest[..i - 1] == rest;
  }

  /** The files matching the tags: one tag's list, or the intersection of several. */
  function Matching(m: Store, tagIds: seq<string>): seq<string>
    requires |tagIds| > 0
  {
    if |tagIds| == 1 then TagFilesOf(m, tagIds[0]) else Common(m, TagFilesOf(m, tagIds[0]), tagIds[1..])
  }

  /** A file matches exactly when every requested tag lists it. */
  lemma MatchingMembers(m: Store, tagIds: seq<string>, x: string)
    requires |tagIds| > 0
    ensures x in Matching(m, tagIds) <==> forall t :: t in tagIds ==> x in TagFilesOf(m, t)
  {
    CommonMembers(m, TagFilesOf(m, tagIds[0]), tagIds[1..], x);
    assert tagIds == [tagIds[0]] + tagIds[1..];
  }

  // ---------------------------------------------------------------------
  // directory filter, metadata, order

  /** `filePath.startsWith(dir + '/') || filePath === dir`. */
  predicate InDir(path: string, dir: string) {
    StartsWith(path, dir + "/") || path == dir
  }

  function InDirOf(dir: string): string -> bool {
    path => InDir(path, dir)
  }

  /** The matching files restricted to `dir` when it is not empty. */
  function FilterDir(files: seq<string>, dir: string): (r: seq<string>)
    ensures dir == "" ==> r == files
    ensures forall x :: x in r <==> x in files && (dir == "" || InDir(x, dir))
  {
    if dir == "" then files else Filter(files, InDirOf(dir))
  }

  predicate HasMeta(m: Store, path: string) {
    path in m && m[path].metadata.Some?
  }

  function Describe(m: Store, path: string): TaggedFile
    requires HasMeta(m, path)
  {
    var meta := m[path].metadata.value;
    TaggedFile(path, OrText(meta.fileName, path), OrText(meta.fileType, ""), meta.fileSize,
               meta.timeStamp, OrText(meta.directory, ""), FileTagsOf(m, path), meta)
  }

  /** `filesWithMetadata`: the files that have metadata, described, in order. */
  function Collect(m: Store, paths: seq<string>): (r: seq<TaggedFile>)
    ensures |r| <= |paths|
    ensures forall i :: 0 <= i < |r| ==> r[i].name in paths && HasMeta(m, r[i].name) && r[i] == Describe(m, r[i].name)
  {
    if |paths| == 0 then []
    else
      var rest := Collect(m, paths[..|paths| - 1]);
      var path := paths[|paths| - 1];
      assert paths == paths[..|paths| - 1] + [path];
      if HasMeta(m, path) then rest + [Describe(m, path)] else rest
  }

  /** Every path with metadata is listed. */
  lemma {:induction false} CollectComplete(m: Store, paths: seq<string>)
    ensures forall p :: p in paths && HasMeta(m, p) ==> Describe(m, p) in Collect(m, paths)
  {
    if |paths| > 0 {
      CollectComplete(m, paths[..|paths| - 1]);
      assert paths == paths[..|paths| - 1] + [paths[|paths| - 1]];
    }
  }

  /** The comparator's key for `sortBy`; unknown names sort by file name. */
  function SortKeyOf(sortBy: string, f: TaggedFile): SortKey {
    if sortBy == "size" then Num(f.fileSize.GetOr(0.0))
    else if sortBy == "time" then Num(f.uploadTime.GetOr(0) as real)
    else if sortBy == "type" then Text(Lower(f.fileType))
    else Text(Lower(f.fileName))
  }

  function KeyFor(sortBy: string): TaggedFile -> SortKey {
    f => SortKeyOf(sortBy, f)
  }

  /** The response of `searchFilesByTags` for the query parameters. */
  function Search(m: Store, tagsParam: Option<string>, dirParam: Option<string>, start: nat, count: nat,
                  sortBy: Option<string>, sortOrder: Option<string>): (r: Response)
    ensures !Truthy(tagsParam) ==> r == BadRequest("Tags parameter is required")
    ensures Truthy(tagsParam) && ParseTagIds(tagsParam.value) == [] ==> r == BadRequest("At least one tag ID is required")
    ensures Truthy(tagsParam) && ParseTagIds(tagsParam.value) != [] ==>
              && r.FileList?
              && r.listing.start == start
              && r.listing.count == |r.listing.files| == Min(count, Max(0, r.listing.total - start))
              && r.listing.hasMore == HasMore(r.listing.total, start, count)
              && SortedBy(r.listing.files, KeyFor(OrText(sortBy, "name")), OrText(sortOrder, "asc") == "desc")
              && forall f :: f in r.listing.files ==>
                   && HasMeta(m, f.name) && f == Describe(m, f.name)
                   && (OrText(dirParam, "") == "" || InDir(f.name, OrText(dirParam, "")))
                   && f.name in Matching(m, ParseTagIds(tagsParam.value))
    ensures Truthy(tagsParam) && ParseTagIds(tagsParam.value) != [] ==>
              var all := Collect(m, FilterDir(Matching(m, ParseTagIds(tagsParam.value)), OrText(dirParam, "")));
              && r.listing.total == |all|
              && r.listing.files == Page(SortBy(all, KeyFor(OrText(sortBy, "name")), OrText(sortOrder, "asc") == "desc"), start, count)
  {
    if !Truthy(tagsParam) then BadRequest("Tags parameter is required")
    else
      var tagIds := ParseTagIds(tagsParam.value);
      if tagIds == [] then BadRequest("At least one tag ID is required")
      else
        var matching := FilterDir(Matching(m, tagIds), OrText(dirParam, ""));
        var all := Collect(m, matching);
        var key := KeyFor(OrText(sortBy, "name"));
        var desc := OrText(sortOrder, "asc") == "desc";
        var sorted := SortBy(all, key, desc);
        PageOfSorted(sorted, start, count, key, desc);
        var files := Page(sorted, start, count);
        forall f | f in files
          ensures f in all
        {
          assert f in multiset(sorted);
        }
        FileList(Listing(files, |all|, start, |files|, HasMore(|all|, start, count)))
  }

  /** A listed file carries every requested tag. */
  lemma ListedCarriesAllTags(m: Store, tagsParam: Option<string>, dirParam: Option<string>, start: nat,
                             count: nat, sortBy: Option<string>, sortOrder: Option<string>, f: TaggedFile, t: string)
    requires Search(m, tagsParam, dirParam, start, count, sortBy, sortOrder).FileList?
    requires f in Search(m, tagsParam, dirParam, start, count, sortBy, sortOrder).listing.files
    requires t in ParseTagIds(tagsParam.value)
    ensures f.name in TagFilesOf(m, t)
  {
    MatchingMembers(m, ParseTagIds(tagsParam.value), f.name);
  }

  /** `searchFilesByTags`, with the intersection computed by the loop. */
  method SearchFilesByTags(kv: KvStore, tagsParam: Option<string>, dirParam: Option<string>, start: nat,
                           count: nat, sortBy: Option<string>, sortOrder: Option<string>)
    returns (resp: Response)
    ensures resp == Search(kv.entries, tagsParam, dirParam, start, count, sortBy, sortOrder)
  {
    if !Truthy(tagsParam) {
      return BadRequest("Tags parameter is required");
    }
    var tagIds := ParseTagIds(tagsParam.value);
    if tagIds == [] {
      return BadRequest("At least one tag ID is required");
    }
    var matching;
    if |tagIds| == 1 {
      matching := TagFilesOf(kv.entries, tagIds[0]);
    } else {
      matching := GetFilesByMultipleTags(kv, tagIds);
    }
    matching := FilterDir(matching, OrText(dirParam, ""));
    var all := Collect(kv.entries, matching);
    var sorted := SortBy(all, KeyFor(OrText(sortBy, "name")), OrText(sortOrder, "asc") == "desc");
    var files := Page(sorted, start, count);
    resp := FileList(Listing(files, |all|, start, |files|, HasMore(|all|, start, count)));
  }

  /** `onRequest`: only GET is served; the store is only read. */
  method OnRequest(kv: KvStore, httpMethod: string, tagsParam: Option<string>, dirParam: Option<string>,
                   start: nat, count: nat, sortBy: Option<string>, sortOrder: Option<string>)
    returns (resp: Response)
    ensures httpMethod != "GET" ==> resp == MethodNotAllowed
    ensures httpMethod == "GET" ==> resp == Search(kv.entries, tagsParam, dirParam, start, count, sortBy, sortOrder)
  {
    if httpMethod != "GET" {
      return MethodNotAllowed;
    }
    resp := SearchFilesByTags(kv, tagsParam, dirParam, start, count, sortBy, sortOrder);
  }
}
