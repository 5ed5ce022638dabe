/**
 * File search (`/api/manage/search`): a search through the file index,
 * or, when the index cannot answer, a scan of the KV namespace.
 *
 * The index itself (`readIndex`) is not part of this model: its answer is
 * a parameter, `None` when it fails. The KV scan walks the keys `list`
 * returns under the `dir` prefix, which are a parameter too, in the order
 * `list` returns them.
 */
module FileSearch {
  import opened Wrappers
  import opened JsString
  import opened Seqs
  import opened Ordering
  import opened Kv

  /** A key as `list` returns it, with the record's metadata. */
  datatype ListedKey = ListedKey(name: string, metadata: Option<Meta>)

  /** A file of the response: its key and its metadata. */
  datatype FoundFile = FoundFile(name: string, metadata: Meta)

  /** What the index answers: the files matching the search and the directories below `dir`. */
  datatype IndexResult = IndexResult(files: seq<FoundFile>, directories: seq<string>)

  datatype Response =
    | MethodNotAllowed
    | BadRequest(error: string)
    | Indexed(files: seq<FoundFile>, directories: seq<string>, totalCount: nat, returnedCount: nat,
              query: string, fileType: string, sortBy: string, sortOrder: string)
    | Fallback(files: seq<FoundFile>, directories: seq<string>, totalCount: nat, returnedCount: nat)
  {
    function Status(): int {
      match this
      case MethodNotAllowed => 405
      case BadRequest(_) => 400
      case _ => 200
    }
  }

  // ---------------------------------------------------------------------
  // getFileType

  const ImageTypes: seq<string> := ["jpg", "jpeg", "png", "gif", "webp", "svg", "bmp", "ico"]
  const VideoTypes: seq<string> := ["mp4", "avi", "mov", "wmv", "flv", "webm", "mkv", "3gp"]
  const AudioTypes: seq<string> := ["mp3", "wav", "flac", "aac", "ogg", "wma", "m4a"]
  const DocumentTypes: seq<string> := ["pdf", "doc", "docx", "xls", "xlsx", "ppt", "pptx", "txt", "rtf"]

  /** `fileName.split('.').pop()?.toLowerCase()`: the whole name when it has no dot. */
  function Extension(fileName: string): string {
    Lower(LastSegment(fileName, '.'))
  }

  /** The category of an extension: the first list holding it, or `other`. */
  function Category(ext: string): (r: string)
    ensures r == "image" || r == "video" || r == "audio" || r == "document" || r == "other"
  {
    if ext in ImageTypes then "image"
    else if ext in VideoTypes then "video"
    else if ext in AudioTypes then "audio"
    else if ext in DocumentTypes then "document"
    else "other"
  }

  /** `getFileType`. */
  function FileType(fileName: string): string {
    Category(Extension(fileName))
  }

  /** No extension is in two lists. */
  lemma ListsDisjoint()
    ensures forall i, j :: 0 <= i < |ImageTypes| && 0 <= j < |VideoTypes| ==> ImageTypes[i] != VideoTypes[j]
    ensures forall i, j :: 0 <= i < |ImageTypes| && 0 <= j < |AudioTypes| ==> ImageTypes[i] != AudioTypes[j]
    ensures forall i, j :: 0 <= i < |ImageTypes| && 0 <= j < |DocumentTypes| ==> ImageTypes[i] != DocumentTypes[j]
    ensures forall i, j :: 0 <= i < |VideoTypes| && 0 <= j < |AudioTypes| ==> VideoTypes[i] != AudioTypes[j]
    ensures forall i, j :: 0 <= i < |VideoTypes| && 0 <= j < |DocumentTypes| ==> VideoTypes[i] != DocumentTypes[j]
    ensures forall i, j :: 0 <= i < |AudioTypes| && 0 <= j < |DocumentTypes| ==> AudioTypes[i] != DocumentTypes[j]
  {
  }

  /** Each category is exactly its own list, so the order of the checks does not matter. */
  lemma CategoryByList(ext: string)
    ensures Category(ext) == "image" <==> ext in ImageTypes
    ensures Category(ext) == "video" <==> ext in VideoTypes
    ensures Category(ext) == "audio" <==> ext in AudioTypes
    ensures Category(ext) == "document" <==> ext in DocumentTypes
  {
    ListsDisjoint();
  }

  /** The extension, and so the category, does not depend on the case of the name. */
  lemma FileTypeIgnoresCase(fileName: string)
    ensures Extension(Lower(fileName)) == Extension(fileName)
    ensures FileType(Lower(fileName)) == FileType(fileName)
  {
    LastSegmentLower(fileName, '.');
    LowerIdempotent(LastSegment(fileName, '.'));
  }

  // ---------------------------------------------------------------------
  // sortFiles

  /** The comparator's key for `sortBy`; unknown names sort by lowered file name. */
  function SortKeyOf(sortBy: string, f: FoundFile): SortKey {
    if sortBy == "date" then Num(f.metadata.timeStamp.GetOr(0) as real)
    else if sortBy == "size" then Num(SizeOf(f.metadata))
    else if sortBy == "type" then Text(OrText(f.metadata.fileType, ""))
    else Text(Lower(OrText(f.metadata.fileName, f.name)))
  }

  function KeyFor(sortBy: string): FoundFile -> SortKey {
    f => SortKeyOf(sortBy, f)
  }

  /** `sortFiles`: the files reordered by the key of `sortBy`, descending for `desc`. */
  function SortFiles(files: seq<FoundFile>, sortBy: string, sortOrder: string): (r: seq<FoundFile>)
    ensures multiset(r) == multiset(files)
    ensures SortedBy(r, KeyFor(sortBy), sortOrder == "desc")
  {
    SortBy(files, KeyFor(sortBy), sortOrder == "desc")
  }

  // ---------------------------------------------------------------------
  // the search through the index

  function TypeIs(fileType: string): FoundFile -> bool {
    (f: FoundFile) => FileType(OrText(f.metadata.fileName, f.name)) == fileType
  }

  /** The index's files of the requested type, as the filter of `searchFiles` keeps them. */
  function Typed(files: seq<FoundFile>, fileType: string): seq<FoundFile> {
    if fileType == "all" then files else Filter(files, TypeIs(fileType))
  }

  /**
   * The files the index answers carry an id but no `name`, so the name
   * comparator of `sortFiles` (also used for an unknown `sortBy`) calls
   * `toLowerCase` on `undefined` for a file whose `FileName` is absent or
   * empty. The sort compares only when there are two files or more, and
   * then every file takes part in some comparison, so it throws exactly
   * then. `searchFiles` catches the TypeError and reports failure.
   */
  predicate NameSortThrows(files: seq<FoundFile>, sortBy: string) {
    && sortBy != "date" && sortBy != "size" && sortBy != "type"
    && |files| >= 2
    && exists i :: 0 <= i < |files| && OrText(files[i].metadata.fileName, "") == ""
  }

  /**
   * `searchFiles`: the index's files of the requested type, sorted; `None`
   * when the sort throws and the search reports failure.
   */
  function IndexSearch(result: IndexResult, fileType: string, sortBy: string, sortOrder: string): (r: Option<seq<FoundFile>>)
    ensures r.None? <==> NameSortThrows(Typed(result.files, fileType), sortBy)
    ensures r.Some? && fileType == "all" ==> multiset(r.value) == multiset(result.files)
    ensures r.Some? && fileType != "all" ==> multiset(r.value) == multiset(Filter(result.files, TypeIs(fileType)))
    ensures r.Some? ==> SortedBy(r.value, KeyFor(sortBy), sortOrder == "desc")
  {
    var files := Typed(result.files, fileType);
    if NameSortThrows(files, sortBy) then None else Some(SortFiles(files, sortBy, sortOrder))
  }

  /** Every file the index search returns has the requested type, and every such file is returned. */
  lemma IndexSearchExact(result: IndexResult, fileType: string, sortBy: string, sortOrder: string, f: FoundFile)
    requires fileType != "all"
    requires IndexSearch(result, fileType, sortBy, sortOrder).Some?
    ensures f in IndexSearch(result, fileType, sortBy, sortOrder).value <==>
              f in result.files && FileType(OrText(f.metadata.fileName, f.name)) == fileType
  {
    var r := IndexSearch(result, fileType, sortBy, sortOrder).value;
    var filtered := Filter(result.files, TypeIs(fileType));
    assert f in r <==> f in multiset(r);
    assert f in filtered <==> f in multiset(filtered);
  }

  /**
   * When the index answer is sorted by name, every file has a `FileName`
   * of its own (or there is at most one file, which is never compared),
   * so the key is the lowered `FileName` the source compares.
   */
  lemma IndexNameSortUsesFileName(result: IndexResult, fileType: string, sortBy: string, sortOrder: string, f: FoundFile)
    requires sortBy != "date" && sortBy != "size" && sortBy != "type"
    requires IndexSearch(result, fileType, sortBy, sortOrder).Some?
    requires |IndexSearch(result, fileType, sortBy, sortOrder).value| >= 2
    requires f in IndexSearch(result, fileType, sortBy, sortOrder).value
    ensures f.metadata.fileName.Some? && f.metadata.fileName.value != ""
    ensures SortKeyOf(sortBy, f) == Text(Lower(f.metadata.fileName.value))
  {
    var files := Typed(result.files, fileType);
    var r := IndexSearch(result, fileType, sortBy, sortOrder).value;
    assert multiset(r) == multiset(files);
    assert |files| == |r| by {
      assert |multiset(r)| == |r| && |multiset(files)| == |files|;
    }
    assert f in multiset(files);
    var i :| 0 <= i < |files| && files[i] == f;
    assert OrText(files[i].metadata.fileName, "") != "";
  }

  /** An index answer of two files, one without a `FileName`, makes the name sort fail. */
  lemma UnnamedIndexFileFails(named: Meta, unnamed: Meta)
    requires named.fileName == Some("a.png") && unnamed.fileName.None?
    ensures IndexSearch(IndexResult([FoundFile("x/a.png", named), FoundFile("x/b.png", unnamed)], []),
                        "all", "name", "asc").None?
  {
    var files := [FoundFile("x/a.png", named), FoundFile("x/b.png", unnamed)];
    assert OrText(files[1].metadata.fileName, "") == "";
  }

  // ---------------------------------------------------------------------
  // the KV scan

  /** Keys of the management records and of upload chunks are never search results. */
  predicate Reserved(name: string) {
    StartsWith(name, "manage@") || StartsWith(name, "chunk_")
  }

  /** The scan looks at a key that is not reserved and has metadata with a non-zero `TimeStamp`. */
  predicate Scanned(item: ListedKey) {
    && !Reserved(item.name)
    && item.metadata.Some?
    && item.metadata.value.timeStamp.Some?
    && item.metadata.value.timeStamp.value != 0
  }

  function DisplayName(item: ListedKey): string
    requires item.metadata.Some?
  {
    OrText(item.metadata.value.fileName, item.name)
  }

  /** The lowered display name contains the lowered query and the type is `all` or matches. */
  predicate Hit(item: ListedKey, query: string, fileType: string)
    requires item.metadata.Some?
  {
    Contains(Lower(DisplayName(item)), Lower(query))
    && (fileType == "all" || FileType(DisplayName(item)) == fileType)
  }

  function AsFound(item: ListedKey): FoundFile
    requires item.metadata.Some?
  {
    FoundFile(item.name, item.metadata.value)
  }

  /** The directory `parts[0]/…/parts[i-1]/`. */
  function DirOf(parts: seq<string>, i: nat): string
    requires 1 <= i <= |parts|
  {
    Join(parts[..i], '/') + "/"
  }

  /** `set.add(x)` on a set kept in insertion order. */
  function SetAdd(s: seq<string>, x: string): seq<string> {
    if x in s then s else s + [x]
  }

  /** `dirs` after adding `DirOf(parts, i)` for `i` from 1 below `n`. */
  function AddDirs(dirs: seq<string>, parts: seq<string>, n: nat): seq<string>
    requires n <= |parts|
  {
    if n <= 1 then dirs else SetAdd(AddDirs(dirs, parts, n - 1), DirOf(parts, n - 1))
  }

  datatype Scan = Scan(found: seq<FoundFile>, dirs: seq<string>)

  /** The matches and the directories collected from the scanned keys, in scan order. */
  function ScanSpec(listed: seq<ListedKey>, query: string, fileType: string): Scan {
    if |listed| == 0 then Scan([], [])
    else
      var prev := ScanSpec(listed[..|listed| - 1], query, fileType);
      var item := listed[|listed| - 1];
      if !Scanned(item) then prev
      else
        var found := if Hit(item, query, fileType) then prev.found + [AsFound(item)] else prev.found;
        var parts := Split(item.name, '/');
        Scan(found, AddDirs(prev.dirs, parts, |parts|))
  }

  /** Every match is a scanned key that hits. */
  lemma {:induction false} ScanFoundSound(listed: seq<ListedKey>, query: string, fileType: string)
    ensures forall f :: f in ScanSpec(listed, query, fileType).found ==>
              var item := ListedKey(f.name, Some(f.metadata));
              item in listed && Scanned(item) && Hit(item, query, fileType)
  {
    if |listed| > 0 {
      var init := listed[..|listed| - 1];
      ScanFoundSound(init, query, fileType);
      assert listed == init + [listed[|listed| - 1]];
    }
  }

  /** Every scanned key that hits is a match. */
  lemma {:induction false} ScanFoundComplete(listed: seq<ListedKey>, query: string, fileType: string)
    ensures forall item :: item in listed && Scanned(item) && Hit(item, query, fileType) ==>
              AsFound(item) in ScanSpec(listed, query, fileType).found
  {
    if |listed| > 0 {
      var init := listed[..|listed| - 1];
      ScanFoundComplete(init, query, fileType);
      assert listed == init + [listed[|listed| - 1]];
    }
  }

  /** The directories added for one key are its prefixes `DirOf(parts, i)` with `1 <= i < n`. */
  lemma {:induction false} AddDirsMembers(dirs: seq<string>, parts: seq<string>, n: nat, x: string)
    requires n <= |parts|
    ensures x in AddDirs(dirs, parts, n) <==> x in dirs || exists i :: 1 <= i < n && x == DirOf(parts, i)
  {
    if n > 1 {
      AddDirsMembers(dirs, parts, n - 1, x);
    }
  }

  lemma {:induction false} AddDirsNoDup(dirs: seq<string>, parts: seq<string>, n: nat)
    requires n <= |parts| && NoDup(dirs)
    ensures NoDup(AddDirs(dirs, parts, n))
  {
    if n > 1 {
      AddDirsNoDup(dirs, parts, n - 1);
    }
  }

  /** `d` is one of the proper directory prefixes of the key `name`. */
  predicate DirOfKey(d: string, name: string) {
    exists i :: 1 <= i < |Split(name, '/')| && d == DirOf(Split(name, '/'), i)
  }

  /** The directories are exactly the directory prefixes of the scanned keys, each once. */
  lemma {:induction false} ScanDirsExact(listed: seq<ListedKey>, query: string, fileType: string, d: string)
    ensures NoDup(ScanSpec(listed, query, fileType).dirs)
    ensures d in ScanSpec(listed, query, fileType).dirs <==>
              exists item :: item in listed && Scanned(item) && DirOfKey(d, item.name)
  {
    if |listed| > 0 {
      var init := listed[..|listed| - 1];
      var item := listed[|listed| - 1];
      ScanDirsExact(init, query, fileType, d);
      assert listed == init + [item];
      if Scanned(item) {
        var parts := Split(item.name, '/');
        var prev := ScanSpec(init, query, fileType);
        AddDirsMembers(prev.dirs, parts, |parts|, d);
        AddDirsNoDup(prev.dirs, parts, |parts|);
        if d in ScanSpec(listed, query, fileType).dirs && d !in prev.dirs {
          assert DirOfKey(d, item.name);
        }
        if DirOfKey(d, item.name) {
          var i :| 1 <= i < |parts| && d == DirOf(parts, i);
          assert d in AddDirs(prev.dirs, parts, |parts|);
        }
      }
    }
  }

  /** A directory of a key is a prefix of the key that ends with `/`. */
  lemma DirOfIsPrefix(name: string, i: nat)
    requires 1 <= i < |Split(name, '/')|
    ensures StartsWith(name, DirOf(Split(name, '/'), i))
    ensures EndsWith(DirOf(Split(name, '/'), i), "/")
  {
    var parts := Split(name, '/');
    JoinSplit(name, '/');
    assert parts == parts[..i] + parts[i..];
    JoinAppend(parts[..i], parts[i..], '/');
    var d := DirOf(parts, i);
    assert name == d + Join(parts[i..], '/');
    assert name[..|d|] == d;
  }

  /** `searchFilesInKV`'s loop over the listed keys. */
  method ScanKeys(listed: seq<ListedKey>, query: string, fileType: string)
    returns (found: seq<FoundFile>, dirs: seq<string>)
    ensures Scan(found, dirs) == ScanSpec(listed, query, fileType)
  {
    found := [];
    dirs := [];
    for i := 0 to |listed|
      invariant Scan(found, dirs) == ScanSpec(listed[..i], query, fileType)
    {
      assert listed[..i + 1][..i] == listed[..i];
      var item := listed[i];
      if Reserved(item.name) {
        continue;
      }
      if item.metadata.None? || item.metadata.value.timeStamp.None? || item.metadata.value.timeStamp.value == 0 {
        continue;
      }
      if Hit(item, query, fileType) {
        found := found + [AsFound(item)];
      }
      var parts := Split(item.name, '/');
      if |parts| > 1 {
        ghost var before := dirs;
        for j := 1 to |parts|
          invariant dirs == AddDirs(before, parts, j)
        {
          var d := Join(parts[..j], '/') + "/";
          if d !in dirs {
            dirs := dirs + [d];
          }
        }
      }
    }
    assert listed[..|listed|] == listed;
  }

  /** `searchFilesInKV`: the matches sorted, then the page `start..start+count`. */
  method SearchFilesInKv(listed: seq<ListedKey>, query: string, fileType: string, start: nat, count: nat,
                         sortBy: string, sortOrder: string)
    returns (resp: Response)
    ensures var scan := ScanSpec(listed, query, fileType);
            && resp.Fallback?
            && resp.files == Page(SortFiles(scan.found, sortBy, sortOrder), start, count)
            && resp.directories == scan.dirs
            && resp.totalCount == |scan.found|
            && resp.returnedCount == |resp.files| == Min(count, Max(0, |scan.found| - start))
  {
    var found, dirs := ScanKeys(listed, query, fileType);
    var sorted := SortFiles(found, sortBy, sortOrder);
    var page := Page(sorted, start, count);
    resp := Fallback(page, dirs, |sorted|, |page|);
  }

  /** `listed` is what `list({prefix})` returns for the store: every key under the prefix, with its metadata. */
  predicate ListingOf(m: Store, prefix: string, listed: seq<ListedKey>) {
    && (forall i :: 0 <= i < |listed| ==>
          listed[i].name in m && listed[i].metadata == m[listed[i].name].metadata && StartsWith(listed[i].name, prefix))
    && (forall k :: k in m && StartsWith(k, prefix) ==> exists i :: 0 <= i < |listed| && listed[i].name == k)
  }

  /** The fallback finds every hitting file of the store under `dir`, and nothing outside it. */
  lemma FallbackMatchesStore(m: Store, dir: string, listed: seq<ListedKey>, query: string, fileType: string, k: string)
    requires ListingOf(m, dir, listed)
    requires k in m
    ensures var item := ListedKey(k, m[k].metadata);
            StartsWith(k, dir) && Scanned(item) && Hit(item, query, fileType) ==>
              AsFound(item) in ScanSpec(listed, query, fileType).found
    ensures forall f :: f in ScanSpec(listed, query, fileType).found ==>
              f.name in m && StartsWith(f.name, dir) && m[f.name].metadata == Some(f.metadata)
  {
    ScanFoundComplete(listed, query, fileType);
    ScanFoundSound(listed, query, fileType);
    var item := ListedKey(k, m[k].metadata);
    if StartsWith(k, dir) {
      var i :| 0 <= i < |listed| && listed[i].name == k;
      assert listed[i] == item;
    }
  }

  // ---------------------------------------------------------------------
  // the handler

  /**
   * `onRequest`. The query is trimmed; the index's answer is used when the
   * index search succeeds, the KV scan otherwise.
   */
  method OnRequest(httpMethod: string, q: Option<string>, typeParam: Option<string>, start: nat, count: nat,
                   sortByParam: Option<string>, sortOrderParam: Option<string>,
                   indexed: Option<IndexResult>, listed: seq<ListedKey>)
    returns (resp: Response)
    ensures httpMethod != "GET" ==> resp == MethodNotAllowed
    ensures httpMethod == "GET" && Trim(OrText(q, "")) == "" ==> resp == BadRequest("Search query is required")
    ensures httpMethod == "GET" && Trim(OrText(q, "")) != "" ==>
              var query := Trim(OrText(q, ""));
              var fileType := OrText(typeParam, "all");
              var sortBy := OrText(sortByParam, "name");
              var sortOrder := OrText(sortOrderParam, "asc");
              && (indexed.Some? && IndexSearch(indexed.value, fileType, sortBy, sortOrder).Some? ==>
                    var files := IndexSearch(indexed.value, fileType, sortBy, sortOrder).value;
                    resp == Indexed(files, indexed.value.directories, |files|, |files|, query, fileType, sortBy, sortOrder))
              && (indexed.None? || IndexSearch(indexed.value, fileType, sortBy, sortOrder).None? ==>
                    resp.Fallback? && resp.directories == ScanSpec(listed, query, fileType).dirs
                    && resp.totalCount == |ScanSpec(listed, query, fileType).found|
                    && resp.files == Page(SortFiles(ScanSpec(listed, query, fileType).found, sortBy, sortOrder), start, count))
  {
    if httpMethod != "GET" {
      return MethodNotAllowed;
    }
    var query := OrText(q, "");
    if Trim(query) == "" {
      return BadRequest("Search query is required");
    }
    query := Trim(query);
    var fileType := OrText(typeParam, "all");
    var sortBy := OrText(sortByParam, "name");
    var sortOrder := OrText(sortOrderParam, "asc");
    var searched := if indexed.Some? then IndexSearch(indexed.value, fileType, sortBy, sortOrder) else None;
    if searched.Some? {
      var files := searched.value;
      resp := Indexed(files, indexed.value.directories, |files|, |files|, query, fileType, sortBy, sortOrder);
    } else {
      resp := SearchFilesInKv(listed, query, fileType, start, count, sortBy, sortOrder);
    }
  }
}
