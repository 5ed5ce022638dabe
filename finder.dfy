/**
 * The Finder store of the front end: the current path with a back/forward
 * history, favourites, recently opened items, the zoom level, and the
 * filtered, sorted view of the current folder's items.
 *
 * The history, favourite and recent-item rules are pure functions here;
 * the store is a class whose mutations and actions are proved against
 * them. Loading items from the network is not part of this model.
 */
module Finder {
  import opened JsString
  import opened Seqs
  import opened Ordering

  // ---------------------------------------------------------------------
  // history

  datatype History = History(entries: seq<string>, index: int)

  /** Consecutive entries always differ. */
  predicate NoAdjacentDup(s: seq<string>) {
    forall i :: 0 <= i < |s| - 1 ==> s[i] != s[i + 1]
  }

  /** The index points into the history, and no entry repeats its predecessor. */
  predicate HistoryOk(h: History) {
    0 <= h.index < |h.entries| && NoAdjacentDup(h.entries)
  }

  function CanGoBack(h: History): bool {
    h.index > 0
  }

  function CanGoForward(h: History): bool {
    h.index < |h.entries| - 1
  }

  /**
   * `ADD_TO_HISTORY`: the entries after the index are dropped, and the path
   * is appended unless it equals the last remaining entry.
   */
  function AddedToHistory(h: History, path: string): History
    requires 0 <= h.index < |h.entries|
  {
    var kept := if h.index < |h.entries| - 1 then h.entries[..h.index + 1] else h.entries;
    if kept[|kept| - 1] != path then History(kept + [path], |kept|) else History(kept, h.index)
  }

  /**
   * Adding keeps the history well formed, keeps the entries up to the index,
   * ends it at the path, and leaves nothing to go forward to.
   */
  lemma AddedToHistoryOk(h: History, path: string)
    requires HistoryOk(h)
    ensures var a := AddedToHistory(h, path);
            && HistoryOk(a)
            && a.entries[..h.index + 1] == h.entries[..h.index + 1]
            && a.index == |a.entries| - 1
            && a.entries[a.index] == path
            && !CanGoForward(a)
            && (h.entries[h.index] != path <==> a.index == h.index + 1)
  {
  }

  /** `navigateBack`: one step back, when there is one. */
  function Back(h: History): History {
    if CanGoBack(h) then h.(index := h.index - 1) else h
  }

  /** `navigateForward`: one step forward, when there is one. */
  function Forward(h: History): History {
    if CanGoForward(h) then h.(index := h.index + 1) else h
  }

  /** Back and forward keep the history well formed and undo each other. */
  lemma BackForward(h: History)
    requires HistoryOk(h)
    ensures HistoryOk(Back(h)) && HistoryOk(Forward(h))
    ensures CanGoBack(h) ==> Forward(Back(h)) == h && Back(h).index == h.index - 1
    ensures CanGoForward(h) ==> Back(Forward(h)) == h && Forward(h).index == h.index + 1
    ensures !CanGoBack(h) ==> Back(h) == h
    ensures !CanGoForward(h) ==> Forward(h) == h
  {
  }

  // ---------------------------------------------------------------------
  // favourites

  datatype Favorite = Favorite(name: string, path: string, kind: string)

  /** The paths of the favourites, which `ADD_FAVORITE` and `REMOVE_FAVORITE` compare. */
  function FavoritePaths(fs: seq<Favorite>): (r: seq<string>)
    ensures |r| == |fs| && forall i :: 0 <= i < |fs| ==> r[i] == fs[i].path
  {
    seq(|fs|, i requires 0 <= i < |fs| => fs[i].path)
  }

  /** `findIndex(fav => fav.path === path)`: the first position with that path, or -1. */
  function FindFavorite(fs: seq<Favorite>, path: string): (r: int)
    ensures -1 <= r < |fs|
    ensures r == -1 <==> path !in FavoritePaths(fs)
    ensures r >= 0 ==> fs[r].path == path && forall i :: 0 <= i < r ==> fs[i].path != path
    decreases |fs|
  {
    if |fs| == 0 then -1
    else if fs[0].path == path then 0
    else
      var r := FindFavorite(fs[1..], path);
      PathsCons(fs);
      if r == -1 then -1 else r + 1
  }

  lemma PathsCons(fs: seq<Favorite>)
    requires |fs| > 0
    ensures FavoritePaths(fs) == [fs[0].path] + FavoritePaths(fs[1..])
  {
  }

  /** `ADD_FAVORITE`: appended unless an entry with the same path exists. */
  function WithFavorite(fs: seq<Favorite>, f: Favorite): seq<Favorite> {
    if HasFavorite(fs, f.path) then fs else fs + [f]
  }

  predicate HasFavorite(fs: seq<Favorite>, path: string) {
    path in FavoritePaths(fs)
  }

  /** `REMOVE_FAVORITE`: the first entry with the path is spliced out. */
  function WithoutFavorite(fs: seq<Favorite>, path: string): seq<Favorite> {
    var i := FindFavorite(fs, path);
    if i > -1 then fs[..i] + fs[i + 1..] else fs
  }

  /**
   * Paths stay unique; after adding, the path is a favourite; after
   * removing, it is not, and every other favourite is kept.
   */
  lemma FavoritesUnique(fs: seq<Favorite>, f: Favorite, path: string)
    requires NoDup(FavoritePaths(fs))
    ensures NoDup(FavoritePaths(WithFavorite(fs, f))) && f.path in FavoritePaths(WithFavorite(fs, f))
    ensures NoDup(FavoritePaths(WithoutFavorite(fs, path)))
    ensures path !in FavoritePaths(WithoutFavorite(fs, path))
    ensures forall g :: g in fs && g.path != path ==> g in WithoutFavorite(fs, path)
  {
    var i := FindFavorite(fs, path);
    if i > -1 {
      PathsRemoveAt(fs, i);
      RemoveAtNoDup(FavoritePaths(fs), i);
      RemoveAtKeeps(fs, i);
    }
    if !HasFavorite(fs, f.path) {
      assert FavoritePaths(fs + [f]) == FavoritePaths(fs) + [f.path];
      AppendNoDup(FavoritePaths(fs), f.path);
    }
  }

  /** The paths of a sequence with one entry spliced out are its paths with that one spliced out. */
  lemma PathsRemoveAt(fs: seq<Favorite>, i: int)
    requires 0 <= i < |fs|
    ensures FavoritePaths(fs[..i] + fs[i + 1..]) == FavoritePaths(fs)[..i] + FavoritePaths(fs)[i + 1..]
  {
  }

  /** Splicing out one entry keeps every entry that differs from it. */
  lemma RemoveAtKeeps(fs: seq<Favorite>, i: int)
    requires 0 <= i < |fs|
    ensures forall g :: g in fs && g != fs[i] ==> g in fs[..i] + fs[i + 1..]
  {
    var r := fs[..i] + fs[i + 1..];
    forall g | g in fs && g != fs[i]
      ensures g in r
    {
      var k :| 0 <= k < |fs| && fs[k] == g;
      if k < i {
        assert r[k] == g;
      } else {
        assert r[k - 1] == g;
      }
    }
  }

  // ---------------------------------------------------------------------
  // items, recent items and the filtered view

  /** An item of a folder listing; an absent size or time is 0. */
  datatype Item = Item(name: string, path: string, kind: string, size: real, modified: int)

  datatype RecentItem = RecentItem(item: Item, lastAccessed: int)

  const MaxRecent := 20

  /** The paths of the recent items, which `ADD_RECENT_ITEM` compares. */
  function RecentPaths(rs: seq<RecentItem>): (r: seq<string>)
    ensures |r| == |rs| && forall i :: 0 <= i < |rs| ==> r[i] == rs[i].item.path
  {
    seq(|rs|, i requires 0 <= i < |rs| => rs[i].item.path)
  }

  /** The first position of an entry with the path, or -1. */
  function FindRecent(rs: seq<RecentItem>, path: string): (r: int)
    ensures -1 <= r < |rs|
    ensures r == -1 <==> path !in RecentPaths(rs)
    ensures r >= 0 ==> rs[r].item.path == path && forall k :: 0 <= k < r ==> rs[k].item.path != path
  {
    var r := FindRecentFrom(rs, path, 0);
    assert r >= 0 ==> RecentPaths(rs)[r] == path;
    r
  }

  /** The first position at or after `i` of an entry with the path, or -1. */
  function FindRecentFrom(rs: seq<RecentItem>, path: string, i: nat): (r: int)
    requires i <= |rs|
    ensures r == -1 || i <= r < |rs|
    ensures r >= 0 ==> rs[r].item.path == path && forall k :: i <= k < r ==> rs[k].item.path != path
    ensures r == -1 ==> forall k :: i <= k < |rs| ==> rs[k].item.path != path
    decreases |rs| - i
  {
    if i == |rs| then -1
    else if rs[i].item.path == path then i
    else FindRecentFrom(rs, path, i + 1)
  }

  /**
   * `ADD_RECENT_ITEM`: an earlier entry with the same path is removed, the
   * item goes first stamped with `now`, and the list is cut to 20.
   */
  function WithRecent(rs: seq<RecentItem>, item: Item, now: int): seq<RecentItem> {
    var r := [RecentItem(item, now)] + WithoutRecent(rs, item.path);
    if |r| > MaxRecent then r[..MaxRecent] else r
  }

  /** The list without the first entry for `path`, if there is one. */
  function WithoutRecent(rs: seq<RecentItem>, path: string): seq<RecentItem> {
    var i := FindRecent(rs, path);
    if i > -1 then rs[..i] + rs[i + 1..] else rs
  }

  /** The item comes first, the list never exceeds 20, and its paths stay unique. */
  lemma WithRecentBounded(rs: seq<RecentItem>, item: Item, now: int)
    requires NoDup(RecentPaths(rs))
    ensures var r := WithRecent(rs, item, now);
            && 1 <= |r| <= MaxRecent
            && r[0] == RecentItem(item, now)
            && NoDup(RecentPaths(r))
  {
    WithoutRecentNoDup(rs, item.path);
    ConsCapped(RecentItem(item, now), WithoutRecent(rs, item.path));
  }

  /** Dropping the entry for `path` keeps the paths unique and leaves `path` out. */
  lemma WithoutRecentNoDup(rs: seq<RecentItem>, path: string)
    requires NoDup(RecentPaths(rs))
    ensures NoDup(RecentPaths(WithoutRecent(rs, path))) && path !in RecentPaths(WithoutRecent(rs, path))
  {
    var i := FindRecent(rs, path);
    if i > -1 {
      RecentRemoveAt(rs, i);
      RemoveAtNoDup(RecentPaths(rs), i);
    }
  }

  /** An entry put in front of a list without its path, then cut to the limit. */
  lemma ConsCapped(x: RecentItem, rest: seq<RecentItem>)
    requires NoDup(RecentPaths(rest)) && x.item.path !in RecentPaths(rest)
    ensures var full := [x] + rest;
            var r := if |full| > MaxRecent then full[..MaxRecent] else full;
            1 <= |r| <= MaxRecent && r[0] == x && NoDup(RecentPaths(r))
  {
    var full := [x] + rest;
    RecentCons(full);
    assert full[1..] == rest;
    ConsNoDup(x.item.path, RecentPaths(rest));
    if |full| > MaxRecent {
      RecentPrefix(full, MaxRecent);
      PrefixNoDup(RecentPaths(full), MaxRecent);
    }
  }

  lemma RecentCons(rs: seq<RecentItem>)
    requires |rs| > 0
    ensures RecentPaths(rs) == [rs[0].item.path] + RecentPaths(rs[1..])
  {
  }

  lemma RecentRemoveAt(rs: seq<RecentItem>, i: int)
    requires 0 <= i < |rs|
    ensures RecentPaths(rs[..i] + rs[i + 1..]) == RecentPaths(rs)[..i] + RecentPaths(rs)[i + 1..]
  {
  }

  lemma RecentPrefix(rs: seq<RecentItem>, n: int)
    requires 0 <= n <= |rs|
    ensures RecentPaths(rs[..n]) == RecentPaths(rs)[..n]
  {
  }

  lemma AppendNoDup(s: seq<string>, x: string)
    requires NoDup(s) && x !in s
    ensures NoDup(s + [x])
  {
  }

  lemma ConsNoDup(x: string, s: seq<string>)
    requires NoDup(s) && x !in s
    ensures NoDup([x] + s)
  {
  }

  lemma PrefixNoDup(s: seq<string>, n: int)
    requires NoDup(s) && 0 <= n <= |s|
    ensures NoDup(s[..n])
  {
  }

  /** Removing one element of a duplicate-free sequence leaves it duplicate-free and without that element. */
  lemma RemoveAtNoDup(s: seq<string>, i: int)
    requires NoDup(s) && 0 <= i < |s|
    ensures NoDup(s[..i] + s[i + 1..]) && s[i] !in s[..i] + s[i + 1..]
  {
    var t := s[..i] + s[i + 1..];
    forall a | 0 <= a < |t|
      ensures t[a] == s[if a < i then a else a + 1]
    {
    }
  }

  /** `SET_ZOOM_LEVEL`: `Math.max(0.5, Math.min(3.0, level))`. */
  function ClampZoom(level: real): (r: real)
    ensures 0.5 <= r <= 3.0
    ensures 0.5 <= level <= 3.0 ==> r == level
    ensures level < 0.5 ==> r == 0.5
    ensures level > 3.0 ==> r == 3.0
  {
    if level > 3.0 then 3.0 else if level < 0.5 then 0.5 else level
  }

  /** The sort key of a field: lowercased name, size, type or time; any other field compares equal. */
  function FieldKey(field: string): Item -> SortKey {
    (x: Item) =>
      if field == "name" then Text(Lower(x.name))
      else if field == "size" then Num(x.size)
      else if field == "type" then Text(x.kind)
      else if field == "modified" then Num(x.modified as real)
      else Num(0.0)
  }

  /** Folders sort before everything else. */
  function FolderRank(): Item -> SortKey {
    (x: Item) => Num(if x.kind == "folder" then 0.0 else 1.0)
  }

  function MatchesQuery(query: string): Item -> bool {
    (x: Item) => Contains(Lower(x.name), Lower(query))
  }

  /** The items the search keeps: all of them for an empty query. */
  function Selected(items: seq<Item>, query: string): seq<Item> {
    if query != "" then Filter(items, MatchesQuery(query)) else items
  }

  /**
   * The `filteredItems` getter: the selected items sorted by the field
   * (descending unless the order is `asc`), then sorted again, stably, to
   * put the folders first.
   */
  function FilteredItems(items: seq<Item>, query: string, field: string, order: string): seq<Item> {
    var byField := SortBy(Selected(items, query), FieldKey(field), order != "asc");
    SortBy(byField, FolderRank(), false)
  }

  /**
   * The view is a permutation of the items matching the query, folders
   * first, and within folders and within other items ordered by the field.
   */
  lemma FilteredItemsSpec(items: seq<Item>, query: string, field: string, order: string)
    ensures var r := FilteredItems(items, query, field, order);
            && multiset(r) == multiset(Selected(items, query))
            && (forall i, j :: 0 <= i < j < |r| && r[j].kind == "folder" ==> r[i].kind == "folder")
            && GroupsSortedBy(r, FolderRank(), FieldKey(field), order != "asc")
  {
    var byField := SortBy(Selected(items, query), FieldKey(field), order != "asc");
    SortByStable(byField, FolderRank(), false, FieldKey(field), order != "asc");
    var r := FilteredItems(items, query, field, order);
    forall i, j | 0 <= i < j < |r| && r[j].kind == "folder"
      ensures r[i].kind == "folder"
    {
      assert Before(FolderRank()(r[i]), FolderRank()(r[j]), false);
    }
  }

  /** The search keeps exactly the items whose lowercased name contains the lowercased query. */
  lemma SelectedSpec(items: seq<Item>, query: string, x: Item)
    requires query != ""
    ensures x in Selected(items, query) <==> x in items && Contains(Lower(x.name), Lower(query))
  {
    if x in items && Contains(Lower(x.name), Lower(query)) {
      var i :| 0 <= i < |items| && items[i] == x;
      assert MatchesQuery(query)(items[i]);
    }
    if x in Selected(items, query) {
      var i :| 0 <= i < |Selected(items, query)| && Selected(items, query)[i] == x;
      assert MatchesQuery(query)(Selected(items, query)[i]);
    }
  }

  /** `getFileType`: the lowercased text after the last `.` decides the kind. */
  function FileKind(fileName: string): (r: string)
    ensures r in {"image", "video", "audio", "document", "file"}
    ensures r == "image" <==> Lower(LastSegment(fileName, '.')) in ImageExts
    ensures var ext := Lower(LastSegment(fileName, '.'));
            && (r == "video" <==> ext !in ImageExts && ext in VideoExts)
            && (r == "audio" <==> ext !in ImageExts && ext !in VideoExts && ext in AudioExts)
            && (r == "document" <==> ext !in ImageExts && ext !in VideoExts && ext !in AudioExts && ext in DocumentExts)
            && (r == "file" <==> ext !in ImageExts && ext !in VideoExts && ext !in AudioExts && ext !in DocumentExts)
  {
    var ext := Lower(LastSegment(fileName, '.'));
    if ext in ImageExts then "image"
    else if ext in VideoExts then "video"
    else if ext in AudioExts then "audio"
    else if ext in DocumentExts then "document"
    else "file"
  }

  const ImageExts: seq<string> := ["jpg", "jpeg", "png", "gif", "webp", "svg", "bmp"]
  const VideoExts: seq<string> := ["mp4", "avi", "mov", "wmv", "flv", "webm"]
  const AudioExts: seq<string> := ["mp3", "wav", "flac", "aac", "ogg"]
  const DocumentExts: seq<string> := ["pdf", "doc", "docx", "txt", "rtf"]

  // ---------------------------------------------------------------------
  // the store

  class FinderStore {
    var currentPath: string
    var navigationHistory: seq<string>
    var currentHistoryIndex: int
    var viewMode: string
    var sortField: string
    var sortOrder: string
    var searchQuery: string
    var items: seq<Item>
    var selectedItems: seq<Item>
    var favorites: seq<Favorite>
    var recentItems: seq<RecentItem>
    var zoomLevel: real

    function Hist(): History
      reads this
    {
      History(navigationHistory, currentHistoryIndex)
    }

    /** What every mutation keeps: a well-formed history, unique favourites and recent items, a zoom in range. */
    predicate Valid()
      reads this
    {
      && HistoryOk(Hist())
      && NoDup(FavoritePaths(favorites))
      && |recentItems| <= MaxRecent && NoDup(RecentPaths(recentItems))
      && 0.5 <= zoomLevel <= 3.0
    }

    /** The actions also keep the current path on the history entry at the index. */
    predicate InSync()
      reads this
    {
      Valid() && currentPath == navigationHistory[currentHistoryIndex]
    }

    constructor ()
      ensures InSync()
      ensures currentPath == "/" && navigationHistory == ["/"] && currentHistoryIndex == 0
      ensures viewMode == "grid" && sortField == "name" && sortOrder == "asc" && searchQuery == ""
      ensures items == [] && selectedItems == [] && recentItems == [] && zoomLevel == 1.0
      ensures favorites == [Favorite("图片", "/images", "folder"), Favorite("最近上传", "/recent", "folder")]
    {
      currentPath := "/";
      navigationHistory := ["/"];
      currentHistoryIndex := 0;
      viewMode := "grid";
      sortField := "name";
      sortOrder := "asc";
      searchQuery := "";
      items := [];
      selectedItems := [];
      favorites := [Favorite("图片", "/images", "folder"), Favorite("最近上传", "/recent", "folder")];
      recentItems := [];
      zoomLevel := 1.0;
    }

    method AddToHistory(path: string)
      requires Valid()
      modifies this`navigationHistory, this`currentHistoryIndex
      ensures Valid()
      ensures Hist() == AddedToHistory(old(Hist()), path)
    {
      AddedToHistoryOk(Hist(), path);
      if currentHistoryIndex < |navigationHistory| - 1 {
        navigationHistory := navigationHistory[..currentHistoryIndex + 1];
      }
      if navigationHistory[|navigationHistory| - 1] != path {
        navigationHistory := navigationHistory + [path];
        currentHistoryIndex := |navigationHistory| - 1;
      }
    }

    /** `initialize`: the path becomes current and is added to the history. */
    method Initialize(initialPath: string)
      requires Valid()
      modifies this`currentPath, this`navigationHistory, this`currentHistoryIndex
      ensures InSync() && currentPath == initialPath
      ensures Hist() == AddedToHistory(old(Hist()), initialPath)
    {
      currentPath := initialPath;
      AddToHistory(initialPath);
    }

    /** `navigateTo`: nothing for the current path; otherwise it becomes current, joins the history, and the selection clears. */
    method NavigateTo(path: string)
      requires InSync()
      modifies this`currentPath, this`navigationHistory, this`currentHistoryIndex, this`selectedItems
      ensures InSync()
      ensures path == old(currentPath) ==>
                Hist() == old(Hist()) && currentPath == old(currentPath) && selectedItems == old(selectedItems)
      ensures path != old(currentPath) ==>
                && Hist() == AddedToHistory(old(Hist()), path) && currentPath == path
                && selectedItems == [] && CanGoBack(Hist()) && !CanGoForward(Hist())
    {
      if path == currentPath {
        return;
      }
      currentPath := path;
      AddToHistory(path);
      selectedItems := [];
    }

    method NavigateBack()
      requires InSync()
      modifies this`currentPath, this`currentHistoryIndex
      ensures InSync()
      ensures Hist() == Back(old(Hist()))
      ensures old(CanGoBack(Hist())) ==> currentPath == navigationHistory[old(currentHistoryIndex) - 1]
    {
      BackForward(Hist());
      if currentHistoryIndex > 0 {
        var newIndex := currentHistoryIndex - 1;
        currentPath := navigationHistory[newIndex];
        currentHistoryIndex := newIndex;
      }
    }

    method NavigateForward()
      requires InSync()
      modifies this`currentPath, this`currentHistoryIndex
      ensures InSync()
      ensures Hist() == Forward(old(Hist()))
      ensures old(CanGoForward(Hist())) ==> currentPath == navigationHistory[old(currentHistoryIndex) + 1]
    {
      BackForward(Hist());
      if currentHistoryIndex < |navigationHistory| - 1 {
        var newIndex := currentHistoryIndex + 1;
        currentPath := navigationHistory[newIndex];
        currentHistoryIndex := newIndex;
      }
    }

    method AddFavorite(f: Favorite)
      requires Valid()
      modifies this`favorites
      ensures Valid() && favorites == WithFavorite(old(favorites), f)
    {
      FavoritesUnique(favorites, f, f.path);
      if !HasFavorite(favorites, f.path) {
        favorites := favorites + [f];
      }
    }

    method RemoveFavorite(path: string)
      requires Valid()
      modifies this`favorites
      ensures Valid() && favorites == WithoutFavorite(old(favorites), path)
    {
      FavoritesUnique(favorites, Favorite("", path, ""), path);
      var index := FindFavorite(favorites, path);
      if index > -1 {
        favorites := favorites[..index] + favorites[index + 1..];
      }
    }

    /** `toggleFavorite`: the item's path leaves the favourites if it was there, and joins them otherwise. */
    method ToggleFavorite(item: Item)
      requires Valid()
      modifies this`favorites
      ensures Valid()
      ensures item.path in FavoritePaths(favorites) <==> item.path !in FavoritePaths(old(favorites))
      ensures forall g :: g in old(favorites) && g.path != item.path ==> g in favorites
      ensures favorites == if HasFavorite(old(favorites), item.path) then WithoutFavorite(old(favorites), item.path)
                           else old(favorites) + [Favorite(item.name, item.path, item.kind)]
    {
      FavoritesUnique(favorites, Favorite(item.name, item.path, item.kind), item.path);
      if HasFavorite(favorites, item.path) {
        RemoveFavorite(item.path);
      } else {
        AddFavorite(Favorite(item.name, item.path, item.kind));
      }
    }

    method AddRecentItem(item: Item, now: int)
      requires Valid()
      modifies this`recentItems
      ensures Valid() && recentItems == WithRecent(old(recentItems), item, now)
    {
      WithRecentBounded(recentItems, item, now);
      var existingIndex := FindRecent(recentItems, item.path);
      if existingIndex > -1 {
        recentItems := recentItems[..existingIndex] + recentItems[existingIndex + 1..];
      }
      recentItems := [RecentItem(item, now)] + recentItems;
      if |recentItems| > MaxRecent {
        recentItems := recentItems[..MaxRecent];
      }
    }

    method SetZoomLevel(level: real)
      requires Valid()
      modifies this`zoomLevel
      ensures Valid() && zoomLevel == ClampZoom(level)
    {
      zoomLevel := if 3.0 < level then 3.0 else level;
      zoomLevel := if zoomLevel < 0.5 then 0.5 else zoomLevel;
    }

    method SetCurrentPath(path: string)
      modifies this`currentPath
      ensures currentPath == path
    {
      currentPath := path;
    }

    /** `SET_NAVIGATION_HISTORY` stores both parts as given; only the actions keep them consistent. */
    method SetNavigationHistory(history: seq<string>, index: int)
      modifies this`navigationHistory, this`currentHistoryIndex
      ensures Hist() == History(history, index)
    {
      navigationHistory := history;
      currentHistoryIndex := index;
    }

    method SetViewMode(mode: string)
      modifies this`viewMode
      ensures viewMode == mode
    {
      viewMode := mode;
    }

    method SetSortField(field: string)
      modifies this`sortField
      ensures sortField == field
    {
      sortField := field;
    }

    method SetSortOrder(order: string)
      modifies this`sortOrder
      ensures sortOrder == order
    {
      sortOrder := order;
    }

    method SetSearchQuery(query: string)
      modifies this`searchQuery
      ensures searchQuery == query
    {
      searchQuery := query;
    }

    method SetItems(xs: seq<Item>)
      modifies this`items
      ensures items == xs
    {
      items := xs;
    }

    method SetSelectedItems(xs: seq<Item>)
      modifies this`selectedItems
      ensures selectedItems == xs
    {
      selectedItems := xs;
    }

    function Filtered(): seq<Item>
      reads this
    {
      FilteredItems(items, searchQuery, sortField, sortOrder)
    }
  }
}
