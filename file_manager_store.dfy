/**
 * The older `fileManager` store: a current path with a history that, unlike
 * the Finder's, appends every navigation, a sort that toggles its order,
 * moving up one folder, and a selection that names a single file only when
 * exactly one is selected.
 */
module FileManagerStore {
  import opened Wrappers
  import opened JsString
  import opened Finder

  /** A selected file, as far as the store is concerned. */
  datatype FileRef = FileRef(name: string, path: string)

  /**
   * `ADD_TO_HISTORY`: the entries after the index are dropped and the path
   * is appended, even when it repeats the last entry.
   */
  function Pushed(h: History, path: string): History
    requires 0 <= h.index < |h.entries|
  {
    var kept := if h.index < |h.entries| - 1 then h.entries[..h.index + 1] else h.entries;
    History(kept + [path], |kept|)
  }

  /**
   * Pushing grows the history past the index by exactly the path, leaves
   * nothing to go forward to, and going back returns to the entry that was
   * current before.
   */
  lemma PushedThenBack(h: History, path: string)
    requires 0 <= h.index < |h.entries|
    ensures var p := Pushed(h, path);
            && p.entries == h.entries[..h.index + 1] + [path]
            && p.index == h.index + 1 && p.entries[p.index] == path
            && !CanGoForward(p) && CanGoBack(p)
            && Back(p).entries[Back(p).index] == h.entries[h.index]
            && Forward(Back(p)) == p
  {
    if h.index == |h.entries| - 1 {
      assert h.entries[..h.index + 1] == h.entries;
    }
  }

  /** `updateSort`: the same field flips between `asc` and `desc`; a new field starts at `asc`. */
  function NextOrder(sortField: string, sortOrder: string, field: string): (order: string)
    ensures order == "asc" || order == "desc"
    ensures field != sortField ==> order == "asc"
    ensures field == sortField ==> (order == "desc" <==> sortOrder == "asc")
  {
    if sortField == field then (if sortOrder == "asc" then "desc" else "asc") else "asc"
  }

  /** Choosing the same column twice from a valid order comes back to it. */
  lemma NextOrderTwice(field: string, sortOrder: string)
    requires sortOrder == "asc" || sortOrder == "desc"
    ensures NextOrder(field, NextOrder(field, sortOrder, field), field) == sortOrder
  {
  }

  /** `goUp`'s target: the path without its last `/` segment. */
  function ParentPath(path: string): (r: string)
  {
    DropLastSegment(path, '/')
  }

  /**
   * The parent is shorter than a non-empty path, and the path is the parent,
   * a slash and the last segment; so repeated `goUp` ends at the root `''`.
   */
  lemma ParentPathShorter(path: string)
    requires path != ""
    ensures |ParentPath(path)| < |path|
    ensures '/' in path ==> path == ParentPath(path) + "/" + LastSegment(path, '/')
    ensures '/' !in path ==> ParentPath(path) == ""
  {
    SplitAtLast(path, '/');
    DropLastSegmentShorter(path, '/');
  }

  /** `updateSelection`: the single selected file, present exactly when one file is selected. */
  function SoleSelected(files: seq<FileRef>): (r: Option<FileRef>)
    ensures r.Some? <==> |files| == 1
    ensures r.Some? ==> r.value == files[0] && r.value in files
  {
    if |files| == 1 then Some(files[0]) else None
  }

  class FileManager {
    var currentPath: string
    var viewMode: string
    var sortField: string
    var sortOrder: string
    var selectedFile: Option<FileRef>
    var selectedFiles: seq<FileRef>
    var navigationHistory: seq<string>
    var currentHistoryIndex: int

    function Hist(): History
      reads this
    {
      History(navigationHistory, currentHistoryIndex)
    }

    /** The index points into the history. */
    predicate Valid()
      reads this
    {
      0 <= currentHistoryIndex < |navigationHistory|
    }

    /**
     * What the actions keep: the current path is the entry at the index,
     * consecutive entries differ, and the order is `asc` or `desc`.
     */
    predicate InSync()
      reads this
    {
      && Valid()
      && currentPath == navigationHistory[currentHistoryIndex]
      && NoAdjacentDup(navigationHistory)
      && (sortOrder == "asc" || sortOrder == "desc")
    }

    constructor ()
      ensures InSync()
      ensures currentPath == "" && navigationHistory == [""] && currentHistoryIndex == 0
      ensures viewMode == "list" && sortField == "name" && sortOrder == "asc"
      ensures selectedFile == None && selectedFiles == []
    {
      currentPath := "";
      viewMode := "list";
      sortField := "name";
      sortOrder := "asc";
      selectedFile := None;
      selectedFiles := [];
      navigationHistory := [""];
      currentHistoryIndex := 0;
    }

    method AddToHistory(path: string)
      requires Valid()
      modifies this`navigationHistory, this`currentHistoryIndex
      ensures Valid() && Hist() == Pushed(old(Hist()), path)
    {
      if currentHistoryIndex < |navigationHistory| - 1 {
        navigationHistory := navigationHistory[..currentHistoryIndex + 1];
      }
      navigationHistory := navigationHistory + [path];
      currentHistoryIndex := |navigationHistory| - 1;
    }

    /** `navigateTo`: nothing for the current path; otherwise it is pushed and the selection clears. */
    method NavigateTo(path: string)
      requires InSync()
      modifies this`currentPath, this`navigationHistory, this`currentHistoryIndex,
               this`selectedFile, this`selectedFiles
      ensures InSync()
      ensures path == old(currentPath) ==>
                && Hist() == old(Hist()) && currentPath == old(currentPath)
                && selectedFile == old(selectedFile) && selectedFiles == old(selectedFiles)
      ensures path != old(currentPath) ==>
                && Hist() == Pushed(old(Hist()), path) && currentPath == path
                && selectedFile == None && selectedFiles == []
    {
      if path == currentPath {
        return;
      }
      PushedThenBack(Hist(), path);
      currentPath := path;
      AddToHistory(path);
      selectedFile := None;
      selectedFiles := [];
    }

    method GoBack()
      requires InSync()
      modifies this`currentPath, this`currentHistoryIndex
      ensures InSync() && Hist() == Back(old(Hist()))
    {
      BackForward(Hist());
      if currentHistoryIndex > 0 {
        var newIndex := currentHistoryIndex - 1;
        currentHistoryIndex := newIndex;
        currentPath := navigationHistory[newIndex];
      }
    }

    method GoForward()
      requires InSync()
      modifies this`currentPath, this`currentHistoryIndex
      ensures InSync() && Hist() == Forward(old(Hist()))
    {
      BackForward(Hist());
      if currentHistoryIndex < |navigationHistory| - 1 {
        var newIndex := currentHistoryIndex + 1;
        currentHistoryIndex := newIndex;
        currentPath := navigationHistory[newIndex];
      }
    }

    /** `goUp`: at the root `''` nothing happens; otherwise the store navigates to the parent path. */
    method GoUp()
      requires InSync()
      modifies this`currentPath, this`navigationHistory, this`currentHistoryIndex,
               this`selectedFile, this`selectedFiles
      ensures InSync()
      ensures old(currentPath) == "" ==> Hist() == old(Hist()) && currentPath == ""
      ensures old(currentPath) != "" ==>
                && currentPath == ParentPath(old(currentPath))
                && Hist() == Pushed(old(Hist()), currentPath)
                && |currentPath| < |old(currentPath)|
    {
      if currentPath != "" {
        ParentPathShorter(currentPath);
        var parentPath := ParentPath(currentPath);
        NavigateTo(parentPath);
      }
    }

    method UpdateSort(field: string)
      requires InSync()
      modifies this`sortField, this`sortOrder
      ensures InSync()
      ensures sortField == field && sortOrder == NextOrder(old(sortField), old(sortOrder), field)
    {
      var order := "asc";
      if sortField == field {
        order := if sortOrder == "asc" then "desc" else "asc";
      }
      sortField := field;
      sortOrder := order;
    }

    method UpdateSelection(files: seq<FileRef>)
      modifies this`selectedFiles, this`selectedFile
      ensures selectedFiles == files && selectedFile == SoleSelected(files)
    {
      selectedFiles := files;
      if |files| == 1 {
        selectedFile := Some(files[0]);
      } else {
        selectedFile := None;
      }
    }

    method SetCurrentPath(path: string)
      modifies this`currentPath
      ensures currentPath == path
    {
      currentPath := path;
    }

    /** `SET_SORT` stores both fields as given; `updateSort` is what keeps the order `asc` or `desc`. */
    method SetSort(field: string, order: string)
      modifies this`sortField, this`sortOrder
      ensures sortField == field && sortOrder == order
    {
      sortField := field;
      sortOrder := order;
    }

    method SetSelectedFile(file: Option<FileRef>)
      modifies this`selectedFile
      ensures selectedFile == file
    {
      selectedFile := file;
    }

    method SetSelectedFiles(files: seq<FileRef>)
      modifies this`selectedFiles
      ensures selectedFiles == files
    {
      selectedFiles := files;
    }

    /** `SET_HISTORY_INDEX` stores the index as given; `goBack` and `goForward` only pass indexes in range. */
    method SetHistoryIndex(index: int)
      modifies this`currentHistoryIndex
      ensures currentHistoryIndex == index
    {
      currentHistoryIndex := index;
    }

    method SetViewMode(mode: string)
      modifies this`viewMode
      ensures viewMode == mode
    {
      viewMode := mode;
    }
  }
}
