/**
 * Batch tagging (`POST /api/manage/batch/tags/add`): every given tag that
 * exists is added to every given file.
 *
 * The association is kept twice: the file's list `manage@file_tags@<path>`
 * names its tags, and each tag's list `manage@tag_files@<id>` names its
 * files. A tag is appended to a file only when the file lacks it, and only
 * then is the file appended to the tag's list (again only when absent).
 */
module BatchTags {
  import opened Wrappers
  import opened JsString
  import opened Seqs
  import opened Kv
  import opened FileIds

  datatype FileError = FileError(file: string, error: string)

  datatype Results = Results(successCount: nat, failedCount: nat, totalFiles: nat, totalTags: nat,
                             errors: seq<FileError>)

  datatype Response =
    | MethodNotAllowed
    | BadRequest(error: string)
    | ServerError(error: string)
    | Completed(results: Results)
  {
    function Status(): int {
      match this
      case MethodNotAllowed => 405
      case BadRequest(_) => 400
      case ServerError(_) => 500
      case Completed(_) => 200
    }
  }

  /** The keys this handler writes: tag file lists and file tag lists. */
  predicate IsLinkKey(k: string) {
    StartsWith(k, "manage@tag_files@") || StartsWith(k, "manage@file_tags@")
  }

  lemma LinkKeys(t: string, p: string)
    ensures IsLinkKey(TagFilesKey(t)) && IsLinkKey(FileTagsKey(p))
    ensures !IsLinkKey(TagKey(t)) && !IsLinkKey(TagsIndexKey)
  {
    assert TagFilesKey(t)[..17] == "manage@tag_files@";
    assert FileTagsKey(p)[..17] == "manage@file_tags@";
    NotLinkKey(TagKey(t));
    NotLinkKey(TagsIndexKey);
  }

  /** Keys under `manage@tags@` are not link keys. */
  lemma NotLinkKey(k: string)
    requires StartsWith(k, "manage@tags@")
    ensures !IsLinkKey(k)
  {
    if |k| >= 17 {
      assert k[10] == "manage@tags@"[10] == 's' && k[7] == "manage@tags@"[7] == 't';
      assert k[..17][10] == k[10] && k[..17][7] == k[7];
      assert "manage@tag_files@"[10] == '_' && "manage@file_tags@"[7] == 'f';
    }
  }

  /** `m'` keeps every key of `m` and differs from it only under link keys. */
  ghost predicate LinksOnlyChanged(m: Store, m': Store) {
    m.Keys <= m'.Keys && forall k :: k in m' && !IsLinkKey(k) ==> k in m && m'[k] == m[k]
  }

  /** Every tag a file lists has the file in its own list. */
  predicate Linked(m: Store, path: string) {
    forall t :: t in FileTagsOf(m, path) ==> path in TagFilesOf(m, t)
  }

  // ---------------------------------------------------------------------
  // the specification of one request

  /** The `validTagIds` loop: the requested ids whose tag record exists, in request order. */
  function ValidTagIds(m: Store, tagIds: seq<string>): (r: seq<string>)
    ensures |r| <= |tagIds|
    ensures forall t :: t in r <==> t in tagIds && TagKey(t) in m
    decreases |tagIds|
  {
    if |tagIds| == 0 then []
    else
      var n := |tagIds| - 1;
      assert tagIds == tagIds[..n] + [tagIds[n]];
      var prev := ValidTagIds(m, tagIds[..n]);
      if TagKey(tagIds[n]) in m then prev + [tagIds[n]] else prev
  }

  /** An existing tag id keeps every repeat it has in the request; a missing one has none. */
  lemma {:induction false} ValidTagIdsCounts(m: Store, tagIds: seq<string>)
    ensures forall t :: multiset(ValidTagIds(m, tagIds))[t] == if TagKey(t) in m then multiset(tagIds)[t] else 0
    decreases |tagIds|
  {
    if |tagIds| > 0 {
      var n := |tagIds| - 1;
      ValidTagIdsCounts(m, tagIds[..n]);
      assert tagIds == tagIds[..n] + [tagIds[n]];
      assert multiset(tagIds) == multiset(tagIds[..n]) + multiset{tagIds[n]};
    }
  }

  /** One more request id: appended when its tag exists, dropped otherwise. */
  lemma ValidTagIdsSnoc(m: Store, tagIds: seq<string>, i: int)
    requires 0 <= i < |tagIds|
    ensures ValidTagIds(m, tagIds[..i + 1]) ==
            if TagKey(tagIds[i]) in m then ValidTagIds(m, tagIds[..i]) + [tagIds[i]] else ValidTagIds(m, tagIds[..i])
  {
    assert tagIds[..i + 1][..i] == tagIds[..i];
  }

  /** Whether the tag's record exists: the test of the `validTagIds` loop. */
  function TagExists(m: Store): string -> bool {
    (t: string) => TagKey(t) in m
  }

  /** The valid ids are the requested ones filtered by that test, order and repeats kept. */
  lemma {:induction false} ValidTagIdsFiltered(m: Store, tagIds: seq<string>)
    ensures ValidTagIds(m, tagIds) == Filter(tagIds, TagExists(m))
    decreases |tagIds|
  {
    if |tagIds| > 0 {
      ValidTagIdsFiltered(m, tagIds[..|tagIds| - 1]);
    }
  }

  /** `addFileToTag`: the tag's file list gains `path` unless it already holds it. */
  function AddFileToTag(m: Store, tagId: string, path: string): (r: Store)
    ensures path in TagFilesOf(r, tagId)
    ensures TagFilesOf(m, tagId) <= TagFilesOf(r, tagId)
    ensures |TagFilesOf(r, tagId)| <= |TagFilesOf(m, tagId)| + 1
    ensures path in TagFilesOf(m, tagId) ==> r == m
    ensures NoDup(TagFilesOf(m, tagId)) ==> NoDup(TagFilesOf(r, tagId))
    ensures forall u :: u != tagId ==> TagFilesOf(r, u) == TagFilesOf(m, u)
    ensures forall q :: FileTagsOf(r, q) == FileTagsOf(m, q)
    ensures LinksOnlyChanged(m, r)
  {
    var files := TagFilesOf(m, tagId);
    if path in files then m
    else
      PutTagFiles(m, tagId, files + [path]);
      assert NoDup(files) ==> NoDup(files + [path]) by {
        if NoDup(files) { NoDupSnoc(files, path); }
      }
      m[TagFilesKey(tagId) := Record(TagFiles(files + [path]), None)]
  }

  /** Writing a tag's file list changes that list and no other link list, and only a link key. */
  lemma PutTagFiles(m: Store, tagId: string, fs: seq<string>)
    ensures var r := m[TagFilesKey(tagId) := Record(TagFiles(fs), None)];
            && TagFilesOf(r, tagId) == fs
            && (forall u :: u != tagId ==> TagFilesOf(r, u) == TagFilesOf(m, u))
            && (forall q :: FileTagsOf(r, q) == FileTagsOf(m, q))
            && LinksOnlyChanged(m, r)
  {
    KeysInjective();
    LinkKeys(tagId, "");
    forall q
      ensures FileTagsKey(q) != TagFilesKey(tagId)
    {
      TagKeysDistinct(tagId, tagId, q);
    }
  }

  datatype Tagging = Tagging(store: Store, tags: seq<string>)

  /**
   * The inner loop for one file over the valid tag ids, starting from the
   * file's tag list `tags`.
   */
  function AddTags(m: Store, tags: seq<string>, valid: seq<string>, path: string): (r: Tagging)
    ensures tags <= r.tags
    ensures forall t :: t in valid ==> t in r.tags
    ensures forall i :: |tags| <= i < |r.tags| ==> r.tags[i] in valid && r.tags[i] !in tags
    ensures r.tags == tags ==> r.store == m
    decreases |valid|
  {
    if |valid| == 0 then Tagging(m, tags)
    else
      var n := |valid| - 1;
      var prev := AddTags(m, tags, valid[..n], path);
      var t := valid[n];
      assert valid == valid[..n] + [t];
      if t in prev.tags then prev
      else Tagging(AddFileToTag(prev.store, t, path), prev.tags + [t])
  }

  /** A file that already lists every valid tag gains none. */
  lemma {:induction false} AddTagsNothingNew(m: Store, tags: seq<string>, valid: seq<string>, path: string)
    requires forall t :: t in valid ==> t in tags
    ensures AddTags(m, tags, valid, path).tags == tags
    decreases |valid|
  {
    if |valid| > 0 {
      var n := |valid| - 1;
      assert valid == valid[..n] + [valid[n]];
      AddTagsNothingNew(m, tags, valid[..n], path);
    }
  }

  /** The inner loop adds no tag twice. */
  lemma {:induction false} AddTagsNoDup(m: Store, tags: seq<string>, valid: seq<string>, path: string)
    requires NoDup(tags)
    ensures NoDup(AddTags(m, tags, valid, path).tags)
    decreases |valid|
  {
    if |valid| > 0 {
      AddTagsNoDup(m, tags, valid[..|valid| - 1], path);
    }
  }

  lemma LinksOnlyChangedTrans(m1: Store, m2: Store, m3: Store)
    requires LinksOnlyChanged(m1, m2) && LinksOnlyChanged(m2, m3)
    ensures LinksOnlyChanged(m1, m3)
  {
  }

  /** `m'` only appends to tag file lists and changes no file's tag list and no other key. */
  ghost predicate Grows(m: Store, m': Store) {
    && (forall t :: TagFilesOf(m, t) <= TagFilesOf(m', t))
    && (forall q :: FileTagsOf(m', q) == FileTagsOf(m, q))
    && LinksOnlyChanged(m, m')
  }

  lemma GrowsTrans(m1: Store, m2: Store, m3: Store)
    requires Grows(m1, m2) && Grows(m2, m3)
    ensures Grows(m1, m3)
  {
    forall u ensures TagFilesOf(m1, u) <= TagFilesOf(m3, u) {
      PrefixTrans(TagFilesOf(m1, u), TagFilesOf(m2, u), TagFilesOf(m3, u));
    }
    LinksOnlyChangedTrans(m1, m2, m3);
  }

  /** The inner loop writes only tag file lists, and only by appending. */
  lemma {:induction false} AddTagsFrame(m: Store, tags: seq<string>, valid: seq<string>, path: string)
    ensures var r := AddTags(m, tags, valid, path);
            (forall t :: TagFilesOf(m, t) <= TagFilesOf(r.store, t))
            && (forall q :: FileTagsOf(r.store, q) == FileTagsOf(m, q))
            && LinksOnlyChanged(m, r.store)
    decreases |valid|
  {
    if |valid| > 0 {
      var n := |valid| - 1;
      AddTagsFrame(m, tags, valid[..n], path);
      AddTagsStepGrows(m, tags, valid, path);
      GrowsTrans(m, AddTags(m, tags, valid[..n], path).store, AddTags(m, tags, valid, path).store);
    }
  }

  /** The last tag of the inner loop only appends to one tag's file list. */
  lemma AddTagsStepGrows(m: Store, tags: seq<string>, valid: seq<string>, path: string)
    requires |valid| > 0
    ensures Grows(AddTags(m, tags, valid[..|valid| - 1], path).store, AddTags(m, tags, valid, path).store)
  {
    var prev := AddTags(m, tags, valid[..|valid| - 1], path);
    var t := valid[|valid| - 1];
    AddTagsLast(m, tags, valid, path);
    if t !in prev.tags {
      AddFileToTagGrows(prev.store, t, path);
    } else {
      GrowsRefl(prev.store);
    }
  }

  /** The store after the inner loop's last tag. */
  lemma AddTagsLast(m: Store, tags: seq<string>, valid: seq<string>, path: string)
    requires |valid| > 0
    ensures var prev := AddTags(m, tags, valid[..|valid| - 1], path);
            var t := valid[|valid| - 1];
            AddTags(m, tags, valid, path).store == if t in prev.tags then prev.store else AddFileToTag(prev.store, t, path)
  {
  }

  lemma AddFileToTagGrows(m: Store, tagId: string, path: string)
    ensures Grows(m, AddFileToTag(m, tagId, path))
  {
    var r := AddFileToTag(m, tagId, path);
    forall u ensures TagFilesOf(m, u) <= TagFilesOf(r, u) {
      if u != tagId {
        assert TagFilesOf(r, u) == TagFilesOf(m, u);
      }
    }
  }

  lemma GrowsRefl(m: Store)
    ensures Grows(m, m)
  {
  }

  /** Every tag the inner loop adds to the file lists the file. */
  lemma {:induction false} AddTagsLinks(m: Store, tags: seq<string>, valid: seq<string>, path: string)
    ensures var r := AddTags(m, tags, valid, path);
            forall t :: t in r.tags && t !in tags ==> path in TagFilesOf(r.store, t)
    decreases |valid|
  {
    if |valid| > 0 {
      var n := |valid| - 1;
      var prev := AddTags(m, tags, valid[..n], path);
      AddTagsLinks(m, tags, valid[..n], path);
      AddTagsLast(m, tags, valid, path);
      var t := valid[n];
      if t !in prev.tags {
        assert AddTags(m, tags, valid, path).tags == prev.tags + [t];
        AddFileToTagKeepsLinks(prev.store, t, path, prev.tags, tags);
      }
    }
  }

  /** Adding the file to one more tag keeps it in the lists of the tags it was already added to. */
  lemma AddFileToTagKeepsLinks(m: Store, t: string, path: string, added: seq<string>, tags: seq<string>)
    requires forall u :: u in added && u !in tags ==> path in TagFilesOf(m, u)
    ensures var next := AddFileToTag(m, t, path);
            forall u :: u in added + [t] && u !in tags ==> path in TagFilesOf(next, u)
  {
    var next := AddFileToTag(m, t, path);
    forall u | u in added + [t] && u !in tags
      ensures path in TagFilesOf(next, u)
    {
      if u != t {
        PrefixMember(TagFilesOf(m, u), TagFilesOf(next, u), path);
      }
    }
  }

  /**
   * One iteration of the per-file loop: the valid tags the file lacks are
   * added, and its list is written back when at least one was added.
   *
   * The loop first tests `!fileRecord` on the result of `getWithMetadata`,
   * but that call answers every key, present or not, with an object (its
   * `value` and `metadata` null for a missing key), so the test never fails
   * a file: a path without a KV record is tagged like any other.
   */
  function TagFile(m: Store, valid: seq<string>, path: string): Store {
    var before := FileTagsOf(m, path);
    var a := AddTags(m, before, valid, path);
    WriteTags(a.store, path, before, a.tags)
  }

  /** `if (addedCount > 0) kv.put(file_tags, ...)`: the list is written only when it grew. */
  function WriteTags(m: Store, path: string, before: seq<string>, tags: seq<string>): Store {
    if tags != before then m[FileTagsKey(path) := Record(FileTags(tags), None)] else m
  }

  /** Writing a file's tag list changes that list only, through a link key. */
  lemma WriteTagsFrame(m: Store, path: string, before: seq<string>, tags: seq<string>)
    requires FileTagsOf(m, path) == before
    ensures var r := WriteTags(m, path, before, tags);
            && FileTagsOf(r, path) == tags
            && (forall q :: q != path ==> FileTagsOf(r, q) == FileTagsOf(m, q))
            && (forall t :: TagFilesOf(r, t) == TagFilesOf(m, t))
            && LinksOnlyChanged(m, r)
  {
    KeysInjective();
    LinkKeys("", path);
    forall t
      ensures TagFilesKey(t) != FileTagsKey(path)
    {
      TagKeysDistinct("", t, path);
    }
  }

  /** File tag lists and tag file lists only grow, and only link keys change. */
  ghost predicate Extended(m: Store, m': Store) {
    && (forall q :: FileTagsOf(m, q) <= FileTagsOf(m', q))
    && (forall t :: TagFilesOf(m, t) <= TagFilesOf(m', t))
    && LinksOnlyChanged(m, m')
  }

  lemma ExtendedTrans(m1: Store, m2: Store, m3: Store)
    requires Extended(m1, m2) && Extended(m2, m3)
    ensures Extended(m1, m3)
  {
    forall q ensures FileTagsOf(m1, q) <= FileTagsOf(m3, q) {
      PrefixTrans(FileTagsOf(m1, q), FileTagsOf(m2, q), FileTagsOf(m3, q));
    }
    forall t ensures TagFilesOf(m1, t) <= TagFilesOf(m3, t) {
      PrefixTrans(TagFilesOf(m1, t), TagFilesOf(m2, t), TagFilesOf(m3, t));
    }
    LinksOnlyChangedTrans(m1, m2, m3);
  }

  /** A processed file ends with its old tags, then the valid ones it lacked, each once. */
  lemma TagFileTags(m: Store, valid: seq<string>, path: string)
    ensures var after := FileTagsOf(TagFile(m, valid, path), path);
            FileTagsOf(m, path) <= after
            && (forall t :: t in valid ==> t in after)
            && (forall t :: t in after ==> t in FileTagsOf(m, path) || t in valid)
            && (NoDup(FileTagsOf(m, path)) ==> NoDup(after))
  {
    var before := FileTagsOf(m, path);
    var a := AddTags(m, before, valid, path);
    var after := FileTagsOf(TagFile(m, valid, path), path);
    AddTagsFrame(m, before, valid, path);
    if NoDup(before) {
      AddTagsNoDup(m, before, valid, path);
    }
    assert after == a.tags;
    forall t | t in after ensures t in before || t in valid {
      var i :| 0 <= i < |a.tags| && a.tags[i] == t;
      if i < |before| {
        assert a.tags[..|before|] == before;
        assert before[i] == t;
      }
    }
  }

  /** One file's iteration only extends lists and touches only link keys. */
  lemma TagFileFrame(m: Store, valid: seq<string>, path: string)
    ensures Extended(m, TagFile(m, valid, path))
    ensures forall q :: q != path ==> FileTagsOf(TagFile(m, valid, path), q) == FileTagsOf(m, q)
  {
    var before := FileTagsOf(m, path);
    var a := AddTags(m, before, valid, path);
    AddTagsFrame(m, before, valid, path);
    WriteTagsFrame(a.store, path, before, a.tags);
    LinksOnlyChangedTrans(m, a.store, TagFile(m, valid, path));
  }

  /** The reverse link of every file-to-tag link survives one file's iteration. */
  lemma TagFileLinked(m: Store, valid: seq<string>, path: string, q: string)
    requires Linked(m, q)
    ensures Linked(TagFile(m, valid, path), q)
  {
    var m' := TagFile(m, valid, path);
    TagFileFrame(m, valid, path);
    var before := FileTagsOf(m, path);
    var a := AddTags(m, before, valid, path);
    AddTagsFrame(m, before, valid, path);
    AddTagsLinks(m, before, valid, path);
    WriteTagsFrame(a.store, path, before, a.tags);
    forall t | t in FileTagsOf(m', q) ensures q in TagFilesOf(m', t) {
      assert TagFilesOf(m', t) == TagFilesOf(a.store, t);
      if q == path && t !in before {
      } else {
        assert t in FileTagsOf(m, q);
        PrefixMember(TagFilesOf(m, t), TagFilesOf(m', t), q);
      }
    }
  }

  /** A file that already carries every valid tag is left as it is, and so is the store. */
  lemma TagFileAlreadyTagged(m: Store, valid: seq<string>, path: string)
    requires forall t :: t in valid ==> t in FileTagsOf(m, path)
    ensures TagFile(m, valid, path) == m
  {
    var before := FileTagsOf(m, path);
    AddTagsNothingNew(m, before, valid, path);
  }

  /**
   * A path with no KV record and no tag list is tagged all the same: its
   * tag list is written and holds every valid tag, and each of those tags
   * lists it.
   */
  lemma MissingFileTagged(m: Store, valid: seq<string>, path: string)
    requires path !in m && FileTagsKey(path) !in m && valid != []
    ensures var m' := TagFile(m, valid, path);
            && FileTagsKey(path) in m'
            && (forall t :: t in valid ==> t in FileTagsOf(m', path) && path in TagFilesOf(m', t))
  {
    var m' := TagFile(m, valid, path);
    TagFileTags(m, valid, path);
    assert valid[0] in FileTagsOf(m', path);
    assert Linked(m, path);
    TagFileLinked(m, valid, path, path);
  }

  /** The per-file loop over `paths`, each file seeing the store the earlier ones left. */
  function TagAll(m: Store, valid: seq<string>, paths: seq<string>): Store
    decreases |paths|
  {
    if |paths| == 0 then m
    else TagFile(TagAll(m, valid, paths[..|paths| - 1]), valid, paths[|paths| - 1])
  }

  lemma PrefixTrans(a: seq<string>, b: seq<string>, c: seq<string>)
    requires a <= b && b <= c
    ensures a <= c
  {
    assert c[..|a|] == c[..|b|][..|a|];
  }

  /** The whole loop only extends lists and touches only link keys. */
  lemma {:induction false} TagAllFrame(m: Store, valid: seq<string>, paths: seq<string>)
    ensures Extended(m, TagAll(m, valid, paths))
    decreases |paths|
  {
    if |paths| > 0 {
      var n := |paths| - 1;
      TagAllFrame(m, valid, paths[..n]);
      ExtendedStep(m, TagAll(m, valid, paths[..n]), valid, paths[n]);
      TagAllLast(m, valid, paths);
    } else {
      assert Extended(m, m);
    }
  }

  lemma ExtendedStep(m: Store, prev: Store, valid: seq<string>, path: string)
    requires Extended(m, prev)
    ensures Extended(m, TagFile(prev, valid, path))
  {
    TagFileFrame(prev, valid, path);
    ExtendedTrans(m, prev, TagFile(prev, valid, path));
  }

  /** No file ends up with a tag twice if it had none twice before. */
  lemma {:induction false} TagAllNoDup(m: Store, valid: seq<string>, paths: seq<string>, q: string)
    requires NoDup(FileTagsOf(m, q))
    ensures NoDup(FileTagsOf(TagAll(m, valid, paths), q))
    decreases |paths|
  {
    if |paths| > 0 {
      var n := |paths| - 1;
      TagAllNoDup(m, valid, paths[..n], q);
      TagFileNoDup(TagAll(m, valid, paths[..n]), valid, paths[n], q);
      TagAllLast(m, valid, paths);
    }
  }

  /** One file's iteration adds no tag a file already lists. */
  lemma TagFileNoDup(m: Store, valid: seq<string>, path: string, q: string)
    requires NoDup(FileTagsOf(m, q))
    ensures NoDup(FileTagsOf(TagFile(m, valid, path), q))
  {
    TagFileFrame(m, valid, path);
    if q == path {
      TagFileTags(m, valid, q);
    }
  }

  /** Every file-to-tag link whose reverse link exists keeps it through the batch. */
  lemma {:induction false} TagAllLinked(m: Store, valid: seq<string>, paths: seq<string>, q: string)
    requires Linked(m, q)
    ensures Linked(TagAll(m, valid, paths), q)
    decreases |paths|
  {
    if |paths| > 0 {
      var n := |paths| - 1;
      TagAllLinked(m, valid, paths[..n], q);
      TagFileLinked(TagAll(m, valid, paths[..n]), valid, paths[n], q);
    }
  }

  /**
   * The `results` object of the response. Only an exception thrown while a
   * file is tagged counts it as failed, and the KV reads and writes here do
   * not throw, so every file is counted as processed.
   */
  function Summary(paths: seq<string>, valid: seq<string>): (r: Results)
    ensures r.successCount + r.failedCount == r.totalFiles == |paths|
    ensures |r.errors| == r.failedCount
    ensures r.totalTags == |valid|
    ensures r.failedCount == 0
  {
    Results(|paths|, 0, |paths|, |valid|, [])
  }

  // ---------------------------------------------------------------------
  // properties of a whole request

  /** After the loop every listed file carries every valid tag. */
  lemma {:induction false} EveryProcessedFileTagged(m: Store, valid: seq<string>, paths: seq<string>, i: nat, t: string)
    requires i < |paths| && t in valid
    ensures t in FileTagsOf(TagAll(m, valid, paths), paths[i])
    decreases |paths|
  {
    var n := |paths| - 1;
    if i < n {
      assert paths[..n][i] == paths[i];
      EveryProcessedFileTagged(m, valid, paths[..n], i, t);
      TagAllKeeps(m, valid, paths, paths[i], t);
    } else {
      TagAllLastTagged(m, valid, paths, t);
    }
  }

  /** A tag a file lists before the last path is processed is still listed after it. */
  lemma TagAllKeeps(m: Store, valid: seq<string>, paths: seq<string>, q: string, t: string)
    requires |paths| > 0 && t in FileTagsOf(TagAll(m, valid, paths[..|paths| - 1]), q)
    ensures t in FileTagsOf(TagAll(m, valid, paths), q)
  {
    TagAllLast(m, valid, paths);
    TagFileKeeps(TagAll(m, valid, paths[..|paths| - 1]), valid, paths[|paths| - 1], q, t);
  }

  /** The last path processed lists every valid tag. */
  lemma TagAllLastTagged(m: Store, valid: seq<string>, paths: seq<string>, t: string)
    requires |paths| > 0 && t in valid
    ensures t in FileTagsOf(TagAll(m, valid, paths), paths[|paths| - 1])
  {
    TagAllLast(m, valid, paths);
    TagFileAddsAll(TagAll(m, valid, paths[..|paths| - 1]), valid, paths[|paths| - 1], t);
  }

  /** A tag a file lists is still listed after any file is processed. */
  lemma TagFileKeeps(m: Store, valid: seq<string>, path: string, q: string, t: string)
    requires t in FileTagsOf(m, q)
    ensures t in FileTagsOf(TagFile(m, valid, path), q)
  {
    TagFileFrame(m, valid, path);
    PrefixMember(FileTagsOf(m, q), FileTagsOf(TagFile(m, valid, path), q), t);
  }

  /** A processed file lists every valid tag. */
  lemma TagFileAddsAll(m: Store, valid: seq<string>, path: string, t: string)
    requires t in valid
    ensures t in FileTagsOf(TagFile(m, valid, path), path)
  {
    TagFileTags(m, valid, path);
  }

  /** `TagAll` unfolded once at the last path. */
  lemma TagAllLast(m: Store, valid: seq<string>, paths: seq<string>)
    requires |paths| > 0
    ensures TagAll(m, valid, paths) == TagFile(TagAll(m, valid, paths[..|paths| - 1]), valid, paths[|paths| - 1])
  {
  }

  /** Where every listed file already carries every valid tag, the loop writes nothing. */
  lemma {:induction false} AlreadyTagged(m: Store, valid: seq<string>, paths: seq<string>)
    requires forall i, t :: 0 <= i < |paths| && t in valid ==> t in FileTagsOf(m, paths[i])
    ensures TagAll(m, valid, paths) == m
    decreases |paths|
  {
    if |paths| > 0 {
      var n := |paths| - 1;
      assert forall i :: 0 <= i < n ==> paths[..n][i] == paths[i];
      AlreadyTagged(m, valid, paths[..n]);
      TagFileAlreadyTagged(m, valid, paths[n]);
    }
  }

  /**
   * Repeating the loop on the store it produced writes nothing: the second
   * pass finds every tag already in place.
   */
  lemma {:induction false} TagAllAgainChangesNothing(m: Store, valid: seq<string>, paths: seq<string>)
    ensures var m' := TagAll(m, valid, paths); TagAll(m', valid, paths) == m'
  {
    var m' := TagAll(m, valid, paths);
    forall i, t | 0 <= i < |paths| && t in valid
      ensures t in FileTagsOf(m', paths[i])
    {
      EveryProcessedFileTagged(m, valid, paths, i, t);
    }
    AlreadyTagged(m', valid, paths);
  }

  /** Adding files does not change which tag ids are valid for a later request. */
  lemma {:induction false} ValidTagIdsKept(m: Store, m': Store, tagIds: seq<string>)
    requires LinksOnlyChanged(m, m')
    ensures ValidTagIds(m', tagIds) == ValidTagIds(m, tagIds)
    decreases |tagIds|
  {
    if |tagIds| > 0 {
      var n := |tagIds| - 1;
      ValidTagIdsKept(m, m', tagIds[..n]);
      LinkKeys(tagIds[n], "");
    }
  }

  /**
   * The same request sent twice: the second finds the same valid tags and
   * writes nothing.
   */
  lemma RepeatedRequestWritesNothing(m: Store, tagIds: seq<string>, paths: seq<string>)
    ensures var valid := ValidTagIds(m, tagIds);
            var m' := TagAll(m, valid, paths);
            ValidTagIds(m', tagIds) == valid && TagAll(m', valid, paths) == m'
  {
    var valid := ValidTagIds(m, tagIds);
    TagAllFrame(m, valid, paths);
    ValidTagIdsKept(m, TagAll(m, valid, paths), tagIds);
    TagAllAgainChangesNothing(m, valid, paths);
  }

  // ---------------------------------------------------------------------
  // the handler

  /** `addFileToTag` against the store. */
  method AddFileToTagIn(kv: KvStore, tagId: string, path: string)
    modifies kv
    ensures kv.entries == AddFileToTag(old(kv.entries), tagId, path)
  {
    var files := TagFilesOf(kv.entries, tagId);
    if path !in files {
      kv.Put(TagFilesKey(tagId), Record(TagFiles(files + [path]), None));
    }
  }

  /** One iteration of the per-file loop of `batchAddTags`. */
  method TagOneFile(kv: KvStore, valid: seq<string>, path: string)
    modifies kv
    ensures kv.entries == TagFile(old(kv.entries), valid, path)
  {
    ghost var m0 := kv.entries;
    var before := FileTagsOf(kv.entries, path);
    var tags := before;
    var added := 0;
    var j := 0;
    while j < |valid|
      invariant 0 <= j <= |valid|
      invariant AddTags(m0, before, valid[..j], path) == Tagging(kv.entries, tags)
      invariant added == |tags| - |before|
    {
      assert valid[..j + 1] == valid[..j] + [valid[j]];
      assert valid[..j + 1][..j] == valid[..j];
      if valid[j] !in tags {
        tags := tags + [valid[j]];
        added := added + 1;
        AddFileToTagIn(kv, valid[j], path);
      }
      j := j + 1;
    }
    assert valid[..|valid|] == valid;
    if added > 0 {
      kv.Put(FileTagsKey(path), Record(FileTags(tags), None));
    }
  }

  /** The `validTagIds` loop. */
  method CollectValidTags(kv: KvStore, ids: seq<string>) returns (valid: seq<string>)
    ensures valid == ValidTagIds(kv.entries, ids)
  {
    valid := [];
    var i := 0;
    while i < |ids|
      invariant 0 <= i <= |ids|
      invariant valid == ValidTagIds(kv.entries, ids[..i])
    {
      ValidTagIdsSnoc(kv.entries, ids, i);
      if TagKey(ids[i]) in kv.entries {
        valid := valid + [ids[i]];
      }
      i := i + 1;
    }
    assert ids[..|ids|] == ids;
  }

  /** The per-file loop of `batchAddTags` and the `results` it counts. */
  method TagEachFile(kv: KvStore, valid: seq<string>, paths: seq<string>) returns (results: Results)
    modifies kv
    ensures kv.entries == TagAll(old(kv.entries), valid, paths) && results == Summary(paths, valid)
  {
    ghost var m0 := kv.entries;
    var successCount, failedCount := 0, 0;
    var errors: seq<FileError> := [];
    var k := 0;
    while k < |paths|
      invariant 0 <= k <= |paths|
      invariant kv.entries == TagAll(m0, valid, paths[..k])
      invariant successCount == k
    {
      TagAllSnoc(m0, valid, paths, k);
      TagOneFile(kv, valid, paths[k]);
      successCount := successCount + 1;
      k := k + 1;
    }
    assert paths[..|paths|] == paths;
    results := Results(successCount, failedCount, |paths|, |valid|, errors);
  }

  /** The run over one more file is one `TagFile` on the store the earlier files left. */
  lemma TagAllSnoc(m: Store, valid: seq<string>, paths: seq<string>, k: int)
    requires 0 <= k < |paths|
    ensures TagAll(m, valid, paths[..k + 1]) == TagFile(TagAll(m, valid, paths[..k]), valid, paths[k])
  {
    assert paths[..k + 1][..k] == paths[..k];
  }

  /** `batchAddTags`: validation, then the per-file loop. */
  method BatchAddTags(kv: KvStore, decode: string -> Option<string>,
                      fileIds: Option<seq<string>>, tagIds: Option<seq<string>>) returns (resp: Response)
    modifies kv
    ensures fileIds.None? || |fileIds.value| == 0 ==>
              resp == BadRequest("File IDs array is required and cannot be empty")
    ensures fileIds.Some? && |fileIds.value| > 0 && (tagIds.None? || |tagIds.value| == 0) ==>
              resp == BadRequest("Tag IDs array is required and cannot be empty")
    ensures !resp.Completed? ==> kv.entries == old(kv.entries)
    ensures fileIds.Some? && |fileIds.value| > 0 && tagIds.Some? && |tagIds.value| > 0 ==>
              var paths := DecodeAll(decode, fileIds.value);
              var valid := ValidTagIds(old(kv.entries), tagIds.value);
              (paths.None? ==> resp == ServerError("Failed to batch add tags: URI malformed"))
              && (paths.Some? && valid == [] ==> resp == BadRequest("No valid tags found"))
              && (paths.Some? && valid != [] ==>
                    kv.entries == TagAll(old(kv.entries), valid, paths.value)
                    && resp == Completed(Summary(paths.value, valid)))
  {
    if fileIds.None? || |fileIds.value| == 0 {
      return BadRequest("File IDs array is required and cannot be empty");
    }
    if tagIds.None? || |tagIds.value| == 0 {
      return BadRequest("Tag IDs array is required and cannot be empty");
    }
    var decoded := DecodeAll(decode, fileIds.value);
    if decoded.None? {
      return ServerError("Failed to batch add tags: URI malformed");
    }
    var valid := CollectValidTags(kv, tagIds.value);
    if valid == [] {
      return BadRequest("No valid tags found");
    }
    var results := TagEachFile(kv, valid, decoded.value);
    resp := Completed(results);
  }

  /** `onRequest` of `/api/manage/batch/tags/add`. */
  method OnRequest(kv: KvStore, httpMethod: string, decode: string -> Option<string>,
                   fileIds: Option<seq<string>>, tagIds: Option<seq<string>>) returns (resp: Response)
    modifies kv
    ensures httpMethod != "POST" ==> resp == MethodNotAllowed && kv.entries == old(kv.entries)
    ensures resp.Status() != 200 ==> kv.entries == old(kv.entries)
    ensures httpMethod == "POST" && fileIds.Some? && |fileIds.value| > 0 && tagIds.Some? && |tagIds.value| > 0 ==>
              var paths := DecodeAll(decode, fileIds.value);
              var valid := ValidTagIds(old(kv.entries), tagIds.value);
              paths.Some? && valid != [] ==>
                kv.entries == TagAll(old(kv.entries), valid, paths.value)
                && resp == Completed(Summary(paths.value, valid))
  {
    if httpMethod != "POST" {
      return MethodNotAllowed;
    }
    resp := BatchAddTags(kv, decode, fileIds, tagIds);
  }
}
