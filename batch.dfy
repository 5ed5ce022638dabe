/**
 * Batch delete, move and copy of files (`POST /api/manage/batch`).
 *
 * Each file is handled on its own: its KV record is read, its body is
 * deleted, moved or copied in R2 or S3 according to the record's Channel,
 * the KV record follows, and the CDN cache of the old URL is purged. A file
 * whose handling fails is counted and reported; the loop goes on with the
 * next one. The KV index update is handed to `waitUntil` with exactly the
 * files that succeeded; here it is part of the response.
 */
module Batch {
  import opened Wrappers
  import opened JsString
  import opened Kv

  /** The three stores a batch touches. */
  datatype World = World(kv: Store, r2: map<string, string>, s3: map<string, string>)

  /** The world after handling one file and whether that file succeeded. */
  datatype Step = Step(world: World, ok: bool)

  datatype Action = DeleteAction | MoveAction(target: string) | CopyAction(target: string)

  datatype Transfer = Transfer(from: string, to: string)

  datatype Transfers = NoTransfers | Moves(moves: seq<Transfer>) | Copies(copies: seq<Transfer>)

  datatype BatchResult = BatchResult(success: bool, processed: nat, failed: nat,
                                     errors: seq<string>, transfers: Transfers)

  /** The index update scheduled with `waitUntil`, if any. */
  datatype IndexUpdate = NoIndexUpdate | RemoveFromIndex(ids: seq<string>) | MoveInIndex(moves: seq<Transfer>)

  datatype BatchBody = BatchBody(action: Option<string>, files: Option<seq<string>>, targetPath: Option<string>)

  datatype Response =
    | Failure(status: int, error: string)
    | Success(result: BatchResult, deferred: IndexUpdate)

  function WorldOf(kv: KvStore, r2: R2Bucket, s3: S3Bucket): World
    reads kv, r2, s3
  {
    World(kv.entries, r2.objects, s3.objects)
  }

  function ChannelOf(md: Option<Meta>): Option<string> {
    if md.Some? then md.value.channel else None
  }

  /** Where a moved or copied file lands: `${targetPath}/${fileId.split('/').pop()}`. */
  function Destination(targetPath: string, fileId: string): string {
    if targetPath != "" then targetPath + "/" + LastSegment(fileId, '/') else LastSegment(fileId, '/')
  }

  /** Moving a file into the folder it is already in names the file itself. */
  lemma DestinationInOwnFolder(fileId: string)
    requires '/' in fileId && DropLastSegment(fileId, '/') != ""
    ensures Destination(DropLastSegment(fileId, '/'), fileId) == fileId
  {
    SplitAtLast(fileId, '/');
  }

  /** Keys other than `a` and `b` hold the same records in both stores. */
  ghost predicate SameElsewhere(m: Store, m': Store, a: string, b: string) {
    forall k :: k != a && k != b ==> (k in m <==> k in m') && (k in m ==> m[k] == m'[k])
  }

  // ---------------------------------------------------------------------
  // one file

  /**
   * `deleteFile`: the world after deleting one file, and its success. The
   * record is read with `getWithMetadata`, which answers a missing id with
   * null metadata, so a missing id goes through like a record of no channel:
   * the KV delete removes nothing and the call still reports success.
   */
  function DeleteFileSpec(w: World, s3Failing: set<string>, purgeFailing: set<string>, fileId: string): (r: Step)
    ensures fileId !in w.kv ==> r == Step(w, fileId !in purgeFailing)
    ensures r.world.kv == w.kv || r.world.kv == w.kv - {fileId}
    ensures r.ok ==> r.world.kv == w.kv - {fileId}
    ensures r.world.kv != w.kv ==> r.ok == (fileId !in purgeFailing)
    ensures ChannelOf(MetaOf(w.kv, fileId)) == Some("CloudflareR2") ==> r.world.r2 == w.r2 - {fileId}
    ensures ChannelOf(MetaOf(w.kv, fileId)) != Some("CloudflareR2") ==> r.world.r2 == w.r2
    ensures ChannelOf(MetaOf(w.kv, fileId)) != Some("S3") ==>
              r.world.kv == w.kv - {fileId} && r.world.s3 == w.s3 && r.ok == (fileId !in purgeFailing)
    ensures ChannelOf(MetaOf(w.kv, fileId)) == Some("S3") ==>
              var s3 := S3Delete(w.s3, s3Failing, MetaOf(w.kv, fileId).value.s3FileKey);
              && (s3.None? ==> r == Step(w, false))
              && (s3.Some? ==> r.world == World(w.kv - {fileId}, w.r2, s3.value) && r.ok == (fileId !in purgeFailing))
  {
    var md := MetaOf(w.kv, fileId);
    var ch := ChannelOf(md);
    var r2 := if ch == Some("CloudflareR2") then w.r2 - {fileId} else w.r2;
    if ch == Some("S3") then
      var s3 := S3Delete(w.s3, s3Failing, md.value.s3FileKey);
      if s3.None? then Step(w, false)
      else Step(World(w.kv - {fileId}, r2, s3.value), fileId !in purgeFailing)
    else Step(World(w.kv - {fileId}, r2, w.s3), fileId !in purgeFailing)
  }

  /** The KV part of a move or copy: the record under its new id, with Folder and FileName rewritten. */
  function Relabel(rec: Record, md: Meta, newFileId: string): Record {
    Record(rec.value, Some(md.(folder := Some(DropLastSegment(newFileId, '/')), fileName := Some(newFileId))))
  }

  /** `moveFile`: the world after moving one file, and its success. */
  function MoveFileSpec(w: World, s3Failing: set<string>, purgeFailing: set<string>,
                        fileId: string, newFileId: string): (r: Step)
    ensures fileId !in w.kv ==> r == Step(w, false)
    ensures r.world.kv == w.kv || SameElsewhere(w.kv, r.world.kv, fileId, newFileId)
    ensures r.ok ==> fileId in w.kv && w.kv[fileId].metadata.Some?
    ensures r.ok ==> newFileId != fileId ==> fileId !in r.world.kv
    ensures r.ok ==> newFileId != fileId ==>
              (newFileId in r.world.kv
               && r.world.kv[newFileId].value == w.kv[fileId].value
               && r.world.kv[newFileId].metadata.Some?
               && r.world.kv[newFileId].metadata.value.fileName == Some(newFileId)
               && r.world.kv[newFileId].metadata.value.folder == Some(DropLastSegment(newFileId, '/')))
    ensures r.ok && newFileId == fileId ==> fileId !in r.world.kv
    ensures r.world.kv != w.kv ==> r.ok == (fileId !in purgeFailing)
    ensures MetaOf(w.kv, fileId).None? ==> r == Step(w, false)
    ensures ChannelOf(MetaOf(w.kv, fileId)) == Some("CloudflareR2") && fileId !in w.r2 ==> r == Step(w, false)
    ensures ChannelOf(MetaOf(w.kv, fileId)) == Some("CloudflareR2") && fileId in w.r2 ==>
              && r.world.r2 == w.r2[newFileId := w.r2[fileId]] - {fileId}
              && r.world.s3 == w.s3
              && r.world.kv == w.kv[newFileId := Relabel(w.kv[fileId], MetaOf(w.kv, fileId).value, newFileId)] - {fileId}
              && r.ok == (fileId !in purgeFailing)
    ensures ChannelOf(MetaOf(w.kv, fileId)) != Some("CloudflareR2") ==> r.world.r2 == w.r2
    ensures ChannelOf(MetaOf(w.kv, fileId)) != Some("S3") ==> r.world.s3 == w.s3
    ensures ChannelOf(MetaOf(w.kv, fileId)) == Some("S3") ==>
              var md := MetaOf(w.kv, fileId).value;
              var copied := S3Copy(w.s3, s3Failing, md.s3FileKey, newFileId);
              && (copied.None? ==> r == Step(w, false))
              && (copied.Some? && S3Delete(copied.value, s3Failing, md.s3FileKey).None? ==>
                    r == Step(w.(s3 := copied.value), false))
              && (copied.Some? && S3Delete(copied.value, s3Failing, md.s3FileKey).Some? ==>
                    && r.world.s3 == S3Delete(copied.value, s3Failing, md.s3FileKey).value
                    && r.world.kv == w.kv[newFileId := Relabel(w.kv[fileId], md.(s3FileKey := Some(newFileId)), newFileId)] - {fileId}
                    && r.ok == (fileId !in purgeFailing))
    ensures MetaOf(w.kv, fileId).Some? && ChannelOf(MetaOf(w.kv, fileId)) !in {Some("CloudflareR2"), Some("S3")} ==>
              r == Step(World(w.kv[newFileId := Relabel(w.kv[fileId], MetaOf(w.kv, fileId).value, newFileId)] - {fileId}, w.r2, w.s3),
                        fileId !in purgeFailing)
  {
    if fileId !in w.kv then Step(w, false)
    else
      var rec := w.kv[fileId];
      var md := rec.metadata;
      var ch := ChannelOf(md);
      if ch == Some("CloudflareR2") && fileId !in w.r2 then Step(w, false)
      else
        var r2 := if ch == Some("CloudflareR2") then w.r2[newFileId := w.r2[fileId]] - {fileId} else w.r2;
        if ch == Some("S3") then
          var copied := S3Copy(w.s3, s3Failing, md.value.s3FileKey, newFileId);
          if copied.None? then Step(w, false)
          else
            var deleted := S3Delete(copied.value, s3Failing, md.value.s3FileKey);
            if deleted.None? then Step(w.(s3 := copied.value), false)
            else
              var kv := w.kv[newFileId := Relabel(rec, md.value.(s3FileKey := Some(newFileId)), newFileId)] - {fileId};
              Step(World(kv, r2, deleted.value), fileId !in purgeFailing)
        else if md.None? then Step(w, false)
        else
          var kv := w.kv[newFileId := Relabel(rec, md.value, newFileId)] - {fileId};
          Step(World(kv, r2, w.s3), fileId !in purgeFailing)
  }

  /** `copyFile`: the world after copying one file, and its success. */
  function CopyFileSpec(w: World, s3Failing: set<string>, fileId: string, newFileId: string): (r: Step)
    ensures !r.ok ==> r.world == w
    ensures r.ok ==> fileId in w.kv && w.kv[fileId].metadata.Some?
    ensures r.ok ==>
              (r.world.kv.Keys == w.kv.Keys + {newFileId}
               && r.world.kv[newFileId].value == w.kv[fileId].value
               && r.world.kv[newFileId].metadata.Some?
               && r.world.kv[newFileId].metadata.value.fileName == Some(newFileId))
    ensures SameElsewhere(w.kv, r.world.kv, newFileId, newFileId)
    ensures MetaOf(w.kv, fileId).None? ==> r == Step(w, false)
    ensures ChannelOf(MetaOf(w.kv, fileId)) == Some("CloudflareR2") && fileId !in w.r2 ==> r == Step(w, false)
    ensures ChannelOf(MetaOf(w.kv, fileId)) == Some("CloudflareR2") && fileId in w.r2 ==>
              r == Step(World(w.kv[newFileId := Relabel(w.kv[fileId], MetaOf(w.kv, fileId).value, newFileId)],
                              w.r2[newFileId := w.r2[fileId]], w.s3), true)
    ensures ChannelOf(MetaOf(w.kv, fileId)) == Some("S3") ==>
              var md := MetaOf(w.kv, fileId).value;
              var copied := S3Copy(w.s3, s3Failing, md.s3FileKey, newFileId);
              && (copied.None? ==> r == Step(w, false))
              && (copied.Some? ==>
                    r == Step(World(w.kv[newFileId := Relabel(w.kv[fileId], md.(s3FileKey := Some(newFileId)), newFileId)],
                                    w.r2, copied.value), true))
    ensures MetaOf(w.kv, fileId).Some? && ChannelOf(MetaOf(w.kv, fileId)) !in {Some("CloudflareR2"), Some("S3")} ==>
              r == Step(World(w.kv[newFileId := Relabel(w.kv[fileId], MetaOf(w.kv, fileId).value, newFileId)], w.r2, w.s3), true)
  {
    if fileId !in w.kv then Step(w, false)
    else
      var rec := w.kv[fileId];
      var md := rec.metadata;
      var ch := ChannelOf(md);
      if ch == Some("CloudflareR2") && fileId !in w.r2 then Step(w, false)
      else
        var r2 := if ch == Some("CloudflareR2") then w.r2[newFileId := w.r2[fileId]] else w.r2;
        if ch == Some("S3") then
          var copied := S3Copy(w.s3, s3Failing, md.value.s3FileKey, newFileId);
          if copied.None? then Step(w, false)
          else
            var kv := w.kv[newFileId := Relabel(rec, md.value.(s3FileKey := Some(newFileId)), newFileId)];
            Step(World(kv, r2, copied.value), true)
        else if md.None? then Step(w, false)
        else Step(World(w.kv[newFileId := Relabel(rec, md.value, newFileId)], r2, w.s3), true)
  }

  function StepSpec(w: World, s3Failing: set<string>, purgeFailing: set<string>,
                    action: Action, fileId: string): Step
  {
    match action
    case DeleteAction => DeleteFileSpec(w, s3Failing, purgeFailing, fileId)
    case MoveAction(t) => MoveFileSpec(w, s3Failing, purgeFailing, fileId, Destination(t, fileId))
    case CopyAction(t) => CopyFileSpec(w, s3Failing, fileId, Destination(t, fileId))
  }

  // ---------------------------------------------------------------------
  // the whole batch, file after file

  datatype Run = Run(world: World, oks: seq<bool>)

  function RunSpec(w: World, s3Failing: set<string>, purgeFailing: set<string>,
                   action: Action, files: seq<string>): (r: Run)
    ensures |r.oks| == |files|
    decreases |files|
  {
    if |files| == 0 then Run(w, [])
    else
      var prev := RunSpec(w, s3Failing, purgeFailing, action, files[..|files| - 1]);
      var st := StepSpec(prev.world, s3Failing, purgeFailing, action, files[|files| - 1]);
      Run(st.world, prev.oks + [st.ok])
  }

  /** The files that succeeded, in order. */
  function Succeeded(files: seq<string>, oks: seq<bool>): seq<string>
    requires |files| == |oks|
    decreases |files|
  {
    if |files| == 0 then []
    else Succeeded(files[..|files| - 1], oks[..|oks| - 1]) + (if oks[|oks| - 1] then [files[|files| - 1]] else [])
  }

  /** The files that failed, in order. */
  function FailedIds(files: seq<string>, oks: seq<bool>): seq<string>
    requires |files| == |oks|
    decreases |files|
  {
    if |files| == 0 then []
    else FailedIds(files[..|files| - 1], oks[..|oks| - 1]) + (if oks[|oks| - 1] then [] else [files[|files| - 1]])
  }

  /** Every file either succeeded or failed, and none failed exactly when every step succeeded. */
  lemma {:induction false} SucceededOrFailed(files: seq<string>, oks: seq<bool>)
    requires |files| == |oks|
    ensures |Succeeded(files, oks)| + |FailedIds(files, oks)| == |files|
    ensures |FailedIds(files, oks)| == 0 <==> forall i :: 0 <= i < |oks| ==> oks[i]
    decreases |files|
  {
    if |files| > 0 {
      var n := |files| - 1;
      SucceededOrFailed(files[..n], oks[..n]);
      if forall i :: 0 <= i < n ==> oks[i] {
        assert forall i :: 0 <= i < n ==> oks[..n][i];
      } else {
        var i :| 0 <= i < n && !oks[i];
        assert !oks[..n][i];
      }
    }
  }

  /** The message for a file that failed: `Failed to <verb> <id>`. */
  function FailMessage(verb: string, id: string): string {
    "Failed to " + verb + " " + id
  }

  function Messages(verb: string, ids: seq<string>): (r: seq<string>)
    ensures |r| == |ids|
    ensures forall k :: 0 <= k < |r| ==> r[k] == FailMessage(verb, ids[k])
    decreases |ids|
  {
    if |ids| == 0 then [] else Messages(verb, ids[..|ids| - 1]) + [FailMessage(verb, ids[|ids| - 1])]
  }

  lemma OutcomeSnoc(files: seq<string>, oks: seq<bool>, id: string, ok: bool)
    requires |files| == |oks|
    ensures ok ==> Succeeded(files + [id], oks + [ok]) == Succeeded(files, oks) + [id]
    ensures ok ==> FailedIds(files + [id], oks + [ok]) == FailedIds(files, oks)
    ensures !ok ==> Succeeded(files + [id], oks + [ok]) == Succeeded(files, oks)
    ensures !ok ==> FailedIds(files + [id], oks + [ok]) == FailedIds(files, oks) + [id]
  {
    assert (files + [id])[..|files|] == files;
    assert (oks + [ok])[..|oks|] == oks;
  }

  lemma MessagesSnoc(verb: string, ids: seq<string>, id: string)
    ensures Messages(verb, ids + [id]) == Messages(verb, ids) + [FailMessage(verb, id)]
  {
    assert (ids + [id])[..|ids|] == ids;
  }

  function Verb(action: Action): string {
    match action
    case DeleteAction => "delete"
    case MoveAction(_) => "move"
    case CopyAction(_) => "copy"
  }

  function TransfersTo(target: string, ids: seq<string>): (r: seq<Transfer>)
    ensures |r| == |ids|
    ensures forall k :: 0 <= k < |r| ==> r[k] == Transfer(ids[k], Destination(target, ids[k]))
    decreases |ids|
  {
    if |ids| == 0 then [] else TransfersTo(target, ids[..|ids| - 1]) + [Transfer(ids[|ids| - 1], Destination(target, ids[|ids| - 1]))]
  }

  /** The result object of a batch whose files had the outcomes `oks`. */
  function Summary(action: Action, files: seq<string>, oks: seq<bool>): (r: BatchResult)
    requires |files| == |oks|
    ensures r.processed + r.failed == |files|
    ensures |r.errors| == r.failed
    ensures r.success <==> r.failed == 0
    ensures r.success <==> forall i :: 0 <= i < |oks| ==> oks[i]
    ensures action.MoveAction? ==> r.transfers.Moves? && |r.transfers.moves| == r.processed
    ensures action.CopyAction? ==> r.transfers.Copies? && |r.transfers.copies| == r.processed
    ensures r.processed == |Succeeded(files, oks)|
    ensures r.errors == Messages(Verb(action), FailedIds(files, oks))
    ensures action.DeleteAction? ==> r.transfers == NoTransfers
    ensures action.MoveAction? ==> r.transfers.moves == TransfersTo(action.target, Succeeded(files, oks))
    ensures action.CopyAction? ==> r.transfers.copies == TransfersTo(action.target, Succeeded(files, oks))
  {
    SucceededOrFailed(files, oks);
    var done := Succeeded(files, oks);
    var failed := FailedIds(files, oks);
    var transfers := match action
      case DeleteAction => NoTransfers
      case MoveAction(t) => Moves(TransfersTo(t, done))
      case CopyAction(t) => Copies(TransfersTo(t, done));
    BatchResult(|failed| == 0, |done|, |failed|, Messages(Verb(action), failed), transfers)
  }

  /** The index work handed to `waitUntil`: exactly the files that succeeded, and nothing when none did. */
  function Deferred(action: Action, files: seq<string>, oks: seq<bool>): (u: IndexUpdate)
    requires |files| == |oks|
    ensures u == NoIndexUpdate <==> action.CopyAction? || Succeeded(files, oks) == []
    ensures u.RemoveFromIndex? ==> u.ids == Succeeded(files, oks)
    ensures action.DeleteAction? && Succeeded(files, oks) != [] ==> u == RemoveFromIndex(Succeeded(files, oks))
    ensures action.MoveAction? && Succeeded(files, oks) != [] ==>
              u == MoveInIndex(TransfersTo(action.target, Succeeded(files, oks)))
  {
    var done := Succeeded(files, oks);
    if done == [] then NoIndexUpdate
    else match action
      case DeleteAction => RemoveFromIndex(done)
      case MoveAction(t) => MoveInIndex(TransfersTo(t, done))
      case CopyAction(_) => NoIndexUpdate
  }

  /** After a batch delete, no file reported as deleted is left in KV. */
  lemma {:induction false} DeletedFilesAreGone(w: World, s3Failing: set<string>, purgeFailing: set<string>,
                                               files: seq<string>)
    ensures var run := RunSpec(w, s3Failing, purgeFailing, DeleteAction, files);
            run.world.kv.Keys <= w.kv.Keys
            && forall id :: id in Succeeded(files, run.oks) ==> id !in run.world.kv
    decreases |files|
  {
    if |files| > 0 {
      DeletedFilesAreGone(w, s3Failing, purgeFailing, files[..|files| - 1]);
    }
  }

  /** A batch copy never removes a KV record. */
  lemma {:induction false} CopyKeepsRecords(w: World, s3Failing: set<string>, purgeFailing: set<string>,
                                            target: string, files: seq<string>)
    ensures w.kv.Keys <= RunSpec(w, s3Failing, purgeFailing, CopyAction(target), files).world.kv.Keys
    decreases |files|
  {
    if |files| > 0 {
      CopyKeepsRecords(w, s3Failing, purgeFailing, target, files[..|files| - 1]);
    }
  }

  /**
   * Moving a file to the folder it already lives in reports success and
   * leaves no KV record for it: the new record is written and then the old
   * key, which is the same key, is deleted.
   */
  lemma MoveIntoOwnFolderLosesRecord(w: World, s3Failing: set<string>, purgeFailing: set<string>, fileId: string)
    requires '/' in fileId && DropLastSegment(fileId, '/') != ""
    requires fileId in w.kv && w.kv[fileId].metadata.Some?
    requires w.kv[fileId].metadata.value.channel == None && fileId !in purgeFailing
    ensures var st := StepSpec(w, s3Failing, purgeFailing, MoveAction(DropLastSegment(fileId, '/')), fileId);
            st.ok && fileId !in st.world.kv
  {
    DestinationInOwnFolder(fileId);
  }

  // ---------------------------------------------------------------------
  // the handlers

  method DeleteFile(kv: KvStore, r2: R2Bucket, s3: S3Bucket, purgeFailing: set<string>, fileId: string)
    returns (ok: bool)
    modifies kv, r2, s3
    ensures Step(WorldOf(kv, r2, s3), ok) == DeleteFileSpec(old(WorldOf(kv, r2, s3)), s3.failing, purgeFailing, fileId)
  {
    var md := MetaOf(kv.entries, fileId);
    var ch := ChannelOf(md);
    if ch == Some("CloudflareR2") {
      r2.Delete(fileId);
    }
    if ch == Some("S3") {
      var deleted := s3.DeleteObject(md.value.s3FileKey);
      if !deleted {
        return false;
      }
    }
    kv.Delete(fileId);
    ok := fileId !in purgeFailing;
  }

  method MoveFile(kv: KvStore, r2: R2Bucket, s3: S3Bucket, purgeFailing: set<string>,
                  fileId: string, newFileId: string) returns (ok: bool)
    modifies kv, r2, s3
    ensures Step(WorldOf(kv, r2, s3), ok)
            == MoveFileSpec(old(WorldOf(kv, r2, s3)), s3.failing, purgeFailing, fileId, newFileId)
  {
    if fileId !in kv.entries {
      return false;
    }
    var rec := kv.entries[fileId];
    var md := rec.metadata;
    var ch := ChannelOf(md);
    if ch == Some("CloudflareR2") {
      if fileId !in r2.objects {
        return false;
      }
      var body := r2.objects[fileId];
      r2.Put(newFileId, body);
      r2.Delete(fileId);
    }
    if ch == Some("S3") {
      var copied := s3.CopyObject(md.value.s3FileKey, newFileId);
      if !copied {
        return false;
      }
      var deleted := s3.DeleteObject(md.value.s3FileKey);
      if !deleted {
        return false;
      }
      md := Some(md.value.(s3FileKey := Some(newFileId)));
    }
    if md.None? {
      return false;
    }
    kv.Put(newFileId, Relabel(rec, md.value, newFileId));
    kv.Delete(fileId);
    ok := fileId !in purgeFailing;
  }

  method CopyFile(kv: KvStore, r2: R2Bucket, s3: S3Bucket, fileId: string, newFileId: string) returns (ok: bool)
    modifies kv, r2, s3
    ensures Step(WorldOf(kv, r2, s3), ok) == CopyFileSpec(old(WorldOf(kv, r2, s3)), s3.failing, fileId, newFileId)
  {
    if fileId !in kv.entries {
      return false;
    }
    var rec := kv.entries[fileId];
    var md := rec.metadata;
    var ch := ChannelOf(md);
    if ch == Some("CloudflareR2") {
      if fileId !in r2.objects {
        return false;
      }
      var body := r2.objects[fileId];
      r2.Put(newFileId, body);
    }
    if ch == Some("S3") {
      var copied := s3.CopyObject(md.value.s3FileKey, newFileId);
      if !copied {
        return false;
      }
      md := Some(md.value.(s3FileKey := Some(newFileId)));
    }
    if md.None? {
      return false;
    }
    kv.Put(newFileId, Relabel(rec, md.value, newFileId));
    ok := true;
  }

  /** One file of the batch loop, dispatched on the action. */
  method HandleOne(kv: KvStore, r2: R2Bucket, s3: S3Bucket, purgeFailing: set<string>,
                   action: Action, fileId: string) returns (ok: bool)
    modifies kv, r2, s3
    ensures Step(WorldOf(kv, r2, s3), ok)
            == StepSpec(old(WorldOf(kv, r2, s3)), s3.failing, purgeFailing, action, fileId)
  {
    match action
    case DeleteAction =>
      ok := DeleteFile(kv, r2, s3, purgeFailing, fileId);
    case MoveAction(t) =>
      ok := MoveFile(kv, r2, s3, purgeFailing, fileId, Destination(t, fileId));
    case CopyAction(t) =>
      ok := CopyFile(kv, r2, s3, fileId, Destination(t, fileId));
  }

  /**
   * `batchDeleteFiles`, `batchMoveFiles` and `batchCopyFiles`: the loop over
   * the files, counting successes and failures as it goes.
   */
  method RunBatch(kv: KvStore, r2: R2Bucket, s3: S3Bucket, purgeFailing: set<string>,
                  action: Action, files: seq<string>) returns (result: BatchResult, deferred: IndexUpdate)
    modifies kv, r2, s3
    ensures var run := RunSpec(old(WorldOf(kv, r2, s3)), s3.failing, purgeFailing, action, files);
            WorldOf(kv, r2, s3) == run.world
            && result == Summary(action, files, run.oks)
            && deferred == Deferred(action, files, run.oks)
  {
    var processed, failed, errors, done, outcomes := ProcessAll(kv, r2, s3, purgeFailing, action, files);
    CountsOfLists(Verb(action), files, outcomes);
    var transfers := match action
      case DeleteAction => NoTransfers
      case MoveAction(t) => Moves(TransfersTo(t, done))
      case CopyAction(t) => Copies(TransfersTo(t, done));
    result := BatchResult(failed == 0, processed, failed, errors, transfers);
    deferred := if done == [] then NoIndexUpdate
                else match action
                  case DeleteAction => RemoveFromIndex(done)
                  case MoveAction(t) => MoveInIndex(TransfersTo(t, done))
                  case CopyAction(_) => NoIndexUpdate;
  }

  /** The running counts of the batch loop: successes, failures, their messages and the files that succeeded. */
  datatype Counts = Counts(processed: nat, failed: nat, errors: seq<string>, done: seq<string>)

  /** The counts after files with outcomes `oks`, updated one file at a time as the loop does. */
  function CountsOf(verb: string, files: seq<string>, oks: seq<bool>): Counts
    requires |files| == |oks|
    decreases |files|
  {
    if |files| == 0 then Counts(0, 0, [], [])
    else
      var c := CountsOf(verb, files[..|files| - 1], oks[..|oks| - 1]);
      var id := files[|files| - 1];
      if oks[|oks| - 1] then c.(processed := c.processed + 1, done := c.done + [id])
      else c.(failed := c.failed + 1, errors := c.errors + [FailMessage(verb, id)])
  }

  /** The running counts agree with the succeeded and failed lists. */
  lemma {:induction false} CountsOfLists(verb: string, files: seq<string>, oks: seq<bool>)
    requires |files| == |oks|
    ensures var c := CountsOf(verb, files, oks);
            && c.done == Succeeded(files, oks) && c.processed == |c.done|
            && c.failed == |FailedIds(files, oks)|
            && c.errors == Messages(verb, FailedIds(files, oks))
    decreases |files|
  {
    if |files| > 0 {
      var n := |files| - 1;
      CountsOfLists(verb, files[..n], oks[..n]);
      var prev := FailedIds(files[..n], oks[..n]);
      if oks[n] {
        assert FailedIds(files, oks) == prev;
      } else {
        assert FailedIds(files, oks) == prev + [files[n]];
        MessagesSnoc(verb, prev, files[n]);
      }
    }
  }

  /**
   * Consecutive worlds, each reached from the one before by handling the
   * next file with the recorded outcome.
   */
  ghost predicate Chain(worlds: seq<World>, oks: seq<bool>, s3Failing: set<string>, purgeFailing: set<string>,
                        action: Action, files: seq<string>) {
    && |worlds| == |files| + 1 && |oks| == |files|
    && forall j {:trigger StepSpec(worlds[j], s3Failing, purgeFailing, action, files[j])} :: 0 <= j < |files| ==>
         StepSpec(worlds[j], s3Failing, purgeFailing, action, files[j]) == Step(worlds[j + 1], oks[j])
  }

  /** A chain of steps is the run from its first world. */
  lemma {:induction false} ChainRun(worlds: seq<World>, oks: seq<bool>, s3Failing: set<string>,
                                    purgeFailing: set<string>, action: Action, files: seq<string>)
    requires Chain(worlds, oks, s3Failing, purgeFailing, action, files)
    ensures RunSpec(worlds[0], s3Failing, purgeFailing, action, files) == Run(worlds[|files|], oks)
    decreases |files|
  {
    if |files| > 0 {
      var n := |files| - 1;
      forall j | 0 <= j < n
        ensures StepSpec(worlds[..n + 1][j], s3Failing, purgeFailing, action, files[..n][j])
                == Step(worlds[..n + 1][j + 1], oks[..n][j])
      {
        assert StepSpec(worlds[j], s3Failing, purgeFailing, action, files[j]) == Step(worlds[j + 1], oks[j]);
      }
      ChainRun(worlds[..n + 1], oks[..n], s3Failing, purgeFailing, action, files[..n]);
      assert StepSpec(worlds[n], s3Failing, purgeFailing, action, files[n]) == Step(worlds[n + 1], oks[n]);
      assert oks == oks[..n] + [oks[n]];
    }
  }

  /** A chain extended by one more step. */
  lemma ChainSnoc(worlds: seq<World>, oks: seq<bool>, s3Failing: set<string>, purgeFailing: set<string>,
                  action: Action, files: seq<string>, id: string, w: World, ok: bool)
    requires Chain(worlds, oks, s3Failing, purgeFailing, action, files)
    requires StepSpec(worlds[|files|], s3Failing, purgeFailing, action, id) == Step(w, ok)
    ensures Chain(worlds + [w], oks + [ok], s3Failing, purgeFailing, action, files + [id])
  {
    var ws, os, fs := worlds + [w], oks + [ok], files + [id];
    forall j | 0 <= j < |fs|
      ensures StepSpec(ws[j], s3Failing, purgeFailing, action, fs[j]) == Step(ws[j + 1], os[j])
    {
      if j < |files| {
        assert StepSpec(worlds[j], s3Failing, purgeFailing, action, files[j]) == Step(worlds[j + 1], oks[j]);
      }
    }
  }

  /** The loop of a batch: the files handled in order, with the running counts and messages. */
  method ProcessAll(kv: KvStore, r2: R2Bucket, s3: S3Bucket, purgeFailing: set<string>,
                    action: Action, files: seq<string>)
    returns (processed: nat, failed: nat, errors: seq<string>, done: seq<string>, ghost outcomes: seq<bool>)
    modifies kv, r2, s3
    ensures RunSpec(old(WorldOf(kv, r2, s3)), s3.failing, purgeFailing, action, files) == Run(WorldOf(kv, r2, s3), outcomes)
    ensures Counts(processed, failed, errors, done) == CountsOf(Verb(action), files, outcomes)
  {
    ghost var worlds: seq<World> := [WorldOf(kv, r2, s3)];
    ghost var prefix: seq<string> := [];
    outcomes := [];
    processed, failed := 0, 0;
    errors := [];
    done := [];
    var verb := Verb(action);
    for i := 0 to |files|
      invariant prefix == files[..i]
      invariant Chain(worlds, outcomes, s3.failing, purgeFailing, action, prefix)
      invariant worlds[0] == old(WorldOf(kv, r2, s3)) && worlds[i] == WorldOf(kv, r2, s3)
      invariant Counts(processed, failed, errors, done) == CountsOf(verb, prefix, outcomes)
    {
      var id := files[i];
      var ok;
      ok, processed, failed, errors, done :=
        ProcessOne(kv, r2, s3, purgeFailing, action, verb, worlds, prefix, outcomes, id, processed, failed, errors, done);
      worlds := worlds + [WorldOf(kv, r2, s3)];
      prefix := prefix + [id];
      outcomes := outcomes + [ok];
    }
    assert prefix == files;
    ChainRun(worlds, outcomes, s3.failing, purgeFailing, action, files);
  }

  /** One iteration of the loop: the file handled, then counted. */
  method ProcessOne(kv: KvStore, r2: R2Bucket, s3: S3Bucket, purgeFailing: set<string>, action: Action, verb: string,
                    ghost worlds: seq<World>, ghost prefix: seq<string>, ghost oks: seq<bool>, id: string,
                    processed0: nat, failed0: nat, errors0: seq<string>, done0: seq<string>)
    returns (ok: bool, processed: nat, failed: nat, errors: seq<string>, done: seq<string>)
    requires Chain(worlds, oks, s3.failing, purgeFailing, action, prefix)
    requires worlds[|prefix|] == WorldOf(kv, r2, s3)
    requires Counts(processed0, failed0, errors0, done0) == CountsOf(verb, prefix, oks)
    modifies kv, r2, s3
    ensures Chain(worlds + [WorldOf(kv, r2, s3)], oks + [ok], s3.failing, purgeFailing, action, prefix + [id])
    ensures Counts(processed, failed, errors, done) == CountsOf(verb, prefix + [id], oks + [ok])
  {
    ok := HandleOne(kv, r2, s3, purgeFailing, action, id);
    ChainSnoc(worlds, oks, s3.failing, purgeFailing, action, prefix, id, WorldOf(kv, r2, s3), ok);
    processed, failed, errors, done := Tally(verb, prefix, oks, id, ok, processed0, failed0, errors0, done0);
  }

  /** The counts after one more file with outcome `ok`. */
  method Tally(verb: string, ghost prefix: seq<string>, ghost oks: seq<bool>, id: string, ok: bool,
               processed0: nat, failed0: nat, errors0: seq<string>, done0: seq<string>)
    returns (processed: nat, failed: nat, errors: seq<string>, done: seq<string>)
    requires |prefix| == |oks| && Counts(processed0, failed0, errors0, done0) == CountsOf(verb, prefix, oks)
    ensures Counts(processed, failed, errors, done) == CountsOf(verb, prefix + [id], oks + [ok])
  {
    assert (prefix + [id])[..|prefix|] == prefix && (oks + [ok])[..|oks|] == oks;
    processed, failed, errors, done := processed0, failed0, errors0, done0;
    if ok {
      processed := processed + 1;
      done := done + [id];
    } else {
      failed := failed + 1;
      errors := errors + [FailMessage(verb, id)];
    }
  }

  /** Which action a valid request asks for, or the 400 it gets. */
  function Dispatch(body: BatchBody): Result
  {
    if !Truthy(body.action) || body.files.None? || |body.files.value| == 0 then
      Rejected("Invalid request parameters")
    else if body.action.value == "delete" then Accepted(DeleteAction, body.files.value)
    else if body.action.value == "move" then
      if Truthy(body.targetPath) then Accepted(MoveAction(body.targetPath.value), body.files.value)
      else Rejected("Target path is required for move operation")
    else if body.action.value == "copy" then
      if Truthy(body.targetPath) then Accepted(CopyAction(body.targetPath.value), body.files.value)
      else Rejected("Target path is required for copy operation")
    else Rejected("Unsupported action")
  }

  datatype Result = Accepted(action: Action, files: seq<string>) | Rejected(error: string)

  /** `onRequest` of `/api/manage/batch`. */
  method OnRequest(kv: KvStore, r2: R2Bucket, s3: S3Bucket, purgeFailing: set<string>,
                   httpMethod: string, body: BatchBody) returns (resp: Response)
    modifies kv, r2, s3
    ensures httpMethod != "POST" ==> resp == Failure(405, "Method not allowed")
    ensures resp.Failure? ==> WorldOf(kv, r2, s3) == old(WorldOf(kv, r2, s3))
    ensures httpMethod == "POST" && Dispatch(body).Rejected? ==> resp == Failure(400, Dispatch(body).error)
    ensures httpMethod == "POST" && Dispatch(body).Accepted? ==>
            var d := Dispatch(body);
            var run := RunSpec(old(WorldOf(kv, r2, s3)), s3.failing, purgeFailing, d.action, d.files);
            WorldOf(kv, r2, s3) == run.world
            && resp == Success(Summary(d.action, d.files, run.oks), Deferred(d.action, d.files, run.oks))
  {
    if httpMethod != "POST" {
      return Failure(405, "Method not allowed");
    }
    var d := Dispatch(body);
    if d.Rejected? {
      return Failure(400, d.error);
    }
    var result, deferred := RunBatch(kv, r2, s3, purgeFailing, d.action, d.files);
    resp := Success(result, deferred);
  }
}
