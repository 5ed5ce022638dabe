# CloudFlare-ImgBed file management, modelled in Dafny

This project models the file-management layer of CloudFlare-ImgBed: the
Cloudflare Pages Functions under `functions/api/manage/`, and the
client-side pieces of the two front ends that keep state of their own. Each
handler reads and writes one Workers KV namespace (`env.img_url`), and file
bodies live in R2 or S3.

The model follows the program's own structure, one module per source file:

- `Kv` holds the stores. The KV namespace is a class over a map from keys
  to records; a record is a value plus optional metadata, and each kind of
  JSON blob (tag index, `tag_files`, `file_tags`, favourite lists, folder
  records, access logs, the storage cache) is a variant of one datatype.
  The R2 bucket is a second class over a map. The S3 bucket is a class
  whose operations fail for a given set of keys.
- `Batch` models batch delete, move and copy (`batch.js`). `BatchTags`
  models batch tagging (`batch/tags/add.js`), and `BatchFavorites` models
  adding many files to a favourite group (`batch/favorites/add.js`). Each is
  a method with a per-item loop, proved against a function over the
  request's prefix.
- `Tags` (`tags/index.js`), `Groups` (`favorites/groups.js`) and
  `Favorites` (`favorites/index.js`) model the handlers that list and create
  tags, favourite groups and favourites.
- `FileSearch` models the search handler and its KV fallback scan
  (`search.js`). `SearchTags` models the tag search (`search/tags.js`).
- `FolderCreate` models single and sequential folder creation
  (`folders/create.js`). `FolderBatchCreate` models the pre-checked batch
  creation (`folders/batch-create.js`).
- `FileStats` (`stats/files.js`) and `StorageStats` (`stats/storage.js`)
  model the statistics aggregation.
- `FolderManager` models the client folder helpers of
  `front/src/utils/folderAPI.js`. `Models` models the data-model classes of
  `front/src/models/fileManagerModels.js`.
- `Finder` models the Finder store (`front/src/store/modules/finder.js`).
  `FileManagerStore` models the older store of
  `Sanyue-ImgHub/src/store/modules/fileManager.js`.
- `MockFileApi` models the in-memory file system of
  `Sanyue-ImgHub/src/utils/mockFileAPI.js`.
- `Wrappers`, `Seqs`, `JsString`, `Ordering` and `FileIds` hold the shared
  pieces: optional values and `x || default`, sequence filtering and
  counting, the JavaScript string operations, the stable sort with slice
  paging, and the decoding of file ids.

The clock, generated ids, the random parts of ids, `parseInt`'d paging
parameters and the keys a KV `list` call returns are all parameters. Every
handler returns a datatype that stands for its HTTP status and payload.

Several behaviours of the source are reproduced as written, and a lemma
exhibits each one:

- Moving a file into its own folder deletes it (`Batch.MoveIntoOwnFolderLosesRecord`).
- Folder creation updates the record one level above the intended parent
  (`FolderCreate.ParentPathSkipsDirectory`).
- The pre-checked batch creation accepts a name twice in one request
  (`FolderBatchCreate.RepeatedNameCreatedTwice`). The sequential variant
  refuses the second copy (`FolderCreate.RepeatedNameRefused`).
- The first listing of groups shows the default group twice
  (`Groups.DefaultListedTwice`).
- Tag names are compared untrimmed but stored trimmed (`Tags.UntrimmedNameSlipsThrough`).
- Folder records count as files in the storage statistics
  (`StorageStats.CreatedFolderCounted`), and so do files on an unnamed
  channel, which land in no channel bucket (`StorageStats.UnnamedChannelUncounted`).
- Renaming a mock item to its own name deletes it (`MockFileApi.RenameToOwnNameDeletes`).
- Workers KV `getWithMetadata` answers a missing key with an object whose
  value and metadata are null, so the handlers' "file not found" tests
  never fire. Deleting an unknown id succeeds (`Batch.DeleteFileSpec`),
  batch tagging tags it (`BatchTags.MissingFileTagged`), and both ways of
  adding favourites add it (`BatchFavorites.AddAllCovers`,
  `Favorites.AddToFavorites`).
- The folder-name length limit counts UTF-16 code units, not characters
  (`FolderManager.AstralNameTooLong`).

## Model

| member | source | states |
|---|---|---|
| Ordering.SortBy | functions/api/manage/search/tags.js:120-150 | the sorted list is a permutation of the input, of the same length, ordered by the key ascending or descending |
| Ordering.SortByStable | front/src/store/modules/finder.js:446-452 | sorting by a second key keeps the order of the first key within each group of equal second keys, as the stable array sort does |
| Ordering.Page | functions/api/manage/search/tags.js:154 | the page has `min(count, max(0, total - start))` elements, the ones at positions `start` onward |
| Ordering.PageOfSorted | functions/api/manage/favorites/index.js:86-120 | a page of a sorted list is sorted and holds only elements of the list |
| Ordering.HasMoreMeansFullPage | functions/api/manage/favorites/index.js:120-128 | when `hasMore` holds the page is full |
| Ordering.PagesConcatenate | functions/api/manage/search.js:202 | two consecutive pages together are the page spanning both |
| JsString.Trim | functions/api/manage/tags/index.js:113 | the trimmed text is no longer, starts and ends with a non-space, and is empty exactly when the text was all white space |
| JsString.TrimIsInfix | functions/api/manage/tags/index.js:113 | the trimmed text is the infix of the text with only white space before and after it |
| JsString.TrimUnique | functions/api/manage/tags/index.js:113 | any infix with only white space around it and none at its own ends is the trimmed text, so `Trim` is determined completely |
| JsString.TrimIdempotent | functions/api/manage/tags/index.js:113 | trimming twice is trimming once |
| JsString.JoinSplit | functions/api/manage/search.js:183-186 | joining the parts of a split gives the text back |
| JsString.SplitAtLast | Sanyue-ImgHub/src/store/modules/fileManager.js:79 | a text with the separator is what precedes its last separator, the separator and its last segment; without one, the prefix is empty and the segment is the text |
| Kv.KvStore.Put | functions/api/manage/batch.js:249 | `put` stores the record under the key and changes no other key |
| Kv.KvStore.Delete | functions/api/manage/batch.js:250 | `delete` removes exactly that key |
| Kv.R2Bucket.Put | functions/api/manage/batch.js:230 | an R2 `put` stores the body under the new key only |
| Kv.R2Bucket.Delete | functions/api/manage/batch.js:197 | an R2 `delete` removes exactly that object |
| Kv.S3Bucket.CopyObject | functions/api/manage/batch.js:355-381 | an S3 copy either fails and changes nothing or succeeds with the object under the target key |
| Kv.S3Bucket.DeleteObject | functions/api/manage/batch.js:302-320 | an S3 delete either fails and changes nothing or removes the object |
| Kv.KeysInjective | functions/api/manage/tags/index.js:122-131 | each per-id record key (`manage@tags@`, `manage@tag_files@`, `manage@file_tags@`, the favourite group, group file, file favourite and folder keys) names one id only |
| Kv.TagKeysDistinct | functions/api/manage/tags/index.js:122-131 | a tag record, a tag's file list, a file's tag list and the tag index never share a key |
| Kv.GroupKeysDistinct | functions/api/manage/favorites/groups.js:132-141 | a group record, a group's file list, a file's favourite list and the group index never share a key |
| FileIds.DecodeFileId | functions/api/manage/batch/tags/add.js:67 | splitting on `,` and joining with `/` before decoding is the same as turning every `,` into `/` |
| FileIds.DecodeAll | functions/api/manage/batch/tags/add.js:66-68 | the ids decode as a whole exactly when each id, with `,` turned into `/`, decodes; then one path per id |
| Batch.DestinationInOwnFolder | functions/api/manage/batch.js:118-121 | moving a file into the folder it already lives in names the file itself |
| Batch.DeleteFileSpec | functions/api/manage/batch.js:190-216 | a missing id reads as a record without a channel, so it deletes nothing and succeeds when the purge does; an `S3` file whose object delete fails changes nothing and fails; otherwise exactly that KV key goes, a `CloudflareR2` file loses its R2 object, an `S3` file's object delete is applied, and success is decided by the cache purge |
| Batch.MoveFileSpec | functions/api/manage/batch.js:219-260 | a missing record, null metadata or a `CloudflareR2` file whose R2 object is missing fails with no write; an R2 move puts the object under the new id and removes the old one; an S3 move fails unchanged when the copy fails, keeps the copy in S3 with KV unchanged and fails when the delete fails, and otherwise rewrites `S3FileKey` to the new id; every success stores the `Relabel`led record (value and other metadata kept) under the new id and drops the old key, reporting the purge's outcome; other channels leave R2 and S3 alone |
| Batch.CopyFileSpec | functions/api/manage/batch.js:263-299 | a missing record, null metadata or a `CloudflareR2` file whose R2 object is missing fails with no write; an R2 copy puts the object under the new id as well; an S3 copy fails unchanged when `CopyObject` fails and otherwise stores the copy and rewrites `S3FileKey` to the new id; every success adds the `Relabel`led record under the new id and touches no other key |
| Batch.SucceededOrFailed | functions/api/manage/batch.js:76-101 | every id lands in exactly one of the succeeded and failed lists, and none fails exactly when every step succeeded |
| Batch.OutcomeSnoc | functions/api/manage/batch.js:81-87 | one more id adds itself to exactly the list its outcome names |
| Batch.MessagesSnoc | functions/api/manage/batch.js:86 | a failure appends the message `Failed to <verb> <id>` |
| Batch.RunSpec | functions/api/manage/batch.js:76-92 | the files are handled in order, each on the state the previous one left, with one outcome per file |
| Batch.Messages | functions/api/manage/batch.js:86 | the k-th message is `Failed to <verb> <id>` for the k-th failed id |
| Batch.TransfersTo | functions/api/manage/batch.js:120-128 | one `{from, to}` pair per id, `to` being the id's file name under the target folder |
| Batch.Summary | functions/api/manage/batch.js:67-103 | `processed` is the number of succeeded ids and `processed + failed` the number of ids; `errors` are the messages of the failed ids in order; `success` iff no failure; moves and copies list `TransfersTo` the target of exactly the succeeded ids |
| Batch.Deferred | functions/api/manage/batch.js:94-97 | a delete hands `RemoveFromIndex` the succeeded ids, a move hands `MoveInIndex` their transfers, and there is no update when nothing succeeded or the action is a copy |
| Batch.DeletedFilesAreGone | functions/api/manage/batch.js:66-104 | after a batch delete no id reported as deleted has a KV record |
| Batch.CopyKeepsRecords | functions/api/manage/batch.js:153-187 | a batch copy never removes a KV key |
| Batch.MoveIntoOwnFolderLosesRecord | functions/api/manage/batch.js:249-250 | moving a file into its own folder reports success and leaves no record for it |
| Batch.DeleteFile | functions/api/manage/batch.js:190-216 | the KV, R2 and S3 state and the outcome are those of `DeleteFileSpec` |
| Batch.MoveFile | functions/api/manage/batch.js:219-260 | the KV, R2 and S3 state and the outcome are those of `MoveFileSpec` |
| Batch.CopyFile | functions/api/manage/batch.js:263-299 | the KV, R2 and S3 state and the outcome are those of `CopyFileSpec` |
| Batch.HandleOne | functions/api/manage/batch.js:76-92 | one id of the loop, dispatched on the action, ends in the state of its specification step |
| Batch.RunBatch | functions/api/manage/batch.js:66-187 | the loop ends in the state of the whole run, with the `Summary` of its outcomes and the `Deferred` index update |
| Batch.OnRequest | functions/api/manage/batch.js:5-63 | a non-POST gets 405, an invalid body gets its 400 before anything is touched, and a valid one runs the batch |
| Tags.ListTags | functions/api/manage/tags/index.js:44-73 | every indexed id whose record exists is listed, and nothing more than the index |
| Tags.ListedComeFromIndex | functions/api/manage/tags/index.js:52-58 | every listed tag is the record of an indexed id |
| Tags.ListTagsInIndexOrder | functions/api/manage/tags/index.js:50-62 | the listed tags are, position by position, the records of exactly the index ids that have one, in index order, each with its file count |
| Tags.GetTags | functions/api/manage/tags/index.js:44-73 | the GET answer is the list of the index loop, so (with `ListTagsInIndexOrder`) the tags of the index that exist, in index order, no more of them than the index holds |
| Tags.FindIn | functions/api/manage/tags/index.js:147-161 | a tag is found exactly when some indexed tag's lowercased name equals the lowercased name, and it is the first such tag of the index |
| Tags.CreateTag | functions/api/manage/tags/index.js:78-142 | no name or colour gives 400 and an existing name 409, both with no write; a creation answers the trimmed tag, leaves the store `WithTag` of it, adds exactly the tag, its empty file list and the index entry, and leaves every other key alone |
| Tags.OnRequest | functions/api/manage/tags/index.js:6-39 | GET answers `GetTags`; POST without name or colour gives 400 with no write, POST with an existing name gives 409 with no write, and POST with a new name creates the tag and leaves the store `WithTag` of it; anything else gets 405 and writes nothing |
| Tags.UntrimmedNameSlipsThrough | functions/api/manage/tags/index.js:96-117 | the name is compared untrimmed but stored trimmed, so `" a"` passes when `a` exists |
| BatchTags.ValidTagIds | functions/api/manage/batch/tags/add.js:72-78 | an id is valid exactly when it was given and its tag record exists, and there are no more valid ids than given ones |
| BatchTags.ValidTagIdsFiltered | functions/api/manage/batch/tags/add.js:72-78 | the valid ids are the requested ones, filtered by the existence of their tag record, in request order |
| BatchTags.ValidTagIdsCounts | functions/api/manage/batch/tags/add.js:72-78 | an existing tag id keeps every repeat it has in the request, and a missing one has none |
| BatchTags.AddFileToTag | functions/api/manage/batch/tags/add.js:160-172 | the file joins the tag's file list once, other tags' lists and every file's tag list are unchanged, and only link keys change |
| BatchTags.AddTags | functions/api/manage/batch/tags/add.js:118-128 | the file's tags grow by exactly the valid tags it lacked, in order; with nothing new the store is unchanged |
| BatchTags.AddTagsNothingNew | functions/api/manage/batch/tags/add.js:119-120 | a file that has every valid tag gains nothing |
| BatchTags.AddTagsNoDup | functions/api/manage/batch/tags/add.js:119-120 | a tag list without repeats stays without repeats |
| BatchTags.AddTagsFrame | functions/api/manage/batch/tags/add.js:118-128 | adding tags changes only link keys, and no other file's tag list |
| BatchTags.AddTagsLinks | functions/api/manage/batch/tags/add.js:118-128 | each newly added tag lists the file |
| BatchTags.TagFileTags | functions/api/manage/batch/tags/add.js:114-133 | after tagging, the file's tags are its old tags followed by the valid tags it lacked |
| BatchTags.WriteTagsFrame | functions/api/manage/batch/tags/add.js:130-132 | writing a file's tag list sets that list, leaves every other file's list and every tag's file list alone, and changes only a link key |
| BatchTags.TagFileFrame | functions/api/manage/batch/tags/add.js:100-141 | tagging one file only extends tag and file lists, changes only link keys, and leaves every other file's tag list as it was |
| BatchTags.TagFileLinked | functions/api/manage/batch/tags/add.js:114-133 | a file whose tags all list it keeps that property |
| BatchTags.TagFileAlreadyTagged | functions/api/manage/batch/tags/add.js:130-132 | a file that already has every valid tag causes no write |
| BatchTags.MissingFileTagged | functions/api/manage/batch/tags/add.js:100-133 | a file id with no record is not rejected: it gets a `file_tags` list holding every valid tag, and every valid tag lists it |
| BatchTags.TagAllFrame | functions/api/manage/batch/tags/add.js:100-143 | the whole loop only extends tag and file lists and changes only link keys |
| BatchTags.ExtendedTrans | functions/api/manage/batch/tags/add.js:100-143 | extending lists in two steps extends them overall |
| BatchTags.ExtendedStep | functions/api/manage/batch/tags/add.js:100-141 | one more file keeps the store an extension of the one the loop started from |
| BatchTags.TagAllNoDup | functions/api/manage/batch/tags/add.js:119-120 | no file's tag list gains a repeat |
| BatchTags.TagFileNoDup | functions/api/manage/batch/tags/add.js:119-120 | one file's iteration gives no file's tag list a repeat |
| BatchTags.TagAllLinked | functions/api/manage/batch/tags/add.js:114-133 | tag lists that list their files keep doing so |
| BatchTags.Summary | functions/api/manage/batch/tags/add.js:90-142 | every file is counted, success and failure counts add up to the number of files, no file fails without an exception, one error per failure, and `totalTags` is the number of valid tags |
| BatchTags.EveryProcessedFileTagged | functions/api/manage/batch/tags/add.js:100-135 | every listed file, with or without a record, ends with every valid tag |
| BatchTags.TagAllKeeps | functions/api/manage/batch/tags/add.js:114-133 | a tag a file lists survives the last file of the loop |
| BatchTags.TagAllLastTagged | functions/api/manage/batch/tags/add.js:114-133 | the last file of the loop ends with every valid tag |
| BatchTags.AlreadyTagged | functions/api/manage/batch/tags/add.js:130-132 | when every listed file already has every valid tag, the store is unchanged |
| BatchTags.TagAllAgainChangesNothing | functions/api/manage/batch/tags/add.js:100-143 | running the same tagging again writes nothing |
| BatchTags.ValidTagIdsKept | functions/api/manage/batch/tags/add.js:72-78 | writes to link keys do not change which tag ids are valid |
| BatchTags.RepeatedRequestWritesNothing | functions/api/manage/batch/tags/add.js:40-155 | a repeated identical request finds the same valid tags and writes nothing |
| BatchTags.AddFileToTagIn | functions/api/manage/batch/tags/add.js:160-172 | the store afterwards is `AddFileToTag` of the store before |
| BatchTags.TagOneFile | functions/api/manage/batch/tags/add.js:100-141 | the store afterwards is that of `TagFile` |
| BatchTags.CollectValidTags | functions/api/manage/batch/tags/add.js:72-78 | the loop collects `ValidTagIds` |
| BatchTags.ValidTagIdsSnoc | functions/api/manage/batch/tags/add.js:72-78 | one more request id is appended when its tag exists and dropped otherwise |
| BatchTags.TagEachFile | functions/api/manage/batch/tags/add.js:99-143 | the loop ends in the store of `TagAll` and answers the `Summary` of the listed files |
| BatchTags.TagAllSnoc | functions/api/manage/batch/tags/add.js:99-143 | one more file extends the run by that file |
| BatchTags.BatchAddTags | functions/api/manage/batch/tags/add.js:40-155 | empty or missing file ids or tag ids give their 400s, no valid tag gives 400, a malformed id gives 500, none of them writing; otherwise the store and results are those of the run |
| BatchTags.OnRequest | functions/api/manage/batch/tags/add.js:6-35 | a non-POST gets 405, any status but 200 leaves the store unchanged, and a POST with file ids and tag ids that decode and name an existing tag leaves the store and results of `BatchAddTags` |
| Favorites.Collect | functions/api/manage/favorites/index.js:57-83 | one described file per favourite entry whose file has a record with metadata |
| Favorites.CollectSound | functions/api/manage/favorites/index.js:57-83 | every listed file describes one of the group's entries, with the file's own metadata |
| Favorites.CollectComplete | functions/api/manage/favorites/index.js:57-83 | every entry whose file has metadata is listed |
| Favorites.GetFavoriteFiles | functions/api/manage/favorites/index.js:44-135 | the group defaults to `default`; `total` counts the listable entries; the page is the window `start..start+count` of the listable entries sorted by the requested field and order (default `addedAt`, `desc`), so it is ordered and every file on it comes from the group; `hasMore` says whether more follow |
| Favorites.DefaultOrderNewestFirst | functions/api/manage/favorites/index.js:50-51 | without sort parameters the most recently added favourites come first |
| Favorites.WithFileFavorite | functions/api/manage/favorites/index.js:230-246 | the file's favourite list gains the mirror of the entry at its end, and no other key changes |
| Favorites.AddFavoriteToFile | functions/api/manage/favorites/index.js:230-246 | the store afterwards is `WithFileFavorite` of the store before |
| Favorites.Favorited | functions/api/manage/favorites/index.js:207-213 | the group's list gains the entry and the file's list its mirror, both at the end, and every other key keeps its record |
| Favorites.FavoritedIsInGroup | functions/api/manage/favorites/index.js:186-194 | once added, the file is in the group, so adding it again is refused with 409 |
| Favorites.FavoritedKeepsUnique | functions/api/manage/favorites/index.js:186-210 | adding a file the group does not hold keeps the group without duplicate files |
| Favorites.FavoritedKeepsMirrored | functions/api/manage/favorites/index.js:207-213 | if every entry of a group has its mirror in its file's list, that stays so after any addition |
| Favorites.NewEntry | functions/api/manage/favorites/index.js:199-205 | the new entry names the file and the group, with the note trimmed |
| Favorites.AddToFavorites | functions/api/manage/favorites/index.js:140-225 | no file id gives 400, a malformed id 500, a missing group 404, a file already in the group 409, all without writing; a file id without a record is not refused; otherwise the entry is added and mirrored (`Favorited`) |
| Favorites.OnRequest | functions/api/manage/favorites/index.js:6-39 | GET answers `GetFavoriteFiles`; POST without a file id gives 400, an undecodable id 500, a missing group 404 and a file already in the group 409, none of them writing; POST adding a new file to an existing group answers the new entry and leaves the store `Favorited`; anything else gets 405 |
| Groups.DefaultGroup | functions/api/manage/favorites/groups.js:157-174 | the default group has the id `default`, is marked default, holds no files and was created and updated at the same moment |
| Groups.Listed | functions/api/manage/favorites/groups.js:62-68 | a listed group is its stored record with `fileCount` replaced by the length of its favourite list |
| Groups.ListGroups | functions/api/manage/favorites/groups.js:60-70 | every index id whose group record exists is listed, and nothing beyond the index length |
| Groups.ListGroupsFirst | functions/api/manage/favorites/groups.js:60-70 | the listing starts with the first index id when that id has a record |
| Groups.ListedComeFromIndex | functions/api/manage/favorites/groups.js:60-70 | every listed group is the record of an index id |
| Groups.WithDefault | functions/api/manage/favorites/groups.js:53-58 | the index gains `default` at its front, the default group is stored with an empty favourite list, and every other key keeps its record |
| Groups.GetFavoriteGroups | functions/api/manage/favorites/groups.js:43-81 | afterwards `default` is in the index; with it already there nothing is written and the groups of the index are listed; otherwise the default group is created and listed before the index loop |
| Groups.DefaultListedTwice | functions/api/manage/favorites/groups.js:53-69 | the first GET after `default` went missing from the index reports the default group twice |
| Groups.DefaultFavoritesReset | functions/api/manage/favorites/groups.js:171 | recreating the default group empties any favourite list left under `default` |
| Groups.FindIn | functions/api/manage/favorites/groups.js:179-193 | a group is found exactly when some indexed group's lowercased name equals the lowercased name, and it is the first such group of the index |
| Groups.NewGroup | functions/api/manage/favorites/groups.js:119-129 | the new group has the trimmed name and description, colour `#67C23A` and icon `star` unless given, no files, and is not the default |
| Groups.Created | functions/api/manage/favorites/groups.js:132-141 | exactly the group record, the index and the group's empty file list are written; the group is stored, appended to the index and has no files |
| Groups.CreateFavoriteGroup | functions/api/manage/favorites/groups.js:86-152 | no name gives 400 and an existing name (ignoring case) 409, both without writing; otherwise the new group is returned and stored as `Created` says |
| Groups.OnRequest | functions/api/manage/favorites/groups.js:6-38 | GET answers and writes as `GetFavoriteGroups` (listing the index, recreating `default` first when it is missing); POST without a name gives 400 and with an existing name 409, neither writing; POST with a new name answers the `NewGroup` and leaves the store `Created`; anything else gets 405 without writing |
| BatchFavorites.AddAll | functions/api/manage/batch/favorites/add.js:87-132 | one outcome per path, in order: a path already in the in-memory group list is skipped, any other, with or without a record, is appended to the list and mirrored to its file |
| BatchFavorites.Occurrences | functions/api/manage/batch/favorites/add.js:78-84 | an outcome never occurs more often than there are outcomes |
| BatchFavorites.Tally | functions/api/manage/batch/favorites/add.js:78-131 | `successCount` and `skippedCount` count the added and skipped outcomes and add up to `totalFiles`; no file is counted as failed and there are no errors |
| BatchFavorites.AddAllGrows | functions/api/manage/batch/favorites/add.js:118-121 | the loop only appends to the group list, and no key disappears |
| BatchFavorites.AddAllCountsAdded | functions/api/manage/batch/favorites/add.js:118-123 | the group list grows by exactly `successCount` entries |
| BatchFavorites.AddAllCovers | functions/api/manage/batch/favorites/add.js:87-132 | every requested file, with or without a record, is in the group afterwards |
| BatchFavorites.AddAllSkipsPresent | functions/api/manage/batch/favorites/add.js:100-105 | a file the group already held is skipped wherever it occurs in the request |
| BatchFavorites.AddAllKeepsUnique | functions/api/manage/batch/favorites/add.js:100-118 | a group list without duplicate files stays so, even when the request names a file twice |
| BatchFavorites.WithFileFavoriteKeepsMirrors | functions/api/manage/batch/favorites/add.js:152-168 | appending to one file's favourite list keeps every mirror already present |
| BatchFavorites.AddAllMirrored | functions/api/manage/batch/favorites/add.js:118-121 | every entry the loop holds has its mirror in its file's favourite list when the starting ones did |
| BatchFavorites.BatchKeepsMirrored | functions/api/manage/batch/favorites/add.js:87-135 | after the request the stored group list is mirrored in the files' lists, given that it was before |
| BatchFavorites.RepeatedBatchSkips | functions/api/manage/batch/favorites/add.js:87-135 | sending the same request again skips every file |
| BatchFavorites.AddEach | functions/api/manage/batch/favorites/add.js:73-135 | the store afterwards is that of `AddAll` with the group list written once at the end, and the results are its `Tally` |
| BatchFavorites.BatchAddToFavorites | functions/api/manage/batch/favorites/add.js:40-147 | no or empty file ids give 400, a missing group 404, a malformed id 500, none of them writing; otherwise the batch completes with the store and results of the loop over the decoded paths |
| BatchFavorites.OnRequest | functions/api/manage/batch/favorites/add.js:6-35 | a non-POST gets 405, only a completed batch writes, and a POST naming an existing group with ids that decode completes with the store and results of the loop |
| FileSearch.Category | functions/api/manage/search.js:227-237 | the category is one of `image`, `video`, `audio`, `document` or `other` |
| FileSearch.ListsDisjoint | functions/api/manage/search.js:227-230 | no extension is in two of the four lists |
| FileSearch.CategoryByList | functions/api/manage/search.js:224-238 | each category is given exactly to the extensions of its own list |
| FileSearch.FileTypeIgnoresCase | functions/api/manage/search.js:225 | the extension, and so the file type, does not depend on the letter case of the name |
| FileSearch.SortFiles | functions/api/manage/search.js:241-274 | the result is a permutation of the files, ordered by the key of `sortBy` (lowered name by default), descending for `desc` |
| FileSearch.IndexSearch | functions/api/manage/search.js:116-137 | the search fails exactly when the name comparator throws: `sortBy` is `name` or unknown, two or more files remain after the type filter, and one of them has no `FileName` (index files carry no `name`); otherwise the index's files, or those of the requested type, as a permutation ordered by the requested key |
| FileSearch.IndexNameSortUsesFileName | functions/api/manage/search.js:245-248 | when an index answer of two or more files is sorted by name, every file has a `FileName` and is compared by it, lowered |
| FileSearch.UnnamedIndexFileFails | functions/api/manage/search.js:247 | two index files, one without a `FileName`, make the name sort fail |
| FileSearch.IndexSearchExact | functions/api/manage/search.js:117-122 | with a type other than `all` and a search that succeeds, a file is returned exactly when the index returned it and its name has that type |
| FileSearch.ScanFoundSound | functions/api/manage/search.js:159-180 | every match of the KV scan is a listed key that is not reserved, has a `TimeStamp`, contains the query in its lowered name and has the requested type |
| FileSearch.ScanFoundComplete | functions/api/manage/search.js:159-180 | every listed key that passes those tests is a match |
| FileSearch.AddDirsMembers | functions/api/manage/search.js:183-189 | the directories added for one key are its first `i` segments followed by `/`, for each `i` below the number of segments |
| FileSearch.AddDirsNoDup | functions/api/manage/search.js:187 | adding to the directory set never repeats a directory |
| FileSearch.ScanDirsExact | functions/api/manage/search.js:146-189 | the directories are exactly the proper directory prefixes of the scanned keys, each once |
| FileSearch.DirOfIsPrefix | functions/api/manage/search.js:186 | each such directory is a prefix of the key and ends with `/` |
| FileSearch.ScanKeys | functions/api/manage/search.js:159-190 | the loop collects the matches and directories of `ScanSpec` |
| FileSearch.SearchFilesInKv | functions/api/manage/search.js:141-210 | the fallback answers the page `start..start+count` of the sorted matches, all the directories, and the number of matches |
| FileSearch.FallbackMatchesStore | functions/api/manage/search.js:150-180 | over a listing of every key under `dir`, the fallback finds every matching file of the store under `dir` and nothing outside it |
| FileSearch.OnRequest | functions/api/manage/search.js:3-90 | a non-GET gets 405 and a blank query 400; otherwise the trimmed query is answered from the index when the index answers and its search succeeds, and from the KV scan when the index fails or its sort throws, with the defaults `all`, `name` and `asc` |
| SearchTags.TrimNonEmptyClean | functions/api/manage/search/tags.js:61 | trimming the comma-free pieces and dropping the empty ones leaves only clean ids |
| SearchTags.ParseTagIdsClean | functions/api/manage/search/tags.js:61 | every id read from the `tags` parameter is non-empty, trimmed and free of commas |
| SearchTags.TrimNonEmptyKeepsClean | functions/api/manage/search/tags.js:61 | clean ids pass through the trim-and-drop step unchanged |
| SearchTags.ParseTagIdsJoined | functions/api/manage/search/tags.js:61 | clean ids written as a comma-separated list are read back exactly |
| SearchTags.KeepIn | functions/api/manage/search/tags.js:198 | a file is kept exactly when it is in both lists |
| SearchTags.Common | functions/api/manage/search/tags.js:193-202 | the intersection is never longer than the first tag's list |
| SearchTags.CommonMembers | functions/api/manage/search/tags.js:193-202 | a file is in the intersection exactly when the first tag and every later tag list it |
| SearchTags.CommonEmpty | functions/api/manage/search/tags.js:201 | once the intersection is empty it stays empty, so stopping early changes nothing |
| SearchTags.GetFilesByMultipleTags | functions/api/manage/search/tags.js:188-209 | no tags give no files; otherwise the loop, with its early exit, yields the intersection of the tags' file lists |
| SearchTags.MatchingMembers | functions/api/manage/search/tags.js:76-82 | a file matches exactly when every requested tag lists it |
| SearchTags.FilterDir | functions/api/manage/search/tags.js:85-89 | with a directory, a file is kept exactly when it lies under it or is it; without one, all are kept |
| SearchTags.Collect | functions/api/manage/search/tags.js:92-117 | every listed file has metadata and is described from its own record and tag list |
| SearchTags.CollectComplete | functions/api/manage/search/tags.js:92-117 | every matching file with metadata is listed |
| SearchTags.Search | functions/api/manage/search/tags.js:41-169 | no `tags` parameter, or one with no id, gives its 400; otherwise `total` counts the files carrying every tag, having metadata and lying in the directory, and the page is the window `start..start+count` of exactly those files sorted by the requested key (default name, ascending), so each listed file carries every tag; `hasMore` says whether more follow |
| SearchTags.ListedCarriesAllTags | functions/api/manage/search/tags.js:76-117 | every listed file is in the file list of every requested tag |
| SearchTags.SearchFilesByTags | functions/api/manage/search/tags.js:41-169 | the handler's answer is `Search` of the store |
| SearchTags.OnRequest | functions/api/manage/search/tags.js:6-36 | a non-GET gets 405; a GET answers `Search` and writes nothing |
| FolderCreate.FolderPath | functions/api/manage/folders/create.js:39 | the folder path ends with `/`, and is the path itself when that already does |
| FolderCreate.FolderPathIdempotent | functions/api/manage/folders/create.js:39 | ensuring the trailing slash twice is the same as once |
| FolderCreate.ParentPath | functions/api/manage/folders/create.js:82 | the computed parent key is never empty (`/` at worst) |
| FolderCreate.ParentPathShorter | functions/api/manage/folders/create.js:82 | the parent key is shorter than the folder path it comes from |
| FolderCreate.ParentPathSkipsDirectory | functions/api/manage/folders/create.js:81-84 | a folder created in directory `d` is not registered with the folder `d`: the parent key drops one segment too many |
| FolderCreate.FolderMeta | functions/api/manage/folders/create.js:71-76 | the KV metadata marks the record as a folder and carries its path, name and creation time |
| FolderCreate.NewFolder | functions/api/manage/folders/create.js:52-64 | a new folder's full path is its path followed by its name; it is empty, with equal creation and update times |
| FolderCreate.WithChildren | functions/api/manage/folders/create.js:84-100 | without a parent record nothing changes; otherwise only the parent changes: its children gain the new ones at the end, its item count grows by their number, its update time is now, and it is written back without metadata |
| FolderCreate.CreateStoresFolder | functions/api/manage/folders/create.js:66-101 | after a creation the folder record and its metadata are stored under its key, and no key but the folder's and the computed parent's changed |
| FolderCreate.CreateUpdatesParent | functions/api/manage/folders/create.js:81-100 | below the root, an existing parent record gains exactly the new folder as its last child and one more item, and nothing else of it changes but the update time |
| FolderCreate.CreateFolder | functions/api/manage/folders/create.js:8-132 | no name gives 400, a trimmed name the pattern refuses 400, an existing folder 409, none of them writing; otherwise the folder with the defaults `/`, `public` and no tags is returned and stored as `AfterCreate` says |
| FolderCreate.CheckOf | functions/api/manage/folders/create.js:172-191 | an element is invalid exactly when it has no name or its trimmed name fails the pattern (reported as `unnamed` without a name); a valid one is found present exactly when its key is already in the store |
| FolderCreate.Apply | functions/api/manage/folders/create.js:172-233 | each element adds exactly one entry to the results or to the errors |
| FolderCreate.CreateAllCounts | functions/api/manage/folders/create.js:172-234 | every element of the batch ends in exactly one of the two lists |
| FolderCreate.ApplyKeepsFresh | functions/api/manage/folders/create.js:181-226 | handling an element checked against the current store keeps every created folder new, stored and distinct |
| FolderCreate.CreateAllFresh | functions/api/manage/folders/create.js:172-234 | every folder a batch created was absent before, is stored afterwards, no path is created twice, and no key is removed |
| FolderCreate.RepeatedNameRefused | functions/api/manage/folders/create.js:181-191 | the same new name twice in one batch is created once and then refused as existing |
| FolderCreate.CreateBatch | functions/api/manage/folders/create.js:138-272 | an absent or empty list and a list of more than 50 give their 400s without writing; otherwise the elements are handled in order and the summary counts the list, the created folders and the refusals |
| FolderBatchCreate.ChildrenOf | functions/api/manage/folders/batch-create.js:142-148 | one child entry per created folder, in order, under the name it was given and its full path |
| FolderBatchCreate.CreateCheckedCounts | functions/api/manage/folders/batch-create.js:62-126 | every element ends in exactly one of the results and the errors |
| FolderBatchCreate.ApplyKeepsWritten | functions/api/manage/folders/batch-create.js:83-117 | writing one element keeps every created folder new and stored, removes no key and leaves keys no longer than the parent's alone |
| FolderBatchCreate.CreateCheckedWritten | functions/api/manage/folders/batch-create.js:62-126 | after the loop every created folder was absent before and is stored, no key was removed, and the parent's record is untouched |
| FolderBatchCreate.FinishUpdatesParent | functions/api/manage/folders/batch-create.js:129-159 | when something was created below the root and the parent exists, the parent gains one child per created folder, in order, and that many items, and nothing else of it changes but the update time |
| FolderBatchCreate.RepeatedNameCreatedTwice | functions/api/manage/folders/batch-create.js:44-117 | the same new name twice in one request passes both checks, is reported created twice under one path, and so repeats a path |
| FolderBatchCreate.CheckAll | functions/api/manage/folders/batch-create.js:44-59 | one check per element, each made against the store as it was before any write |
| FolderBatchCreate.UpdateParent | functions/api/manage/folders/batch-create.js:129-159 | the store afterwards is `Finish` of the store before |
| FolderBatchCreate.BatchCreate | functions/api/manage/folders/batch-create.js:8-207 | an absent or empty list and one of more than 50 give their 400s without writing; otherwise every element is checked first, the valid new ones written in order, the parent updated once, and the summary counts the list, the results and the errors |
| FileStats.TypeCategory | functions/api/manage/stats/files.js:253-260 | the category is one of six; it is `images`, `videos` or `audio` exactly when the type starts with that prefix; `documents` and `archives` only when their markers occur |
| FileStats.HitsOf | functions/api/manage/stats/files.js:130-132 | no kind of hit outnumbers the logs it is counted from |
| FileStats.SummaryEntryCounts | functions/api/manage/stats/files.js:100-127 | a file counts in the summary exactly when it has a stats record, a log inside the window, metadata and the requested type |
| FileStats.KeysOf | functions/api/manage/stats/files.js:140-148 | one key per per-type counter, in order |
| FileStats.BumpSums | functions/api/manage/stats/files.js:140-151 | adding a file to the per-type table adds one to the file count and its hits to the view, download and share sums |
| FileStats.BumpKeys | functions/api/manage/stats/files.js:140-147 | the per-type table keeps one counter per category, now including the file's |
| FileStats.SummaryCountsFiles | functions/api/manage/stats/files.js:100-127 | the total file count is the number of indexed files that count |
| FileStats.SummaryBalanced | functions/api/manage/stats/files.js:127-151 | the per-type counts, views, downloads and shares add up to the totals, with one counter per category |
| FileStats.Examine | functions/api/manage/stats/files.js:101-151 | one step of the summary loop yields the file's contribution as the summary defines it |
| FileStats.Summarize | functions/api/manage/stats/files.js:100-174 | the loop's totals are the summary of the whole index |
| FileStats.Latest | functions/api/manage/stats/files.js:238-239 | the last access time is one of the logs' times and no log is later |
| FileStats.DetailEntrySound | functions/api/manage/stats/files.js:199-241 | a listed file has accesses, its total is the sum of its three counts, its last access lies inside the window and after every recent log, and the summary counts it too |
| FileStats.DetailsSound | functions/api/manage/stats/files.js:196-248 | every listed entry comes from the index, has accesses and is counted in the summary |
| FileStats.CollectDetails | functions/api/manage/stats/files.js:196-248 | the loop builds the detailed list of the whole index |
| FileStats.DetailOf | functions/api/manage/stats/files.js:200-246 | one file of the loop gives its entry exactly as `DetailEntry` does: nothing without stats, metadata, a matching type or an access in the window |
| FileStats.GetFileStats | functions/api/manage/stats/files.js:41-191 | the response carries the summary's totals and per-type table; with `detailed` it lists the requested page of the entries sorted by accesses, most first, and their number; otherwise no files and no total |
| FileStats.ListedPageSorted | functions/api/manage/stats/files.js:88-97 | the listed page is ordered by number of accesses, most first, and holds only counted files with accesses |
| FileStats.OnRequest | functions/api/manage/stats/files.js:6-36 | any method but GET is refused with 405; GET answers the totals and type counts of the indexed files in the range, and with `detailed` the page of their entries, most accessed first, with its total |
| StorageStats.SizeCategory | functions/api/manage/stats/storage.js:227-232 | the size class is `small` below 1 MB, `medium` below 10, `large` below 100 and `xlarge` otherwise, each as an if-and-only-if |
| StorageStats.KeysOf | functions/api/manage/stats/storage.js:94-115 | one key per bucket, in order |
| StorageStats.Zeroed | functions/api/manage/stats/storage.js:91-117 | the initial buckets carry exactly the given keys, all at zero |
| StorageStats.ZeroedSums | functions/api/manage/stats/storage.js:91-117 | fresh buckets sum to no files and no size |
| StorageStats.SumsSnoc | functions/api/manage/stats/storage.js:162-181 | an appended bucket adds its count and size to the sums |
| StorageStats.AddToSums | functions/api/manage/stats/storage.js:143-159 | adding to a fixed family keeps its keys, and adds one file and its size exactly when the key is one of them |
| StorageStats.AddOrAppendSums | functions/api/manage/stats/storage.js:162-181 | adding to the directory or month family always adds one file and its size, and keeps one bucket per key, including the new one |
| StorageStats.EmptyBalanced | functions/api/manage/stats/storage.js:91-117 | the initial statistics are balanced |
| StorageStats.AddFileBalanced | functions/api/manage/stats/storage.js:131-182 | counting one file keeps the statistics balanced: the type, size and directory families account for every file and byte, the channel and month families for at most that |
| StorageStats.UsageBalanced | functions/api/manage/stats/storage.js:123-186 | the walk's statistics are balanced and their file total is the number of listed keys that count |
| StorageStats.CalculatedTrends | functions/api/manage/stats/storage.js:188-189 | the upload trends come out sorted by month, are a permutation of the walk's month buckets, one per month, and nothing else changes |
| StorageStats.Calculate | functions/api/manage/stats/storage.js:90-210 | the loop's statistics are the computed usage of the listed keys |
| StorageStats.GetStorageUsage | functions/api/manage/stats/storage.js:40-85 | a cache younger than an hour is returned unchanged and nothing is written; otherwise the usage is recomputed, returned and stored as the cache with the current time |
| StorageStats.RecomputedIsCached | functions/api/manage/stats/storage.js:43-73 | a freshly stored cache is served for the following hour, and the cache key itself is never counted as a file |
| StorageStats.CreatedFolderCounted | functions/api/manage/stats/storage.js:123-140 | a folder record written by the folder endpoint carries metadata and so is counted as a file once listed |
| StorageStats.UnnamedChannelUncounted | functions/api/manage/stats/storage.js:133-146 | a file whose channel is not one of the five named ones adds to the totals but to no channel bucket |
| StorageStats.OnRequest | functions/api/manage/stats/storage.js:6-35 | any method but GET is refused with 405 and writes nothing; GET answers a fresh cache without writing, and otherwise the recomputed usage, which it caches with the current time |
| FolderManager.IsReservedListed | front/src/utils/folderAPI.js:271-272 | the spelled-out test for a reserved device name holds exactly for the 22 names of the list |
| FolderManager.ValidateFolderName | front/src/utils/folderAPI.js:249-277 | a name is accepted, trimmed, exactly when its trimmed form is non-empty, at most 50 UTF-16 code units long, has no forbidden character and is not reserved in upper case; an absent or blank name gets the empty-name error, an overlong one the length error, and the reserved-name error only reaches names that are otherwise valid |
| FolderManager.AstralNameTooLong | front/src/utils/folderAPI.js:260-262 | the length limit counts code units, so 26 characters outside the Basic Multilingual Plane are already too long |
| JsString.Utf16Length | front/src/utils/folderAPI.js:260 | a string has between one and two code units per character |
| JsString.BmpLength | front/src/utils/folderAPI.js:260 | text inside the Basic Multilingual Plane has one code unit per character |
| JsString.AstralLength | front/src/utils/folderAPI.js:260 | text outside the Basic Multilingual Plane has two code units per character |
| FolderManager.AcceptedStable | front/src/utils/folderAPI.js:249-277 | an accepted name is accepted again unchanged, and the create endpoint's name check accepts it too |
| FolderManager.ReservedInAnyCase | front/src/utils/folderAPI.js:271-274 | a reserved name is refused with the reserved-name error whatever its letter case |
| FolderManager.ReservedChars | front/src/utils/folderAPI.js:271 | reserved names are three or four capitals and digits |
| FolderManager.PlainNameClean | front/src/utils/folderAPI.js:254-268 | a name made of letters and digits has nothing to trim and no forbidden character |
| FolderManager.Candidate | front/src/utils/folderAPI.js:290 | every numbered candidate is longer than the base name |
| FolderManager.CandidateInjective | front/src/utils/folderAPI.js:286-292 | different counters give different candidates |
| FolderManager.GenerateUniqueName | front/src/utils/folderAPI.js:285-295 | the name returned is not among the existing names, and it is the first candidate that is not, found after at most as many tries as there are existing names |
| FolderManager.Collapse | front/src/utils/folderAPI.js:311 | collapsing slash runs never lengthens the path |
| FolderManager.CollapseFirst | front/src/utils/folderAPI.js:311 | collapsing keeps the first character |
| FolderManager.CollapseSingles | front/src/utils/folderAPI.js:311 | after collapsing no two slashes are adjacent |
| FolderManager.CollapseNoop | front/src/utils/folderAPI.js:311 | a path without adjacent slashes is left as it is |
| FolderManager.CollapseUnslashed | front/src/utils/folderAPI.js:311 | collapsing keeps every character other than `/`, in order |
| FolderManager.DropTrailingSlash | front/src/utils/folderAPI.js:314-316 | removing the trailing slash yields a formatted path with the same non-slash characters, and leaves a formatted path as it is |
| FolderManager.FormatPath | front/src/utils/folderAPI.js:302-319 | an absent or empty path becomes `/`; every result starts with `/`, has no adjacent slashes, and ends with `/` only when it is `/`; its non-slash characters are the input's, in order; an already formatted path is returned unchanged |
| FolderManager.FormatPathIdempotent | front/src/utils/folderAPI.js:302-319 | formatting a formatted path changes nothing |
| Models.OrNumber | front/src/models/fileManagerModels.js:19 | the default of a number: the value when it is present and non-zero, the default otherwise |
| Models.OrFalse | front/src/models/fileManagerModels.js:83 | the default of a flag is true exactly when the flag is given as true |
| Models.OrNull | front/src/models/fileManagerModels.js:235 | the null default of a text: the text when it is non-empty, nothing otherwise |
| Models.GenerateId | front/src/models/fileManagerModels.js:22-24 | a generated id starts with its entity's prefix |
| Models.NewTag | front/src/models/fileManagerModels.js:12-20 | a tag built with a clock reading has every field filled; a given non-empty name is kept |
| Models.TagDefaults | front/src/models/fileManagerModels.js:12-24 | a tag built from nothing gets the `tag_` id, an empty name and description, the default colour, the clock's time twice and no files |
| Models.TagRoundTrip | front/src/models/fileManagerModels.js:26-40 | reading back the JSON of a built tag gives the same tag, whatever the clock and id source |
| Models.NewFileTag | front/src/models/fileManagerModels.js:47-52 | a file-tag link built with a clock reading has every field filled |
| Models.FileTagDefaults | front/src/models/fileManagerModels.js:47-52 | a link built from nothing has empty ids, the clock's time and `system` as author |
| Models.FileTagRoundTrip | front/src/models/fileManagerModels.js:54-65 | reading back the JSON of a built link gives the same link |
| Models.NewFavoriteGroup | front/src/models/fileManagerModels.js:74-84 | a group built with a clock reading has every field filled, and is the default group exactly when `isDefault` is given as true |
| Models.FavoriteGroupDefaults | front/src/models/fileManagerModels.js:74-88 | a group built from nothing gets the `group_` id, the default colour and icon, the clock's time, no files, and is not the default |
| Models.FavoriteGroupRoundTrip | front/src/models/fileManagerModels.js:90-106 | reading back the JSON of a built group gives the same group |
| Models.NewFavoriteFile | front/src/models/fileManagerModels.js:113-120 | a favourite built with a clock reading has every field filled, and lands in the `default` group when none is given |
| Models.FavoriteFileRoundTrip | front/src/models/fileManagerModels.js:126-139 | reading back the JSON of a built favourite gives the same favourite |
| Models.NewFileVersion | front/src/models/fileManagerModels.js:148-161 | a version built with a clock reading has every field filled, its number is never 0, and it is active exactly when `isActive` is given as true |
| Models.ZeroVersionBecomesOne | front/src/models/fileManagerModels.js:151 | a missing or zero version number becomes 1 |
| Models.FileVersionRoundTrip | front/src/models/fileManagerModels.js:167-186 | reading back the JSON of a built version gives the same version |
| Models.NewFileAccessLog | front/src/models/fileManagerModels.js:195-203 | an access log built with a clock reading has every field filled, and is a `view` when no type is given |
| Models.FileAccessLogRoundTrip | front/src/models/fileManagerModels.js:209-223 | reading back the JSON of a built log gives the same log |
| Models.NewFileStats | front/src/models/fileManagerModels.js:230-238 | statistics built with a clock reading have their times filled |
| Models.FileStatsDefaults | front/src/models/fileManagerModels.js:230-238 | statistics built from nothing count zero of each access, were never accessed and carry the clock's time |
| Models.FileStatsRoundTrip | front/src/models/fileManagerModels.js:240-254 | reading back the JSON of built statistics gives the same statistics |
| Models.NewExtended | front/src/models/fileManagerModels.js:264-284 | without statistics the metadata builds a fresh statistics object for its file name; given statistics and tags are kept as given |
| Models.ExtendedToJson | front/src/models/fileManagerModels.js:286-304 | statistics held as an instance are written through their own JSON form |
| Models.ExtendedFromJson | front/src/models/fileManagerModels.js:307-313 | `fromJSON` always holds statistics as an instance, rebuilt from the given object when there is one, and with a clock reading the result is fully built |
| Models.ExtendedDefaults | front/src/models/fileManagerModels.js:264-284 | metadata built from nothing has no tags, is not a favourite, is at version 1 of 1, has fresh zero statistics and `None` as list type and label |
| Models.ExtendedRoundTrip | front/src/models/fileManagerModels.js:286-313 | metadata whose statistics are a built instance survives a JSON round trip |
| Models.ExtendedReadStable | front/src/models/fileManagerModels.js:286-313 | anything read by `fromJSON` survives being written and read again |
| Models.GivenStatsRebuilt | front/src/models/fileManagerModels.js:302-311 | statistics given as a raw object come back from a round trip rebuilt with defaults: a missing `createdAt` becomes the clock's time |
| Finder.AddedToHistoryOk | front/src/store/modules/finder.js:65-76 | adding a path keeps the history well formed, keeps the entries up to the index, ends the history at the path with nothing to go forward to, and moves the index on exactly when the path differs from the current entry |
| Finder.BackForward | front/src/store/modules/finder.js:179-208 | going back and forward keep the history well formed and undo each other; each moves the index by one when the getter allows it and changes nothing otherwise |
| Finder.FavoritePaths | front/src/store/modules/finder.js:110-121 | one path per favourite, in order |
| Finder.FindFavorite | front/src/store/modules/finder.js:117 | the position found is the first favourite with the path, and -1 exactly when no favourite has it |
| Finder.FavoritesUnique | front/src/store/modules/finder.js:110-121 | adding keeps favourite paths unique and makes the path a favourite; removing keeps them unique, removes the path and keeps every other favourite |
| Finder.RecentPaths | front/src/store/modules/finder.js:123-140 | one path per recent item, in order |
| Finder.FindRecent | front/src/store/modules/finder.js:125 | the position found is the first one holding an item with the path, and is -1 exactly when none has it |
| Finder.WithRecentBounded | front/src/store/modules/finder.js:123-140 | after recording an item it comes first with the current time, the list holds 1 to 20 items, and recent paths stay unique |
| Finder.ClampZoom | front/src/store/modules/finder.js:154-156 | the zoom lies between 0.5 and 3.0, is kept when already inside and is pushed to the nearer bound otherwise |
| Finder.FilteredItemsSpec | front/src/store/modules/finder.js:401-452 | the view is a permutation of the items matching the query, folders first, and within the folders and within the other items ordered by the sort field in the sort order |
| Finder.SelectedSpec | front/src/store/modules/finder.js:404-409 | a non-empty query keeps exactly the items whose lowercased name contains the lowercased query |
| Finder.FileKind | front/src/store/modules/finder.js:521-535 | the kind of the lowercased extension is `image`, `video`, `audio` or `document` exactly when that list is the first of the four to hold it, and `file` when none does |
| Finder.FinderStore.constructor | front/src/store/modules/finder.js:3-53 | the initial state: path `/` as the only history entry, grid view sorted by name ascending, no items, selection or recent items, the two default favourites and zoom 1 |
| Finder.FinderStore.AddToHistory | front/src/store/modules/finder.js:65-76 | the history becomes the one adding the path defines, and stays well formed |
| Finder.FinderStore.Initialize | front/src/store/modules/finder.js:161-165 | the initial path becomes current and is added to the history, which then points at it |
| Finder.FinderStore.NavigateTo | front/src/store/modules/finder.js:168-176 | navigating to the current path changes nothing; any other path becomes current, is added to the history with nothing ahead and something behind, and the selection clears |
| Finder.FinderStore.NavigateBack | front/src/store/modules/finder.js:179-192 | the history steps back when it can, and the current path becomes the entry before |
| Finder.FinderStore.NavigateForward | front/src/store/modules/finder.js:195-208 | the history steps forward when it can, and the current path becomes the entry after |
| Finder.FinderStore.AddFavorite | front/src/store/modules/finder.js:110-114 | the favourite is appended unless its path is already there; paths stay unique |
| Finder.FinderStore.RemoveFavorite | front/src/store/modules/finder.js:116-121 | the first favourite with the path is removed; paths stay unique |
| Finder.FinderStore.ToggleFavorite | front/src/store/modules/finder.js:360-372 | a favourite path is removed as by `RemoveFavorite`; otherwise `{name, path, type}` of the item is appended; the path becomes a favourite exactly when it was not one, and every other favourite stays |
| Finder.FinderStore.AddRecentItem | front/src/store/modules/finder.js:123-140 | the recent list becomes the one recording the item defines, unique and at most 20 long |
| Finder.FinderStore.SetZoomLevel | front/src/store/modules/finder.js:154-156 | the zoom becomes the clamped level |
| Finder.FinderStore.SetCurrentPath | front/src/store/modules/finder.js:56-58 | the current path is stored as given |
| Finder.FinderStore.SetNavigationHistory | front/src/store/modules/finder.js:60-63 | the history and its index are stored as given |
| Finder.FinderStore.SetViewMode | front/src/store/modules/finder.js:78-80 | the view mode is stored as given |
| Finder.FinderStore.SetSortField | front/src/store/modules/finder.js:82-84 | the sort field is stored as given |
| Finder.FinderStore.SetSortOrder | front/src/store/modules/finder.js:86-88 | the sort order is stored as given |
| Finder.FinderStore.SetSearchQuery | front/src/store/modules/finder.js:90-92 | the query is stored as given |
| Finder.FinderStore.SetItems | front/src/store/modules/finder.js:94-96 | the items are stored as given |
| Finder.FinderStore.SetSelectedItems | front/src/store/modules/finder.js:98-100 | the selection is stored as given |
| FileManagerStore.PushedThenBack | Sanyue-ImgHub/src/store/modules/fileManager.js:37-44 | pushing a path keeps the entries up to the index and appends the path, which becomes current with nothing ahead; going back then returns to the entry that was current, and forward again restores the pushed history |
| FileManagerStore.NextOrder | Sanyue-ImgHub/src/store/modules/fileManager.js:84-90 | the new order is `asc` or `desc`; a new field starts at `asc`, and the same field turns to `desc` exactly when it was `asc` |
| FileManagerStore.NextOrderTwice | Sanyue-ImgHub/src/store/modules/fileManager.js:84-90 | choosing the same column twice comes back to the order it had |
| FileManagerStore.ParentPathShorter | Sanyue-ImgHub/src/store/modules/fileManager.js:77-82 | the parent of a non-empty path is shorter; the path is the parent, a slash and the last segment, or has no slash and an empty parent, so repeated `goUp` reaches the root |
| FileManagerStore.SoleSelected | Sanyue-ImgHub/src/store/modules/fileManager.js:92-99 | a single file is selected exactly when the selection holds one file, and then it is that file |
| FileManagerStore.FileManager.constructor | Sanyue-ImgHub/src/store/modules/fileManager.js:1-18 | the initial state: the root `''` as the only history entry, list view sorted by name ascending, nothing selected |
| FileManagerStore.FileManager.AddToHistory | Sanyue-ImgHub/src/store/modules/fileManager.js:37-44 | the history becomes the pushed one, with the index at its end |
| FileManagerStore.FileManager.NavigateTo | Sanyue-ImgHub/src/store/modules/fileManager.js:52-59 | navigating to the current path changes nothing; any other path becomes current, is pushed, and both selections clear |
| FileManagerStore.FileManager.GoBack | Sanyue-ImgHub/src/store/modules/fileManager.js:61-67 | the history steps back when it can, keeping the current path on the entry at the index |
| FileManagerStore.FileManager.GoForward | Sanyue-ImgHub/src/store/modules/fileManager.js:69-75 | the history steps forward when it can, keeping the current path on the entry at the index |
| FileManagerStore.FileManager.GoUp | Sanyue-ImgHub/src/store/modules/fileManager.js:77-82 | at the root nothing changes; otherwise the store navigates to the strictly shorter parent path, which is pushed |
| FileManagerStore.FileManager.UpdateSort | Sanyue-ImgHub/src/store/modules/fileManager.js:84-90 | the field becomes the chosen one with the next order, which stays `asc` or `desc` |
| FileManagerStore.FileManager.UpdateSelection | Sanyue-ImgHub/src/store/modules/fileManager.js:92-99 | the selection is stored, and the single selected file is set exactly when one file is selected |
| FileManagerStore.FileManager.SetCurrentPath | Sanyue-ImgHub/src/store/modules/fileManager.js:21-23 | the current path is stored as given |
| FileManagerStore.FileManager.SetSort | Sanyue-ImgHub/src/store/modules/fileManager.js:27-30 | the sort field and order are stored as given |
| FileManagerStore.FileManager.SetSelectedFile | Sanyue-ImgHub/src/store/modules/fileManager.js:31-33 | the single selected file is stored as given |
| FileManagerStore.FileManager.SetSelectedFiles | Sanyue-ImgHub/src/store/modules/fileManager.js:34-36 | the selection is stored as given |
| FileManagerStore.FileManager.SetHistoryIndex | Sanyue-ImgHub/src/store/modules/fileManager.js:45-47 | the history index is stored as given |
| FileManagerStore.FileManager.SetViewMode | Sanyue-ImgHub/src/store/modules/fileManager.js:24-26 | the view mode is stored as given |
| MockFileApi.ReplaceDoubleSlash | Sanyue-ImgHub/src/utils/mockFileAPI.js:237 | a text without a double slash is unchanged, and a text with one loses exactly one character |
| MockFileApi.ParentOfJoined | Sanyue-ImgHub/src/utils/mockFileAPI.js:237 | joining a clean folder path and a plain name gives a different, clean path whose parent is the folder and whose last segment is the name |
| MockFileApi.GetFiles | Sanyue-ImgHub/src/utils/mockFileAPI.js:154-163 | an unknown path, `/` by default, fails; a known one yields its record's children |
| MockFileApi.EntryPaths | Sanyue-ImgHub/src/utils/mockFileAPI.js:195-203 | one path per listed entry, in order |
| MockFileApi.GetFolderChildrenExact | Sanyue-ImgHub/src/utils/mockFileAPI.js:186-207 | a key is listed exactly when it is stored and its parent is the folder; listed paths are unique and carry their record's name |
| MockFileApi.CreatedSpec | Sanyue-ImgHub/src/utils/mockFileAPI.js:234-269 | creating an existing path changes nothing; otherwise the key is appended, an empty folder is stored under it, a parent with a children list keeps its other fields and gains exactly one entry, and every other record is unchanged |
| MockFileApi.CreatedIsListed | Sanyue-ImgHub/src/utils/mockFileAPI.js:234-269 | a folder created in a clean folder is listed among that folder's children and holds no children itself |
| MockFileApi.DeletedOneSpec | Sanyue-ImgHub/src/utils/mockFileAPI.js:275-285 | deleting one path removes its key and keeps every other key, changing only the parent's children, which become the parent's old children without the entries for that path |
| MockFileApi.DeletedOneKeys | Sanyue-ImgHub/src/utils/mockFileAPI.js:275-285 | deleting one path keeps the key order in step with the records, drops exactly that key, and changes no record but in its children |
| MockFileApi.DeletedSpec | Sanyue-ImgHub/src/utils/mockFileAPI.js:272-288 | after the deletion none of the paths is stored, every other key is still there, and nothing but children lists changed |
| MockFileApi.DeletedStep | Sanyue-ImgHub/src/utils/mockFileAPI.js:272-288 | one more deleted path removes that key too and keeps every other record but for its children |
| MockFileApi.CreateThenDelete | Sanyue-ImgHub/src/utils/mockFileAPI.js:234-288 | deleting a folder just created in a clean folder restores the file system exactly |
| MockFileApi.FindChild | Sanyue-ImgHub/src/utils/mockFileAPI.js:314 | the position found is the first child with the path, or -1 when none has it |
| MockFileApi.RenamedSpec | Sanyue-ImgHub/src/utils/mockFileAPI.js:291-326 | renaming an unknown path changes nothing; otherwise the old key is gone, a different new path holds the record with the new name, the parent (when it is neither path and has children) keeps its record but for its children, whose entry for the old path is renamed as `RenamedChildren` says, and every other key keeps its record, so keys under the old path are not moved |
| MockFileApi.RenamedChildren | Sanyue-ImgHub/src/utils/mockFileAPI.js:311-321 | the children keep their number and order; the first entry for the old path takes the new name, path and time, and every other entry is unchanged |
| MockFileApi.RenameToOwnNameDeletes | Sanyue-ImgHub/src/utils/mockFileAPI.js:299-309 | renaming an item to the name it already has deletes it, because its new path is its old one |
| MockFileApi.MockFileSystem.constructor | Sanyue-ImgHub/src/utils/mockFileAPI.js:2-146 | the mock starts from the given seed tree |
| MockFileApi.MockFileSystem.CreateFolder | Sanyue-ImgHub/src/utils/mockFileAPI.js:234-269 | the file system becomes the one creating the folder defines; the answer is an error exactly when the path already existed |
| MockFileApi.MockFileSystem.DeleteItems | Sanyue-ImgHub/src/utils/mockFileAPI.js:272-288 | the file system becomes the one deleting the paths defines, and the answer is always success |
| MockFileApi.MockFileSystem.RenameItem | Sanyue-ImgHub/src/utils/mockFileAPI.js:291-326 | the file system becomes the one renaming defines; the answer is an error exactly when the old path is unknown |
| MockFileApi.MockFileSystem.MoveRecord | Sanyue-ImgHub/src/utils/mockFileAPI.js:303-309 | the record is stored under the new path and the old key deleted |
| MockFileApi.MockFileSystem.RewriteParentEntry | Sanyue-ImgHub/src/utils/mockFileAPI.js:312-323 | the parent's entry for the old path takes the new name and path |

## Left out

- HTTP plumbing: building `Request`/`Response` objects, `request.json()`, JSON stringify and parse, and CORS headers. A handler's answer is a datatype standing for status and payload, and a blob of the wrong kind reads as missing rather than as a parse error.
- The catch-all `500` answers of the handlers: exceptions thrown by the platform are not modelled. The one exception the model keeps is a failing `decodeURIComponent`, a parameter that returns no value.
- The S3 SDK helpers, `purgeCFCache` and the file index (`readIndex`, `batchRemoveFilesFromIndex`, `batchMoveFilesInIndex`) are not part of this model. S3 is a bucket that fails for a given set of keys. The cache purge fails for a given set of ids. The index search is a parameter that may fail. The deferred index update is returned as a value instead of being scheduled with `waitUntil`.
- The clock, `Date.now`, `new Date(...).toISOString()` and the random id generators: timestamps and fresh ids are parameters, and ISO dates are compared as integer milliseconds.
- The period-to-date arithmetic and the time series of `stats/files.js` (`formatTimeKey`, `timeSeriesData`): the time window is given as two parameters.
- Floating-point formatting: the `toFixed` percentages of `stats/storage.js` and the `successRate` of the batch folder creation. Sizes are given `real` values, used only in comparisons and sums.
- The TTL log writes of folder creation (`log:folder_create:`…): they never change a response.
- KV list cursors and the single-page `kv.list()`: the listed keys are a parameter, each key once, in listing order.
- Key-value eventual consistency: the namespace is one consistent map, and the concurrent existence checks of the batch folder creation are read from the state before the request.
- Unicode: `toLowerCase`/`toUpperCase` map ASCII letters only. `<` and `>` on strings are modelled as code-point order (a Dafny `char` is a Unicode scalar value). This differs from JavaScript's UTF-16 code-unit order only between a character outside the Basic Multilingual Plane and one in U+E000..U+FFFF. String lengths checked against a limit count UTF-16 code units (`JsString.Utf16Length`).
- `localeCompare` follows locale collation, which is neither of those orders (`"a".localeCompare("B") < 0`). It appears only at functions/api/manage/stats/storage.js:189, sorting month keys of the form `YYYY-MM` built by `toISOString().substr(0, 7)`. On such keys (ASCII digits and `-`, all of one length) collation and code-point order agree, so `StorageStats.CalculatedTrends` sorts by code point. The month of a time stamp is a parameter of the model, so it does not check that shape.
- `parseInt` and `NaN`: `start` and `count` are natural numbers.
- FileSearch.SortFiles: under `sortBy=date` an index file without a `TimeStamp` gets the key 0 and sorts first when ascending. In the source, `new Date(undefined)` is an Invalid Date that is neither less nor greater than any date, so the comparator calls it equal to every file. The comparator is then inconsistent and the engine's order is not defined, so the model's order for such input is only one possible order. The KV scan keeps only keys with a `TimeStamp`, so this affects `FileSearch.IndexSearch` only.
- StorageStats.GetStorageUsage: the cache write of functions/api/manage/stats/storage.js:73 is started without `await` and does not hold up the answer. The model completes it before answering, just as it returns the deferred index update of the batch handler as a value.
- Finder's UI state (`loading`, `error`, `uploadProgress`, `sidebarVisible`, `sidebarWidth`) and its network actions (`loadItems`, `refreshCurrentPath`, `uploadFiles`, `createFolder`, `batchCreateFolders`, `realAPI`, `mockAPI`): these are display state and network calls. `addToRecent` only commits `ADD_RECENT_ITEM`, which `FinderStore.AddRecentItem` models.
- The mock file system's `delay`, `getRecentItems` (it draws random access times), `getFolderTree` and the `window.fetch` override. The seed tree is a constructor argument, and the fields `size`, `created`, `url` and `hasChildren` of child entries are not kept.
- Finder.FinderStore.Valid and FileManagerStore.FileManager.InSync: the stores' invariants are proved for the actions only. The raw setters (`SET_NAVIGATION_HISTORY`, `SET_HISTORY_INDEX`, `SET_SORT`) store any value, as the source does, and so promise nothing about the invariants.
