/**
 * The client data-model classes of the file manager: tags, file-tag links,
 * favourite groups and entries, file versions, access logs, per-file
 * statistics and the extended file metadata.
 *
 * Each class is a value here. Its constructor argument and its JSON form
 * are one record of optional fields (`...Data`); the constructor fills
 * every falsy field (`x || default`) with its default, `toJSON` copies the
 * fields back out, and `fromJSON` is the constructor again. The clock
 * (`new Date().toISOString()`) is the parameter `now`, and the random part
 * of a generated id is the parameter `stamp`.
 */
module Models {
  import opened Wrappers

  /** `n || d` for a number: a missing value and 0 are falsy. */
  function OrNumber(n: Option<int>, d: int): (r: int)
    ensures r == d || (n.Some? && r == n.value && r != 0)
    ensures (n.Some? && n.value != 0) ==> r == n.value
  {
    if n.Some? && n.value != 0 then n.value else d
  }

  /** `b || false`. */
  function OrFalse(b: Option<bool>): (r: bool)
    ensures r <==> b == Some(true)
  {
    b.Some? && b.value
  }

  /** `s || null` for a string: a missing value and "" both become null. */
  function OrNull(s: Option<string>): (r: Option<string>)
    ensures r == None || (r == s && r.value != "")
    ensures Truthy(s) ==> r == s
  {
    if Truthy(s) then s else None
  }

  /** `prefix + Date.now() + '_' + random`: the time and random part is `stamp`. */
  function GenerateId(prefix: string, stamp: string): (r: string)
    ensures |r| >= |prefix| && r[..|prefix|] == prefix
  {
    prefix + stamp
  }

  // ---------------------------------------------------------------------
  // Tag

  const DefaultTagColor := "#409EFF"

  datatype TagData = TagData(
    id: Option<string>, name: Option<string>, color: Option<string>, description: Option<string>,
    createdAt: Option<string>, updatedAt: Option<string>, fileCount: Option<int>)

  datatype Tag = Tag(
    id: string, name: string, color: string, description: string,
    createdAt: string, updatedAt: string, fileCount: int)

  const NoTagData := TagData(None, None, None, None, None, None, None)

  /** The fields the constructor always makes truthy. */
  predicate TagBuilt(t: Tag) {
    t.id != "" && t.color != "" && t.createdAt != "" && t.updatedAt != ""
  }

  function NewTag(data: TagData, stamp: string, now: string): (r: Tag)
    ensures now != "" ==> TagBuilt(r)
    ensures Truthy(data.name) ==> r.name == data.name.value
  {
    Tag(OrText(data.id, GenerateId("tag_", stamp)), OrText(data.name, ""),
        OrText(data.color, DefaultTagColor), OrText(data.description, ""),
        OrText(data.createdAt, now), OrText(data.updatedAt, now), OrNumber(data.fileCount, 0))
  }

  function TagToJson(t: Tag): TagData {
    TagData(Some(t.id), Some(t.name), Some(t.color), Some(t.description),
            Some(t.createdAt), Some(t.updatedAt), Some(t.fileCount))
  }

  function TagFromJson(data: TagData, stamp: string, now: string): Tag {
    NewTag(data, stamp, now)
  }

  lemma TagDefaults(stamp: string, now: string)
    ensures var t := NewTag(NoTagData, stamp, now);
            t == Tag("tag_" + stamp, "", DefaultTagColor, "", now, now, 0)
  {
  }

  /** Reading back the JSON of a built tag gives the same tag, whatever the clock and id source. */
  lemma TagRoundTrip(t: Tag, stamp: string, now: string)
    requires TagBuilt(t)
    ensures TagFromJson(TagToJson(t), stamp, now) == t
  {
  }

  // ---------------------------------------------------------------------
  // FileTag

  datatype FileTagData = FileTagData(
    fileId: Option<string>, tagId: Option<string>, addedAt: Option<string>, addedBy: Option<string>)

  datatype FileTag = FileTag(fileId: string, tagId: string, addedAt: string, addedBy: string)

  predicate FileTagBuilt(f: FileTag) {
    f.addedAt != "" && f.addedBy != ""
  }

  function NewFileTag(data: FileTagData, now: string): (r: FileTag)
    ensures now != "" ==> FileTagBuilt(r)
  {
    FileTag(OrText(data.fileId, ""), OrText(data.tagId, ""), OrText(data.addedAt, now),
            OrText(data.addedBy, "system"))
  }

  function FileTagToJson(f: FileTag): FileTagData {
    FileTagData(Some(f.fileId), Some(f.tagId), Some(f.addedAt), Some(f.addedBy))
  }

  function FileTagFromJson(data: FileTagData, now: string): FileTag {
    NewFileTag(data, now)
  }

  lemma FileTagDefaults(now: string)
    ensures NewFileTag(FileTagData(None, None, None, None), now) == FileTag("", "", now, "system")
  {
  }

  lemma FileTagRoundTrip(f: FileTag, now: string)
    requires FileTagBuilt(f)
    ensures FileTagFromJson(FileTagToJson(f), now) == f
  {
  }

  // ---------------------------------------------------------------------
  // FavoriteGroup

  const DefaultGroupColor := "#67C23A"
  const DefaultGroupIcon := "star"

  datatype FavoriteGroupData = FavoriteGroupData(
    id: Option<string>, name: Option<string>, description: Option<string>, color: Option<string>,
    icon: Option<string>, createdAt: Option<string>, updatedAt: Option<string>,
    fileCount: Option<int>, isDefault: Option<bool>)

  datatype FavoriteGroup = FavoriteGroup(
    id: string, name: string, description: string, color: string, icon: string,
    createdAt: string, updatedAt: string, fileCount: int, isDefault: bool)

  predicate GroupBuilt(g: FavoriteGroup) {
    g.id != "" && g.color != "" && g.icon != "" && g.createdAt != "" && g.updatedAt != ""
  }

  function NewFavoriteGroup(data: FavoriteGroupData, stamp: string, now: string): (r: FavoriteGroup)
    ensures now != "" ==> GroupBuilt(r)
    ensures r.isDefault <==> data.isDefault == Some(true)
  {
    FavoriteGroup(OrText(data.id, GenerateId("group_", stamp)), OrText(data.name, ""),
                  OrText(data.description, ""), OrText(data.color, DefaultGroupColor),
                  OrText(data.icon, DefaultGroupIcon), OrText(data.createdAt, now),
                  OrText(data.updatedAt, now), OrNumber(data.fileCount, 0), OrFalse(data.isDefault))
  }

  function FavoriteGroupToJson(g: FavoriteGroup): FavoriteGroupData {
    FavoriteGroupData(Some(g.id), Some(g.name), Some(g.description), Some(g.color), Some(g.icon),
                      Some(g.createdAt), Some(g.updatedAt), Some(g.fileCount), Some(g.isDefault))
  }

  function FavoriteGroupFromJson(data: FavoriteGroupData, stamp: string, now: string): FavoriteGroup {
    NewFavoriteGroup(data, stamp, now)
  }

  lemma FavoriteGroupDefaults(stamp: string, now: string)
    ensures var g := NewFavoriteGroup(FavoriteGroupData(None, None, None, None, None, None, None, None, None), stamp, now);
            g == FavoriteGroup("group_" + stamp, "", "", DefaultGroupColor, DefaultGroupIcon, now, now, 0, false)
  {
  }

  lemma FavoriteGroupRoundTrip(g: FavoriteGroup, stamp: string, now: string)
    requires GroupBuilt(g)
    ensures FavoriteGroupFromJson(FavoriteGroupToJson(g), stamp, now) == g
  {
  }

  // ---------------------------------------------------------------------
  // FavoriteFile

  datatype FavoriteFileData = FavoriteFileData(
    id: Option<string>, fileId: Option<string>, groupId: Option<string>, addedAt: Option<string>,
    addedBy: Option<string>, note: Option<string>)

  datatype FavoriteFile = FavoriteFile(
    id: string, fileId: string, groupId: string, addedAt: string, addedBy: string, note: string)

  predicate FavoriteBuilt(f: FavoriteFile) {
    f.id != "" && f.groupId != "" && f.addedAt != "" && f.addedBy != ""
  }

  function NewFavoriteFile(data: FavoriteFileData, stamp: string, now: string): (r: FavoriteFile)
    ensures now != "" ==> FavoriteBuilt(r)
    ensures !Truthy(data.groupId) ==> r.groupId == "default"
  {
    FavoriteFile(OrText(data.id, GenerateId("fav_", stamp)), OrText(data.fileId, ""),
                 OrText(data.groupId, "default"), OrText(data.addedAt, now),
                 OrText(data.addedBy, "system"), OrText(data.note, ""))
  }

  function FavoriteFileToJson(f: FavoriteFile): FavoriteFileData {
    FavoriteFileData(Some(f.id), Some(f.fileId), Some(f.groupId), Some(f.addedAt), Some(f.addedBy), Some(f.note))
  }

  function FavoriteFileFromJson(data: FavoriteFileData, stamp: string, now: string): FavoriteFile {
    NewFavoriteFile(data, stamp, now)
  }

  lemma FavoriteFileRoundTrip(f: FavoriteFile, stamp: string, now: string)
    requires FavoriteBuilt(f)
    ensures FavoriteFileFromJson(FavoriteFileToJson(f), stamp, now) == f
  {
  }

  // ---------------------------------------------------------------------
  // FileVersion

  datatype FileVersionData = FileVersionData(
    id: Option<string>, fileId: Option<string>, versionNumber: Option<int>, fileName: Option<string>,
    fileSize: Option<int>, fileType: Option<string>, checksum: Option<string>,
    storageKey: Option<string>, createdAt: Option<string>, createdBy: Option<string>,
    changeNote: Option<string>, isActive: Option<bool>)

  datatype FileVersion = FileVersion(
    id: string, fileId: string, versionNumber: int, fileName: string, fileSize: int,
    fileType: string, checksum: string, storageKey: string, createdAt: string,
    createdBy: string, changeNote: string, isActive: bool)

  predicate VersionBuilt(v: FileVersion) {
    v.id != "" && v.versionNumber != 0 && v.createdAt != "" && v.createdBy != ""
  }

  function NewFileVersion(data: FileVersionData, stamp: string, now: string): (r: FileVersion)
    ensures now != "" ==> VersionBuilt(r)
    ensures r.versionNumber != 0
    ensures r.isActive <==> data.isActive == Some(true)
  {
    FileVersion(OrText(data.id, GenerateId("ver_", stamp)), OrText(data.fileId, ""),
                OrNumber(data.versionNumber, 1), OrText(data.fileName, ""),
                OrNumber(data.fileSize, 0), OrText(data.fileType, ""), OrText(data.checksum, ""),
                OrText(data.storageKey, ""), OrText(data.createdAt, now),
                OrText(data.createdBy, "system"), OrText(data.changeNote, ""), OrFalse(data.isActive))
  }

  function FileVersionToJson(v: FileVersion): FileVersionData {
    FileVersionData(Some(v.id), Some(v.fileId), Some(v.versionNumber), Some(v.fileName),
                    Some(v.fileSize), Some(v.fileType), Some(v.checksum), Some(v.storageKey),
                    Some(v.createdAt), Some(v.createdBy), Some(v.changeNote), Some(v.isActive))
  }

  function FileVersionFromJson(data: FileVersionData, stamp: string, now: string): FileVersion {
    NewFileVersion(data, stamp, now)
  }

  /** A version number of 0 is falsy and becomes 1, like an absent one. */
  lemma ZeroVersionBecomesOne(data: FileVersionData, stamp: string, now: string)
    requires data.versionNumber == Some(0) || data.versionNumber == None
    ensures NewFileVersion(data, stamp, now).versionNumber == 1
  {
  }

  lemma FileVersionRoundTrip(v: FileVersion, stamp: string, now: string)
    requires VersionBuilt(v)
    ensures FileVersionFromJson(FileVersionToJson(v), stamp, now) == v
  {
  }

  // ---------------------------------------------------------------------
  // FileAccessLog

  datatype FileAccessLogData = FileAccessLogData(
    id: Option<string>, fileId: Option<string>, accessType: Option<string>, accessTime: Option<string>,
    userAgent: Option<string>, ipAddress: Option<string>, referer: Option<string>)

  datatype FileAccessLog = FileAccessLog(
    id: string, fileId: string, accessType: string, accessTime: string,
    userAgent: string, ipAddress: string, referer: string)

  predicate LogBuilt(l: FileAccessLog) {
    l.id != "" && l.accessType != "" && l.accessTime != ""
  }

  function NewFileAccessLog(data: FileAccessLogData, stamp: string, now: string): (r: FileAccessLog)
    ensures now != "" ==> LogBuilt(r)
    ensures !Truthy(data.accessType) ==> r.accessType == "view"
  {
    FileAccessLog(OrText(data.id, GenerateId("log_", stamp)), OrText(data.fileId, ""),
                  OrText(data.accessType, "view"), OrText(data.accessTime, now),
                  OrText(data.userAgent, ""), OrText(data.ipAddress, ""), OrText(data.referer, ""))
  }

  function FileAccessLogToJson(l: FileAccessLog): FileAccessLogData {
    FileAccessLogData(Some(l.id), Some(l.fileId), Some(l.accessType), Some(l.accessTime),
                      Some(l.userAgent), Some(l.ipAddress), Some(l.referer))
  }

  function FileAccessLogFromJson(data: FileAccessLogData, stamp: string, now: string): FileAccessLog {
    NewFileAccessLog(data, stamp, now)
  }

  lemma FileAccessLogRoundTrip(l: FileAccessLog, stamp: string, now: string)
    requires LogBuilt(l)
    ensures FileAccessLogFromJson(FileAccessLogToJson(l), stamp, now) == l
  {
  }

  // ---------------------------------------------------------------------
  // FileStats

  datatype FileStatsData = FileStatsData(
    fileId: Option<string>, viewCount: Option<int>, downloadCount: Option<int>, shareCount: Option<int>,
    lastAccessed: Option<string>, createdAt: Option<string>, updatedAt: Option<string>)

  /** `lastAccessed` is `None` for `null`. */
  datatype FileStats = FileStats(
    fileId: string, viewCount: int, downloadCount: int, shareCount: int,
    lastAccessed: Option<string>, createdAt: string, updatedAt: string)

  predicate StatsBuilt(s: FileStats) {
    s.lastAccessed != Some("") && s.createdAt != "" && s.updatedAt != ""
  }

  function NewFileStats(data: FileStatsData, now: string): (r: FileStats)
    ensures now != "" ==> StatsBuilt(r)
  {
    FileStats(OrText(data.fileId, ""), OrNumber(data.viewCount, 0), OrNumber(data.downloadCount, 0),
              OrNumber(data.shareCount, 0), OrNull(data.lastAccessed), OrText(data.createdAt, now),
              OrText(data.updatedAt, now))
  }

  function FileStatsToJson(s: FileStats): FileStatsData {
    FileStatsData(Some(s.fileId), Some(s.viewCount), Some(s.downloadCount), Some(s.shareCount),
                  s.lastAccessed, Some(s.createdAt), Some(s.updatedAt))
  }

  function FileStatsFromJson(data: FileStatsData, now: string): FileStats {
    NewFileStats(data, now)
  }

  lemma FileStatsDefaults(now: string)
    ensures NewFileStats(FileStatsData(None, None, None, None, None, None, None), now)
            == FileStats("", 0, 0, 0, None, now, now)
  {
  }

  lemma FileStatsRoundTrip(s: FileStats, now: string)
    requires StatsBuilt(s)
    ensures FileStatsFromJson(FileStatsToJson(s), now) == s
  {
  }

  // ---------------------------------------------------------------------
  // ExtendedFileMetadata

  /**
   * The `stats` field: whatever object the constructor was given, or a
   * `FileStats` instance (built by default or by `fromJSON`).
   */
  datatype StatsField = Given(data: FileStatsData) | Instance(stats: FileStats)

  datatype ExtendedData = ExtendedData(
    fileName: Option<string>, fileType: Option<string>, fileSize: Option<string>,
    uploadIp: Option<string>, uploadAddress: Option<string>, listType: Option<string>,
    timeStamp: Option<string>, fileLabel: Option<string>, directory: Option<string>,
    tags: Option<seq<string>>, isFavorite: Option<bool>, favoriteGroups: Option<seq<string>>,
    versionCount: Option<int>, currentVersion: Option<int>, stats: Option<FileStatsData>,
    customProperties: Option<map<string, string>>)

  datatype ExtendedFileMetadata = ExtendedFileMetadata(
    fileName: string, fileType: string, fileSize: string, uploadIp: string,
    uploadAddress: string, listType: string, timeStamp: string, fileLabel: string,
    directory: string, tags: seq<string>, isFavorite: bool, favoriteGroups: seq<string>,
    versionCount: int, currentVersion: int, stats: StatsField,
    customProperties: map<string, string>)

  predicate ExtendedBuilt(m: ExtendedFileMetadata) {
    && m.listType != "" && m.fileLabel != "" && m.versionCount != 0 && m.currentVersion != 0
    && m.stats.Instance? && StatsBuilt(m.stats.stats)
  }

  /**
   * The constructor: the stored metadata fields default to '' (`ListType`
   * and `Label` to 'None'), the lists and the property map to empty, the
   * counters to 1, and the statistics to fresh ones for `FileName`. Arrays
   * and objects are truthy, so a given one is kept as it is.
   */
  function NewExtended(data: ExtendedData, now: string): (r: ExtendedFileMetadata)
    ensures data.stats.None? ==> r.stats == Instance(NewFileStats(StatsFor(r.fileName), now))
    ensures data.stats.Some? ==> r.stats == Given(data.stats.value)
    ensures data.tags.Some? ==> r.tags == data.tags.value
  {
    var fileName := OrText(data.fileName, "");
    ExtendedFileMetadata(
      fileName, OrText(data.fileType, ""), OrText(data.fileSize, ""), OrText(data.uploadIp, ""),
      OrText(data.uploadAddress, ""), OrText(data.listType, "None"), OrText(data.timeStamp, ""),
      OrText(data.fileLabel, "None"), OrText(data.directory, ""), data.tags.GetOr([]),
      OrFalse(data.isFavorite), data.favoriteGroups.GetOr([]), OrNumber(data.versionCount, 1),
      OrNumber(data.currentVersion, 1),
      if data.stats.Some? then Given(data.stats.value) else Instance(NewFileStats(StatsFor(fileName), now)),
      data.customProperties.GetOr(map[]))
  }

  /** `{ fileId: FileName }`. */
  function StatsFor(fileName: string): FileStatsData {
    FileStatsData(Some(fileName), None, None, None, None, None, None)
  }

  /** `toJSON`: statistics go through `FileStats.toJSON` when they are an instance. */
  function ExtendedToJson(m: ExtendedFileMetadata): (r: ExtendedData)
    ensures m.stats.Instance? ==> r.stats == Some(FileStatsToJson(m.stats.stats))
  {
    ExtendedData(
      Some(m.fileName), Some(m.fileType), Some(m.fileSize), Some(m.uploadIp), Some(m.uploadAddress),
      Some(m.listType), Some(m.timeStamp), Some(m.fileLabel), Some(m.directory), Some(m.tags),
      Some(m.isFavorite), Some(m.favoriteGroups), Some(m.versionCount), Some(m.currentVersion),
      Some(match m.stats case Given(d) => d case Instance(s) => FileStatsToJson(s)),
      Some(m.customProperties))
  }

  /** `fromJSON`: the constructor, then given statistics are rebuilt as a `FileStats`. */
  function ExtendedFromJson(data: ExtendedData, now: string): (r: ExtendedFileMetadata)
    ensures r.stats.Instance?
    ensures now != "" ==> ExtendedBuilt(r)
    ensures data.stats.Some? ==> r.stats == Instance(FileStatsFromJson(data.stats.value, now))
  {
    var m := NewExtended(data, now);
    if data.stats.Some? then m.(stats := Instance(FileStatsFromJson(data.stats.value, now))) else m
  }

  lemma ExtendedDefaults(now: string)
    ensures var m := NewExtended(ExtendedData(None, None, None, None, None, None, None, None, None,
                                              None, None, None, None, None, None, None), now);
            && m.tags == [] && !m.isFavorite && m.favoriteGroups == []
            && m.versionCount == 1 && m.currentVersion == 1
            && m.stats == Instance(FileStats("", 0, 0, 0, None, now, now))
            && m.customProperties == map[] && m.listType == "None" && m.fileLabel == "None"
  {
  }

  /** Metadata whose statistics are a built instance survives a JSON round trip. */
  lemma ExtendedRoundTrip(m: ExtendedFileMetadata, now: string)
    requires ExtendedBuilt(m)
    ensures ExtendedFromJson(ExtendedToJson(m), now) == m
  {
    FileStatsRoundTrip(m.stats.stats, now);
  }

  /** Anything read by `fromJSON` survives being written and read again. */
  lemma ExtendedReadStable(data: ExtendedData, now: string)
    requires now != ""
    ensures var m := ExtendedFromJson(data, now);
            ExtendedFromJson(ExtendedToJson(m), now) == m
  {
    ExtendedRoundTrip(ExtendedFromJson(data, now), now);
  }

  /**
   * Statistics given to the constructor are kept as the raw object, so the
   * round trip rebuilds them with defaults: a given object without
   * `createdAt` comes back with the clock's time.
   */
  lemma GivenStatsRebuilt(m: ExtendedFileMetadata, now: string)
    requires m.stats.Given? && m.stats.data.createdAt.None?
    ensures ExtendedFromJson(ExtendedToJson(m), now).stats.stats.createdAt == now
  {
  }
}
