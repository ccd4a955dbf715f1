/** TrackerBlockingMVP/RulesGeneration/RuleCache.swift: the compiled rule-list JSON
    and a `{timestamp, etag}` metadata record, kept as two files in a cache
    directory, read back only while younger than `maxCacheDuration`. Times are
    whole seconds since 1970; `now` is the caller's clock reading. */
module RuleCache {
  import opened Wrappers
  import opened FileSystem

  const SecondsPerDay: int := 86400
  const DefaultMaxCacheDuration: int := SecondsPerDay * 7
  const CacheDirectoryName: string := "TrackerRulesCache"
  const RulesFileName: string := "trackerRules.json"
  const MetadataFileName: string := "trackerRules.metadata.json"

  /** `CachedRules = (rulesJSON: String, etag: String?)`. */
  datatype CachedRules = CachedRules(rulesJSON: string, etag: Option<string>)

  /** `RuleSnapshot`: the rules with the time they were stored. */
  datatype RuleSnapshot = RuleSnapshot(rulesJSON: string, etag: Option<string>, timestamp: int)

  function RulesPath(cacheDirectory: string): Path { Path(cacheDirectory, RulesFileName) }
  function MetadataPath(cacheDirectory: string): Path { Path(cacheDirectory, MetadataFileName) }

  /** The record `storeCachedRules` writes: a nil etag is written as "". */
  function MetadataRecord(etag: Option<string>, now: int): (content: FileContent)
    ensures ParseMetadata(content) == Some(Metadata(Some(now), Some(etag.GetOr(""))))
  {
    Json(Some(Metadata(Some(now), Some(etag.GetOr("")))))
  }

  /** The metadata read and the guard on it: the file must read, parse as an
      object and carry a numeric timestamp; every failure is nil. */
  function ReadMetadata(files: map<Path, FileContent>, failingReads: set<Path>, p: Path): (r: Option<(int, Option<string>)>)
    ensures r.Some? <==> p in files && p !in failingReads &&
                         ParseMetadata(files[p]).Some? && ParseMetadata(files[p]).value.timestamp.Some?
    ensures r.Some? ==> ParseMetadata(files[p]) == Some(Metadata(Some(r.value.0), r.value.1))
  {
    match ReadData(files, failingReads, p)
    case Err(_) => None
    case Ok(content) =>
      match ParseMetadata(content)
      case Some(Metadata(Some(timestamp), etag)) => Some((timestamp, etag))
      case _ => None
  }

  /** `getCachedRules()` over the given files. */
  function CachedRulesIn(files: map<Path, FileContent>, failingReads: set<Path>, cacheDirectory: string,
                         maxCacheDuration: int, now: int): (r: Option<CachedRules>)
    ensures var m := ReadMetadata(files, failingReads, MetadataPath(cacheDirectory));
            r.Some? ==> RulesPath(cacheDirectory) in files && m.Some? && now - m.value.0 < maxCacheDuration &&
                        ReadString(files, failingReads, RulesPath(cacheDirectory)) == Ok(r.value.rulesJSON) &&
                        r.value.etag == m.value.1
  {
    var rulesFile := RulesPath(cacheDirectory);
    var metadataFile := MetadataPath(cacheDirectory);
    if !FileExists(files, rulesFile) || !FileExists(files, metadataFile) then None
    else
      match ReadMetadata(files, failingReads, metadataFile)
      case None => None
      case Some((timestamp, etag)) =>
        if !(now - timestamp < maxCacheDuration) then None
        else
          match ReadString(files, failingReads, rulesFile)
          case Err(_) => None
          case Ok(rulesJSON) => Some(CachedRules(rulesJSON, etag))
  }

  /** `getMostRecentRules()` over the given files: built on getCachedRules, then the
      metadata is read a second time for its timestamp. */
  function MostRecentIn(files: map<Path, FileContent>, failingReads: set<Path>, cacheDirectory: string,
                        maxCacheDuration: int, now: int): (r: Option<RuleSnapshot>)
    ensures r.Some? ==>
              CachedRulesIn(files, failingReads, cacheDirectory, maxCacheDuration, now) ==
                Some(CachedRules(r.value.rulesJSON, r.value.etag)) &&
              now - r.value.timestamp < maxCacheDuration
  {
    match CachedRulesIn(files, failingReads, cacheDirectory, maxCacheDuration, now)
    case None => None
    case Some(CachedRules(rulesJSON, etag)) =>
      match ReadMetadata(files, failingReads, MetadataPath(cacheDirectory))
      case None => None
      case Some((timestamp, _)) => Some(RuleSnapshot(rulesJSON, etag, timestamp))
  }

  /** A hit needs both files, readable metadata with a timestamp, strict freshness
      and a readable rules text; it returns that text and the recorded etag. */
  lemma CachedRulesHit(files: map<Path, FileContent>, failingReads: set<Path>, cacheDirectory: string,
                       maxCacheDuration: int, now: int)
    ensures var r := CachedRulesIn(files, failingReads, cacheDirectory, maxCacheDuration, now);
            var m := ReadMetadata(files, failingReads, MetadataPath(cacheDirectory));
            r.Some? <==> RulesPath(cacheDirectory) in files && m.Some? && now - m.value.0 < maxCacheDuration &&
                         ReadString(files, failingReads, RulesPath(cacheDirectory)).Ok?
    ensures var r := CachedRulesIn(files, failingReads, cacheDirectory, maxCacheDuration, now);
            var m := ReadMetadata(files, failingReads, MetadataPath(cacheDirectory));
            r.Some? ==> r.value == CachedRules(ReadString(files, failingReads, RulesPath(cacheDirectory)).value, m.value.1)
  {
  }

  /** Expiry: with metadata stored at `timestamp`, the cache misses exactly when
      `now - timestamp >= maxCacheDuration` (all else being readable). */
  lemma ExpiryIsStrict(files: map<Path, FileContent>, failingReads: set<Path>, cacheDirectory: string,
                       maxCacheDuration: int, now: int, rulesJSON: string, timestamp: int, etag: Option<string>)
    requires RulesPath(cacheDirectory) in files && RulesPath(cacheDirectory) !in failingReads
    requires files[RulesPath(cacheDirectory)] == Text(rulesJSON)
    requires MetadataPath(cacheDirectory) in files && MetadataPath(cacheDirectory) !in failingReads
    requires ParseMetadata(files[MetadataPath(cacheDirectory)]) == Some(Metadata(Some(timestamp), etag))
    ensures CachedRulesIn(files, failingReads, cacheDirectory, maxCacheDuration, now).None? <==>
              now - timestamp >= maxCacheDuration
    ensures now - timestamp < maxCacheDuration ==>
              CachedRulesIn(files, failingReads, cacheDirectory, maxCacheDuration, now) == Some(CachedRules(rulesJSON, etag))
  {
    assert ReadMetadata(files, failingReads, MetadataPath(cacheDirectory)) == Some((timestamp, etag));
    assert ReadString(files, failingReads, RulesPath(cacheDirectory)) == Ok(rulesJSON);
  }

  /** getMostRecentRules is nil whenever getCachedRules is, so it is age-bounded
      too; otherwise it adds the stored timestamp to the same rules and etag. */
  lemma MostRecentFollowsCached(files: map<Path, FileContent>, failingReads: set<Path>, cacheDirectory: string,
                                maxCacheDuration: int, now: int)
    ensures var c := CachedRulesIn(files, failingReads, cacheDirectory, maxCacheDuration, now);
            var s := MostRecentIn(files, failingReads, cacheDirectory, maxCacheDuration, now);
            (s.None? <==> c.None?) &&
            (s.Some? ==> s.value.rulesJSON == c.value.rulesJSON && s.value.etag == c.value.etag &&
                         now - s.value.timestamp < maxCacheDuration &&
                         ReadMetadata(files, failingReads, MetadataPath(cacheDirectory)).value.0 == s.value.timestamp)
  {
  }

  /** A snapshot older than the limit is a miss on both read paths. */
  lemma ExpiredSnapshotIsGone(files: map<Path, FileContent>, failingReads: set<Path>, cacheDirectory: string,
                              maxCacheDuration: int, now: int, timestamp: int, etag: Option<string>)
    requires MetadataPath(cacheDirectory) in files
    requires ParseMetadata(files[MetadataPath(cacheDirectory)]) == Some(Metadata(Some(timestamp), etag))
    requires now - timestamp >= maxCacheDuration
    ensures CachedRulesIn(files, failingReads, cacheDirectory, maxCacheDuration, now).None?
    ensures MostRecentIn(files, failingReads, cacheDirectory, maxCacheDuration, now).None?
  {
  }

  class RuleCache {
    const fileOperations: FileOperations
    const cacheDirectory: string
    const maxCacheDuration: int

    /** `init`: the cache directory under the documents directory is created when
        missing; a failure to create it is ignored. */
    constructor (fileOperations: FileOperations, maxCacheDuration: int := DefaultMaxCacheDuration)
      modifies fileOperations
      ensures this.fileOperations == fileOperations && this.maxCacheDuration == maxCacheDuration
      ensures cacheDirectory == fileOperations.documentsDirectory + "/" + CacheDirectoryName
      ensures fileOperations.directories ==
                if fileOperations.directoryCreationFails then old(fileOperations.directories)
                else old(fileOperations.directories) + {cacheDirectory}
      ensures fileOperations.files == old(fileOperations.files)
    {
      this.fileOperations := fileOperations;
      var directory := fileOperations.documentsDirectory + "/" + CacheDirectoryName;
      this.cacheDirectory := directory;
      this.maxCacheDuration := maxCacheDuration;
      new;
      var _ := fileOperations.CreateDirectory(directory);
    }

    /** `getCachedRules()` at time `now`. */
    function GetCachedRules(now: int): (r: Option<CachedRules>)
      reads fileOperations
      ensures r.Some? ==> RulesPath(cacheDirectory) in fileOperations.files &&
                          fileOperations.files[RulesPath(cacheDirectory)] == Text(r.value.rulesJSON) &&
                          MetadataPath(cacheDirectory) in fileOperations.files
    {
      CachedRulesIn(fileOperations.files, fileOperations.failingReads, cacheDirectory, maxCacheDuration, now)
    }

    /** `getMostRecentRules()` at time `now`. */
    function GetMostRecentRules(now: int): (r: Option<RuleSnapshot>)
      reads fileOperations
      ensures r.Some? ==> GetCachedRules(now) == Some(CachedRules(r.value.rulesJSON, r.value.etag)) &&
                          now - r.value.timestamp < maxCacheDuration
    {
      MostRecentIn(fileOperations.files, fileOperations.failingReads, cacheDirectory, maxCacheDuration, now)
    }

    /** `storeCachedRules(rulesJSON:etag:)` at time `now`: the rules file first, then
        the metadata file; a throw stops the sequence. */
    method StoreCachedRules(rulesJSON: string, etag: Option<string>, now: int) returns (o: Outcome<FileError>)
      modifies fileOperations
      // a failing rules write leaves both files as they were
      ensures !old(fileOperations.Writable(RulesPath(cacheDirectory))) ==>
                o.Fail? && fileOperations.files == old(fileOperations.files)
      // a failing metadata write leaves the new rules beside the old metadata
      ensures old(fileOperations.Writable(RulesPath(cacheDirectory))) && !old(fileOperations.Writable(MetadataPath(cacheDirectory))) ==>
                o.Fail? && fileOperations.files == old(fileOperations.files)[RulesPath(cacheDirectory) := Text(rulesJSON)]
      ensures o.Pass? <==> old(fileOperations.Writable(RulesPath(cacheDirectory))) && old(fileOperations.Writable(MetadataPath(cacheDirectory)))
      ensures o.Pass? ==>
                fileOperations.files == old(fileOperations.files)[RulesPath(cacheDirectory) := Text(rulesJSON)]
                                                                 [MetadataPath(cacheDirectory) := MetadataRecord(etag, now)]
      // round trip: read back unchanged (a nil etag as "") until maxCacheDuration has passed
      ensures o.Pass? && RulesPath(cacheDirectory) !in fileOperations.failingReads &&
              MetadataPath(cacheDirectory) !in fileOperations.failingReads ==>
                forall t :: GetCachedRules(t) == if t - now < maxCacheDuration
                                                 then Some(CachedRules(rulesJSON, Some(etag.GetOr(""))))
                                                 else None
      ensures fileOperations.directories == old(fileOperations.directories)
    {
      var rulesFile := RulesPath(cacheDirectory);
      var metadataFile := MetadataPath(cacheDirectory);
      o := fileOperations.WriteString(rulesJSON, rulesFile);
      if o.Fail? {
        return;
      }
      o := fileOperations.WriteData(MetadataRecord(etag, now), metadataFile);
      if o.Pass? && rulesFile !in fileOperations.failingReads && metadataFile !in fileOperations.failingReads {
        forall t ensures GetCachedRules(t) == if t - now < maxCacheDuration
                                              then Some(CachedRules(rulesJSON, Some(etag.GetOr(""))))
                                              else None {
          ExpiryIsStrict(fileOperations.files, fileOperations.failingReads, cacheDirectory, maxCacheDuration,
                         t, rulesJSON, now, Some(etag.GetOr("")));
        }
      }
    }

    /** `clearCache()`: removes both files, ignoring every throw; once either file
        is gone the cache misses at every time. */
    method ClearCache()
      modifies fileOperations
      ensures fileOperations.files ==
                old(fileOperations.files) - ({RulesPath(cacheDirectory), MetadataPath(cacheDirectory)} - fileOperations.failingWrites)
      ensures RulesPath(cacheDirectory) !in fileOperations.failingWrites ||
              MetadataPath(cacheDirectory) !in fileOperations.failingWrites ==>
                forall t :: GetCachedRules(t).None?
      ensures fileOperations.directories == old(fileOperations.directories)
    {
      var _ := fileOperations.RemoveItem(RulesPath(cacheDirectory));
      var _ := fileOperations.RemoveItem(MetadataPath(cacheDirectory));
    }
  }
}
