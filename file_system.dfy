/** The `FileOperations` interface of
    TrackerBlockingMVP/Common/FileOperation/FileOperations.swift, as a map from paths
    to contents with the failures a real file system can raise. The JSON metadata
    the rule cache writes is kept as the dictionary `JSONSerialization` would read
    back from it. */
module FileSystem {
  import opened Wrappers

  /** A file: its directory and its name (`appendingPathComponent`). */
  datatype Path = Path(directory: string, name: string)

  /** The metadata dictionary as `JSONSerialization` reads it back:
      `timestamp` when it is a number, `etag` when it is a string. */
  datatype Metadata = Metadata(timestamp: Option<int>, etag: Option<string>)

  /** `Text`: written by `writeString`. `Json(Some(m))`: data that parses as a JSON
      object; `Json(None)`: data that does not. */
  datatype FileContent = Text(text: string) | Json(parsed: Option<Metadata>)

  datatype FileError = NoSuchFile | WriteFailed | ReadFailed | NotText | CreateFailed

  /** `readData` followed by `JSONSerialization.jsonObject(with:) as? [String: Any]`:
      text written by `writeString` is not taken for a metadata object. */
  function ParseMetadata(content: FileContent): (m: Option<Metadata>)
    ensures m.Some? <==> content.Json? && content.parsed.Some?
  {
    match content
    case Json(parsed) => parsed
    case Text(_) => None
  }

  class FileOperations {
    const documentsDirectory: string
    /** Writes, removals and creations that throw. */
    const failingWrites: set<Path>
    const directoryCreationFails: bool
    /** Reads that throw although the file exists. */
    const failingReads: set<Path>

    var directories: set<string>
    var files: map<Path, FileContent>

    constructor (documentsDirectory: string, failingWrites: set<Path>, directoryCreationFails: bool,
                 failingReads: set<Path>, directories: set<string>, files: map<Path, FileContent>)
      ensures this.documentsDirectory == documentsDirectory && this.failingWrites == failingWrites
      ensures this.directoryCreationFails == directoryCreationFails && this.failingReads == failingReads
      ensures this.directories == directories && this.files == files
    {
      this.documentsDirectory := documentsDirectory;
      this.failingWrites := failingWrites;
      this.directoryCreationFails := directoryCreationFails;
      this.failingReads := failingReads;
      this.directories := directories;
      this.files := files;
    }

    /** A write to `p` succeeds: its directory exists and the write does not fail. */
    predicate Writable(p: Path)
      reads this
    {
      p.directory in directories && p !in failingWrites
    }

    /** `createDirectory(at:withIntermediateDirectories: true)`. */
    method CreateDirectory(path: string) returns (o: Outcome<FileError>)
      modifies this
      ensures o.Pass? <==> !directoryCreationFails
      ensures directories == if o.Pass? then old(directories) + {path} else old(directories)
      ensures files == old(files)
    {
      if directoryCreationFails {
        return Fail(CreateFailed);
      }
      directories := directories + {path};
      o := Pass;
    }

    /** `writeString(_:to:atomically: true, encoding:)`: all or nothing. */
    method WriteString(s: string, p: Path) returns (o: Outcome<FileError>)
      modifies this
      ensures o.Pass? <==> old(Writable(p))
      ensures files == if o.Pass? then old(files)[p := Text(s)] else old(files)
      ensures directories == old(directories)
    {
      if !Writable(p) {
        return Fail(WriteFailed);
      }
      files := files[p := Text(s)];
      o := Pass;
    }

    /** `writeData(_:to:)` of serialized metadata. */
    method WriteData(content: FileContent, p: Path) returns (o: Outcome<FileError>)
      modifies this
      ensures o.Pass? <==> old(Writable(p))
      ensures files == if o.Pass? then old(files)[p := content] else old(files)
      ensures directories == old(directories)
    {
      if !Writable(p) {
        return Fail(WriteFailed);
      }
      files := files[p := content];
      o := Pass;
    }

    /** `removeItem(at:)`: throws for a missing file or a failing removal. */
    method RemoveItem(p: Path) returns (o: Outcome<FileError>)
      modifies this
      ensures o.Pass? <==> p in old(files) && p !in failingWrites
      ensures files == if o.Pass? then old(files) - {p} else old(files)
      ensures directories == old(directories)
    {
      if p !in files || p in failingWrites {
        return Fail(if p !in files then NoSuchFile else WriteFailed);
      }
      files := files - {p};
      o := Pass;
    }
  }

  /** `fileExists(atPath:)`. */
  predicate FileExists(files: map<Path, FileContent>, p: Path) {
    p in files
  }

  /** `readData(from:)`. */
  function ReadData(files: map<Path, FileContent>, failingReads: set<Path>, p: Path): (r: Result<FileContent, FileError>)
    ensures r.Ok? <==> p in files && p !in failingReads
    ensures r.Ok? ==> r.value == files[p]
  {
    if p !in files then Err(NoSuchFile)
    else if p in failingReads then Err(ReadFailed)
    else Ok(files[p])
  }

  /** `readString(from:)`. */
  function ReadString(files: map<Path, FileContent>, failingReads: set<Path>, p: Path): (r: Result<string, FileError>)
    ensures r.Ok? <==> p in files && p !in failingReads && files[p].Text?
    ensures r.Ok? ==> files[p] == Text(r.value)
  {
    match ReadData(files, failingReads, p)
    case Ok(Text(s)) => Ok(s)
    case Ok(Json(_)) => Err(NotText)
    case Err(e) => Err(e)
  }
}
