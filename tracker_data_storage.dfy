/** TrackerBlockingMVP/Storage/TrackerDataStorage.swift: the last raw tracker
    dataset, kept as one file in the documents directory. */
module TrackerDataStorage {
  import opened Wrappers

  /** `TrackerDataStorageError`; the wrapped Foundation errors are not modelled. */
  datatype StorageError = SaveFailed | LoadFailed | DocumentsDirectoryNotFound

  const StorageFilename: string := "tracker_data.json"

  /** `try? storage.load()`: a throw and a nil both become nil. */
  function TryLoad(load: Result<Option<Bytes>, StorageError>): (stored: Option<Bytes>)
    ensures stored.Some? <==> load.Ok? && load.value.Some?
    ensures stored.Some? ==> load == Ok(stored)
  {
    match load
    case Ok(d) => d
    case Err(_) => None
  }

  class TrackerDataStorage {
    /** The documents directory FileManager reports, if any. */
    const documentsDirectory: Option<string>
    /** Whether writing or reading the dataset file throws. */
    const writeFails: bool
    const readFails: bool
    /** The content of the dataset file; None when it does not exist. */
    var file: Option<Bytes>

    constructor (documentsDirectory: Option<string>, writeFails: bool, readFails: bool, file: Option<Bytes>)
      ensures this.documentsDirectory == documentsDirectory && this.file == file
      ensures this.writeFails == writeFails && this.readFails == readFails
    {
      this.documentsDirectory := documentsDirectory;
      this.writeFails := writeFails;
      this.readFails := readFails;
      this.file := file;
    }

    /** `getStorageURL(for:)`: the dataset file inside the documents directory. */
    function StorageURL(): (url: Option<string>)
      ensures url.Some? <==> documentsDirectory.Some?
      ensures url.Some? ==> url.value == documentsDirectory.value + "/" + StorageFilename
    {
      match documentsDirectory
      case Some(dir) => Some(dir + "/" + StorageFilename)
      case None => None
    }

    /** `save(_:)` succeeds. */
    predicate CanSave()
    {
      documentsDirectory.Some? && !writeFails
    }

    /** `save(_:)`: an atomic write that replaces the whole file, or a throw that
        leaves the file as it was. */
    method Save(data: Bytes) returns (o: Outcome<StorageError>)
      modifies this
      ensures documentsDirectory.None? ==> o == Fail(DocumentsDirectoryNotFound) && file == old(file)
      ensures documentsDirectory.Some? && writeFails ==> o == Fail(SaveFailed) && file == old(file)
      ensures o.Pass? <==> CanSave()
      ensures o.Pass? ==> file == Some(data)
      // save then load gives back the saved bytes
      ensures o.Pass? && !readFails ==> Load() == Ok(Some(data))
    {
      var url := StorageURL();
      if url.None? {
        return Fail(DocumentsDirectoryNotFound);
      }
      if writeFails {
        return Fail(SaveFailed);
      }
      file := Some(data);
      o := Pass;
    }

    /** `load()`: nil without a throw when there is no directory or no file;
        `loadFailed` when reading throws. */
    function Load(): (r: Result<Option<Bytes>, StorageError>)
      reads this
      ensures documentsDirectory.None? || file.None? ==> r == Ok(None)
      ensures r.Err? <==> documentsDirectory.Some? && file.Some? && readFails
      ensures r.Err? ==> r.error == LoadFailed
      ensures r.Ok? && r.value.Some? ==> file == r.value
      ensures documentsDirectory.Some? && file.Some? && !readFails ==> r == Ok(file)
    {
      if StorageURL().None? then Ok(None)
      else if file.None? then Ok(None)
      else if readFails then Err(LoadFailed)
      else Ok(file)
    }
  }
}
