/** TrackerBlockingMVP/Networking/TrackerData/TrackerDataFetcher.swift: one
    conditional GET of the tracker dataset, with the raw-dataset store as the source
    of the bytes when the server answers "not modified". */
module TrackerDataFetcher {
  import opened Wrappers
  import opened HttpClient
  import opened UserDefaultsStore
  import opened EtagStorage
  import opened ETagDecorator
  import opened TrackerDataStorage

  /** The dataset and the raw Etag header of the response that produced it. */
  datatype TrackerDataModel = TrackerDataModel(etagIdentifier: Option<string>, data: Bytes)

  /** `response.allHeaderFields["Etag"] as? String`: the header as sent, not cleaned. */
  function ResponseETag(response: HTTPResponse): (etag: Option<string>)
    ensures etag.Some? <==> ETagHeader in response.headers
    ensures etag.Some? ==> etag.value == response.headers[ETagHeader]
  {
    if ETagHeader in response.headers then Some(response.headers[ETagHeader]) else None
  }

  /** The result `attemptFetch` delivers for a client result, given what a load of
      the store would return and whether a save would succeed. */
  function Resolve(result: HTTPClientResult, stored: Option<Bytes>, saves: bool): (r: Result<TrackerDataModel, HTTPClientError>)
    // a dataset comes only from a success, tagged with that response's Etag
    ensures r.Ok? ==> result.Success? && r.value.etagIdentifier == ResponseETag(result.response)
    // its bytes are the new body, or the stored bytes when there is none
    ensures r.Ok? && result.data.Some? ==> r.value.data == result.data.value && saves
    ensures r.Ok? && result.data.None? ==> stored == Some(r.value.data)
  {
    match result
    case Failure(error) => Err(error)
    case Success(Some(newData), response) =>
      if saves then Ok(TrackerDataModel(ResponseETag(response), newData)) else Err(StorageError)
    case Success(None, response) =>
      if stored.Some? then Ok(TrackerDataModel(ResponseETag(response), stored.value)) else Err(InvalidResponse)
  }

  /** A client failure comes out verbatim. */
  lemma ResolveFailure(e: HTTPClientError, stored: Option<Bytes>, saves: bool)
    ensures Resolve(Failure(e), stored, saves) == Err(e)
  {
  }

  /** New data is returned byte for byte, with the raw Etag header, unless the
      save throws, which makes the fetch a `storageError`. */
  lemma ResolveNewData(d: Bytes, response: HTTPResponse, stored: Option<Bytes>, saves: bool)
    ensures saves ==> Resolve(Success(Some(d), response), stored, saves) == Ok(TrackerDataModel(ResponseETag(response), d))
    ensures !saves ==> Resolve(Success(Some(d), response), stored, saves) == Err(StorageError)
  {
  }

  /** "Not modified" falls back to the stored bytes, or fails as `invalidResponse`
      when nothing can be loaded. */
  lemma ResolveNotModified(response: HTTPResponse, stored: Option<Bytes>, saves: bool)
    ensures stored.Some? ==> Resolve(Success(None, response), stored, saves) == Ok(TrackerDataModel(ResponseETag(response), stored.value))
    ensures stored.None? ==> Resolve(Success(None, response), stored, saves) == Err(InvalidResponse)
  {
  }

  /** The only errors a fetch reports beyond the client's own. */
  lemma ResolveErrors(result: HTTPClientResult, stored: Option<Bytes>, saves: bool)
    ensures var r := Resolve(result, stored, saves);
            r.Err? && result.Success? ==> r.error == StorageError || r.error == InvalidResponse
    ensures var r := Resolve(result, stored, saves);
            r.Err? && result.Failure? ==> r.error == result.error
  {
  }

  class TrackerDataFetcher {
    const trackerDataURL: string
    const storage: TrackerDataStorage

    constructor (trackerDataURL: string, storage: TrackerDataStorage)
      ensures this.trackerDataURL == trackerDataURL && this.storage == storage
    {
      this.trackerDataURL := trackerDataURL;
      this.storage := storage;
    }

    /** The completion closure of `attemptFetch`. */
    method HandleResult(result: HTTPClientResult) returns (r: Result<TrackerDataModel, HTTPClientError>)
      modifies storage
      ensures r == Resolve(result, old(TryLoad(storage.Load())), storage.CanSave())
      // only new data is saved; a failure or "not modified" leaves the store alone
      ensures result.Success? && result.data.Some? && r.Ok? ==> storage.file == Some(result.data.value)
      ensures !(result.Success? && result.data.Some? && r.Ok?) ==> storage.file == old(storage.file)
      // whatever is returned is what the store now holds
      ensures r.Ok? ==> storage.file == Some(r.value.data)
    {
      match result
      case Success(data, response) =>
        var etag := ResponseETag(response);
        if data.Some? {
          var saved := storage.Save(data.value);
          if saved.Pass? {
            r := Ok(TrackerDataModel(etag, data.value));
          } else {
            r := Err(StorageError);
          }
        } else {
          var stored := TryLoad(storage.Load());
          if stored.Some? {
            r := Ok(TrackerDataModel(etag, stored.value));
          } else {
            r := Err(InvalidResponse);
          }
        }
      case Failure(error) =>
        r := Err(error);
    }

    /** `fetchTrackerData`: exactly one GET of `trackerDataURL` (`retryCount` is
        never used to retry), whose result `client` delivers. */
    method FetchTrackerData(client: Request -> HTTPClientResult)
      returns (r: Result<TrackerDataModel, HTTPClientError>, sent: Request)
      modifies storage
      ensures sent == RequestFor(trackerDataURL)
      ensures r == Resolve(client(sent), old(TryLoad(storage.Load())), storage.CanSave())
      // only new data is saved; a failure or "not modified" leaves the store alone
      ensures client(sent).Success? && client(sent).data.Some? && r.Ok? ==> storage.file == Some(client(sent).data.value)
      ensures !(client(sent).Success? && client(sent).data.Some? && r.Ok?) ==> storage.file == old(storage.file)
      ensures r.Ok? ==> storage.file == Some(r.value.data)
    {
      sent := RequestFor(trackerDataURL);
      r := HandleResult(client(sent));
    }
  }

  /** `TrackerDataFetcher.compose(with:)`: the fetcher over the ETag decorator over
      the URLSession client. `callback` gives the transport's `(data, response,
      error != nil)` for the request that reaches it. */
  method FetchComposed(fetcher: TrackerDataFetcher, decorator: ETagDecorator,
                       callback: Request -> (Option<Bytes>, Option<URLResponse>, bool))
    returns (r: Result<TrackerDataModel, HTTPClientError>, forwarded: Request)
    modifies fetcher.storage, decorator.etagStorage.cache
    ensures forwarded == Conditional(RequestFor(fetcher.trackerDataURL),
                                     old(decorator.etagStorage.RetrieveETag(fetcher.trackerDataURL)))
    ensures var (data, response, failed) := callback(forwarded);
            r == Resolve(Classify(data, response, failed),
                         old(TryLoad(fetcher.storage.Load())), fetcher.storage.CanSave())
    // the dataset file changes only when new data is saved
    ensures var (data, response, failed) := callback(forwarded);
            var result := Classify(data, response, failed);
            (result.Success? && result.data.Some? && r.Ok? ==> fetcher.storage.file == Some(result.data.value)) &&
            (!(result.Success? && result.data.Some? && r.Ok?) ==> fetcher.storage.file == old(fetcher.storage.file))
    ensures r.Ok? ==> fetcher.storage.file == Some(r.value.data)
    // the ETag store records the response's tag under the dataset URL, and nothing else
    ensures var (data, response, failed) := callback(forwarded);
            var result := Classify(data, response, failed);
            decorator.etagStorage.cache.entries ==
              if TagToStore(result).Some?
              then old(decorator.etagStorage.cache.entries)[fetcher.trackerDataURL := Text(TagToStore(result).value)]
              else old(decorator.etagStorage.cache.entries)
  {
    var transport := (req: Request) =>
      var (data, response, failed) := callback(req); Classify(data, response, failed);
    var result, sentOn := decorator.Get(RequestFor(fetcher.trackerDataURL), transport);
    forwarded := sentOn.value;
    r := fetcher.HandleResult(result);
  }
}
