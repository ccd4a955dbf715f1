/** TrackerBlockingMVP/Networking/HTTPClient/ETagDecorator.swift: wraps another
    HTTP client, makes each request conditional on the stored entity tag and
    records the tag of every successful response. */
module ETagDecorator {
  import opened Wrappers
  import opened Strings
  import opened HttpClient
  import opened UserDefaultsStore
  import opened EtagStorage

  const NoneMatchHeader: string := "If-None-Match"
  const ETagHeader: string := "Etag"

  /** `URLRequest.addValue(_:forHTTPHeaderField:)`: a field that already has a value
      gets the new one appended after a comma. */
  function AddValue(headers: map<string, string>, field: string, value: string): (h: map<string, string>)
    ensures h.Keys == headers.Keys + {field}
    ensures field !in headers ==> h[field] == value
    ensures field in headers ==> h[field] == headers[field] + "," + value
    ensures forall f :: f in headers && f != field ==> h[f] == headers[f]
  {
    headers[field := if field in headers then headers[field] + "," + value else value]
  }

  /** The request handed to the decoratee: forced to GET, bypassing the local
      cache, and carrying If-None-Match when a tag is stored. */
  function Conditional(request: Request, stored: Option<string>): (r: Request)
    ensures r.url == request.url
    ensures r.httpMethod == "GET" && r.cachePolicy == ReloadIgnoringLocalCacheData
    ensures stored.None? ==> r.headers == request.headers
    ensures stored.Some? && NoneMatchHeader !in request.headers ==> r.headers == request.headers[NoneMatchHeader := stored.value]
    ensures forall f :: f in request.headers && f != NoneMatchHeader ==> f in r.headers && r.headers[f] == request.headers[f]
  {
    var base := request.(httpMethod := "GET", cachePolicy := ReloadIgnoringLocalCacheData);
    match stored
    case Some(tag) => base.(headers := AddValue(request.headers, NoneMatchHeader, tag))
    case None => base
  }

  /** The tag a result makes the decorator store: the Etag header of a success,
      with every "W/" removed and the quotes kept. */
  function TagToStore(result: HTTPClientResult): (tag: Option<string>)
    ensures tag.Some? <==> result.Success? && ETagHeader in result.response.headers
    ensures tag.Some? ==> tag.value == RemoveWeakIndicator(result.response.headers[ETagHeader])
  {
    if result.Success? && ETagHeader in result.response.headers
    then Some(RemoveWeakIndicator(result.response.headers[ETagHeader]))
    else None
  }

  class ETagDecorator {
    const etagStorage: EtagStorage

    constructor (etagStorage: EtagStorage)
      ensures this.etagStorage == etagStorage
    {
      this.etagStorage := etagStorage;
    }

    /** `get(request:completion:)`. `decoratee` is the wrapped client: the result it
        delivers for the forwarded request. `forwarded` is that request, or None when
        the decoratee is never called. The completion receives `r`. */
    method Get(request: Request, decoratee: Request -> HTTPClientResult)
      returns (r: HTTPClientResult, forwarded: Option<Request>)
      modifies etagStorage.cache
      // no URL: fail at once, never reaching the decoratee or the store
      ensures request.url.None? ==>
                r == Failure(InvalidURL) && forwarded.None? &&
                etagStorage.cache.entries == old(etagStorage.cache.entries)
      ensures request.url.Some? ==>
                forwarded == Some(Conditional(request, old(etagStorage.RetrieveETag(request.url.value))))
      // the decoratee's result, success or failure, is passed through unchanged
      ensures request.url.Some? ==> r == decoratee(forwarded.value)
      // only a success with an Etag header writes the store, under the URL string
      ensures request.url.Some? && TagToStore(r).Some? ==>
                etagStorage.cache.entries == old(etagStorage.cache.entries)[request.url.value := Text(TagToStore(r).value)]
      ensures request.url.Some? && TagToStore(r).None? ==>
                etagStorage.cache.entries == old(etagStorage.cache.entries)
    {
      if request.url.None? {
        return Failure(InvalidURL), None;
      }
      var url := request.url.value;
      var stored := etagStorage.RetrieveETag(url);
      var etagRequest := Conditional(request, stored);
      forwarded := Some(etagRequest);
      r := decoratee(etagRequest);
      match r
      case Success(data, response) =>
        if ETagHeader in response.headers {
          etagStorage.Store(RemoveWeakIndicator(response.headers[ETagHeader]), url);
        }
      case Failure(error) =>
    }
  }

  /** A weak tag from a 200 or a 304 is stored as its strong form, quotes kept, and
      is what the next request to the same URL sends as If-None-Match. */
  lemma WeakTagBecomesValidator(request: Request, x: string, result: HTTPClientResult)
    requires !Contains(x, "W/")
    requires result.Success? && result.response.headers == map[ETagHeader := "W/\"" + x + "\""]
    ensures TagToStore(result) == Some("\"" + x + "\"")
    ensures NoneMatchHeader !in request.headers ==>
              Conditional(request, TagToStore(result)).headers[NoneMatchHeader] == "\"" + x + "\""
  {
    RemoveWeakIndicatorKeepsQuotes(x);
  }
}
