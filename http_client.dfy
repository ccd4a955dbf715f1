/** The HTTP client layer: the result and error types of HTTPClient.swift and
    HTTPClientError.swift, the request and response values, and the guard chain that
    URLSessionHTTPClient.get applies to each transport callback. */
module HttpClient {
  import opened Wrappers

  datatype HTTPClientError =
    | Connectivity
    | InvalidResponse
    | StatusCode(code: int)
    | StorageError
    | InvalidURL

  /** `URLRequest.CachePolicy`, reduced to the two policies the code meets. */
  datatype CachePolicy = UseProtocolCachePolicy | ReloadIgnoringLocalCacheData

  /** A `URLRequest`: the URL is kept as its absolute string. */
  datatype Request = Request(
    url: Option<string>,
    httpMethod: string,
    cachePolicy: CachePolicy,
    headers: map<string, string>)

  /** `URLRequest(url:)`: a GET with the default cache policy and no header. */
  function RequestFor(url: string): (r: Request)
    ensures r.url == Some(url) && r.httpMethod == "GET" && r.headers == map[]
  {
    Request(Some(url), "GET", UseProtocolCachePolicy, map[])
  }

  /** An `HTTPURLResponse`: its status code and its header fields. */
  datatype HTTPResponse = HTTPResponse(statusCode: int, headers: map<string, string>)

  /** The `response` of a transport callback: an HTTP response or some other
      `URLResponse` that the `as? HTTPURLResponse` cast rejects. */
  datatype URLResponse = Http(response: HTTPResponse) | NonHttp

  datatype HTTPClientResult =
    | Success(data: Option<Bytes>, response: HTTPResponse)
    | Failure(error: HTTPClientError)

  /** The completion closure of `URLSessionHTTPClient.get`: maps one transport
      callback `(data, response, error)` to exactly one result. */
  function Classify(data: Option<Bytes>, response: Option<URLResponse>, transportFailed: bool): (r: HTTPClientResult)
    // a transport error wins over everything else, and is the only source of connectivity
    ensures r == Failure(Connectivity) <==> transportFailed
    // a missing or non-HTTP response, or missing data, is checked before the status
    ensures r == Failure(InvalidResponse) <==>
              !transportFailed && (response.None? || response.value.NonHttp? || data.None?)
    // success exactly for 304 and 2xx of a well-formed callback, with the response intact
    ensures r.Success? <==>
              !transportFailed && response.Some? && response.value.Http? && data.Some? &&
              (response.value.response.statusCode == 304 || 200 <= response.value.response.statusCode <= 299)
    ensures r.Success? ==> r.response == response.value.response
    // 304 drops the body, 2xx passes it unchanged
    ensures r.Success? ==> (r.data.None? <==> r.response.statusCode == 304)
    ensures r.Success? && r.data.Some? ==> r.data == data
    // every other status is reported with its code
    ensures !transportFailed && response.Some? && response.value.Http? && data.Some? &&
            response.value.response.statusCode != 304 && !(200 <= response.value.response.statusCode <= 299) ==>
              r == Failure(StatusCode(response.value.response.statusCode))
    ensures r.Failure? && r.error.StatusCode? ==>
              response.Some? && response.value.Http? && r.error.code == response.value.response.statusCode &&
              r.error.code != 304 && !(200 <= r.error.code <= 299)
  {
    if transportFailed then Failure(Connectivity)
    else if response.None? || response.value.NonHttp? || data.None? then Failure(InvalidResponse)
    else if response.value.response.statusCode == 304 then Success(None, response.value.response)
    else if !(200 <= response.value.response.statusCode <= 299) then Failure(StatusCode(response.value.response.statusCode))
    else Success(data, response.value.response)
  }

  /** A 304 without a body is reported as invalid, not as "not modified": the
      nil-data guard comes before the 304 check. */
  lemma NotModifiedNeedsBody(r: HTTPResponse)
    requires r.statusCode == 304
    ensures Classify(None, Some(Http(r)), false) == Failure(InvalidResponse)
    ensures forall body :: Classify(Some(body), Some(Http(r)), false) == Success(None, r)
  {
  }

  /** The only errors the classification produces. */
  lemma ClassifyErrors(data: Option<Bytes>, response: Option<URLResponse>, transportFailed: bool)
    ensures var r := Classify(data, response, transportFailed);
            r.Failure? ==> r.error.Connectivity? || r.error.InvalidResponse? || r.error.StatusCode?
  {
  }
}
