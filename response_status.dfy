/** TrackerBlockingMVP/Networking/HTTPClient/ResponseStatus.swift: the raw-value
    enum of known HTTP status codes and the `isOK` / `status` views of a response. */
module HttpStatus {
  import Wrappers
  type Option<T> = Wrappers.Option<T>

  datatype ResponseStatus =
    | Ok | Forbidden | NotFound | Unauthorized | BadRequest
    | PreconditionFailed | Gone | MovedPermanently | ServerError | Unknown

  /** The raw values the enum declares. */
  const RawValues: set<int> := {200, 403, 404, 401, 400, 412, 410, 301, 500, 0}

  function RawValue(s: ResponseStatus): (code: int)
    ensures code in RawValues
  {
    match s
    case Ok => 200
    case Forbidden => 403
    case NotFound => 404
    case Unauthorized => 401
    case BadRequest => 400
    case PreconditionFailed => 412
    case Gone => 410
    case MovedPermanently => 301
    case ServerError => 500
    case Unknown => 0
  }

  /** `ResponseStatus(rawValue:)`: the case declared with that raw value, if any. */
  function FromRawValue(code: int): (r: Option<ResponseStatus>)
    ensures r.Some? <==> code in RawValues
    ensures r.Some? ==> RawValue(r.value) == code
  {
    if code == 200 then Wrappers.Some(Ok)
    else if code == 403 then Wrappers.Some(Forbidden)
    else if code == 404 then Wrappers.Some(NotFound)
    else if code == 401 then Wrappers.Some(Unauthorized)
    else if code == 400 then Wrappers.Some(BadRequest)
    else if code == 412 then Wrappers.Some(PreconditionFailed)
    else if code == 410 then Wrappers.Some(Gone)
    else if code == 301 then Wrappers.Some(MovedPermanently)
    else if code == 500 then Wrappers.Some(ServerError)
    else if code == 0 then Wrappers.Some(Unknown)
    else Wrappers.None
  }

  /** `HTTPURLResponse.isOK`: the code is in 200...299. */
  predicate IsOK(statusCode: int)
    // an OK code is 200 or has no case of its own
    ensures IsOK(statusCode) ==> Status(statusCode) == Ok || Status(statusCode) == Unknown
    // the `.ok` case is OK
    ensures Status(statusCode) == Ok ==> IsOK(statusCode)
  {
    200 <= statusCode <= 299
  }

  /** `HTTPURLResponse.status`: the declared case, else `.unknown`. */
  function Status(statusCode: int): (s: ResponseStatus)
    ensures statusCode in RawValues ==> RawValue(s) == statusCode
    ensures statusCode !in RawValues ==> s == Unknown
  {
    FromRawValue(statusCode).GetOr(Unknown)
  }

  /** The raw values are distinct, so every case survives the raw-value round trip. */
  lemma RawValueRoundTrip(s: ResponseStatus)
    ensures FromRawValue(RawValue(s)) == Wrappers.Some(s)
    ensures Status(RawValue(s)) == s
  {
  }

  /** Two cases with the same raw value are the same case. */
  lemma RawValueInjective(s: ResponseStatus, t: ResponseStatus)
    requires RawValue(s) == RawValue(t)
    ensures s == t
  {
    RawValueRoundTrip(s);
    RawValueRoundTrip(t);
  }

  /** `isOK` and `status` are independent views: 204 is OK yet has no case, and
      the only OK code with a case of its own is 200. */
  lemma IsOKWithoutCase()
    ensures IsOK(204) && Status(204) == Unknown
    ensures forall code :: IsOK(code) && Status(code) != Unknown ==> code == 200
  {
  }
}
