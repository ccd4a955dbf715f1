/** TrackerBlockingMVP/Common/Errors/GeneralError.swift: the app-wide error enum and
    its `localizedDescription`. */
module Errors {
  import opened Wrappers

  datatype GeneralError =
    | InvalidURL
    | Connectivity
    | InvalidData
    | MappingError
    | BodySerializationError
    | UnexpectedValue
    | CannotAccessDB
    | DatabaseError
    | ContainerInactive
    | ResourceNotFound(payload: Option<string>)
    | AccessNotAllowed(payload: Option<string>)
    | BadRequest(payload: Option<string>)
    | Unknown(payload: Option<string>)
    | MovedPermanently
    | GeneralError
    | InvalidRequest(payload: Option<string>)
    | PreconditionFailed(payload: Option<string>)
    | RemovedPermanently(payload: Option<string>)
    | RuleListCompilationError

  const DefaultDescription: string := "General error description is not available!"

  /** The six cases whose description is their own payload. */
  predicate PassesPayload(e: GeneralError) {
    e.ResourceNotFound? || e.AccessNotAllowed? || e.BadRequest? || e.Unknown? ||
    e.InvalidRequest? || e.PreconditionFailed?
  }

  /** `localizedDescription`. */
  function LocalizedDescription(e: GeneralError): (description: Option<string>)
    // the pass-through cases give their payload; every other case, with or
    // without a payload, gives the fixed default message
    ensures PassesPayload(e) ==> description == e.payload
    ensures !PassesPayload(e) ==> description == Some(DefaultDescription)
  {
    match e
    case ResourceNotFound(s) => s
    case AccessNotAllowed(s) => s
    case BadRequest(s) => s
    case Unknown(s) => s
    case InvalidRequest(s) => s
    case PreconditionFailed(s) => s
    case _ => Some(DefaultDescription)
  }

  /** The description is nil exactly for a pass-through case holding a nil payload. */
  lemma DescriptionNilIff(e: GeneralError)
    ensures LocalizedDescription(e).None? <==> PassesPayload(e) && e.payload.None?
  {
  }

  /** `removedPermanently` carries a payload that its description ignores. */
  lemma RemovedPermanentlyIgnoresPayload(s: Option<string>)
    ensures LocalizedDescription(RemovedPermanently(s)) == Some(DefaultDescription)
    ensures s != Some(DefaultDescription) ==> LocalizedDescription(RemovedPermanently(s)) != s
  {
  }
}
