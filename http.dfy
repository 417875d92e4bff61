/**
 * The parts of Angular's HTTP types that the interceptors and services read:
 * an outgoing request, and an error response with its status and body.
 */
module Http {
  import opened Common

  /**
   * An outgoing `HttpRequest`: method (verb), URL and the headers set on it,
   * keyed by the name as written. `HttpHeaders` matches names without regard
   * to case; AuthInterceptor.SetAuthorization models that for the header it sets.
   */
  datatype Request = Request(verb: string, url: string, headers: map<string, string>)

  /** `HttpErrorResponse.error`: absent, a client-side `ErrorEvent`, a text body or a JSON body. */
  datatype ErrorBody =
    | NoBody
    | ClientEvent(eventMessage: string)
    | TextBody(text: string)
    | JsonBody(message: Option<string>, errors: Option<seq<string>>)

  datatype ErrorResponse = ErrorResponse(status: int, body: ErrorBody)

  /** `if (error.error)`: an empty text body is falsy like an absent one. */
  predicate BodyPresent(b: ErrorBody)
  {
    match b
    case NoBody => false
    case TextBody(t) => t != ""
    case _ => true
  }

  /** `error.error?.message`, undefined (None) where the body has no such property. */
  function BodyMessage(b: ErrorBody): Option<string>
  {
    match b
    case ClientEvent(m) => Some(m)
    case JsonBody(m, _) => m
    case _ => None
  }
}
