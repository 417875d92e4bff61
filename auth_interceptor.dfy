/**
 * The interceptor that puts the stored token on outgoing requests as a
 * bearer credential (the `Authorization: Bearer <token>` form of section
 * 2.1 of RFC 6750), except on requests to Google.
 */
module AuthInterceptor {
  import opened Common
  import opened Http

  const AuthorizationHeader := "Authorization"
  const BearerPrefix := "Bearer "

  /**
   * Whether `name` is stored under the same key as the Authorization header:
   * `HttpHeaders` keys its entries by the lower-cased name. The ASCII
   * lower-casing is exact here, since no non-ASCII character lower-cases to
   * one of the letters of `authorization`.
   */
  predicate SameHeaderName(name: string)
  {
    ToLowerAscii(name) == ToLowerAscii(AuthorizationHeader)
  }

  /**
   * `HttpHeaders.set(AuthorizationHeader, value)`: every header stored under
   * the same lower-cased name is replaced by the one new entry.
   */
  function SetAuthorization(headers: map<string, string>, value: string): (r: map<string, string>)
    ensures AuthorizationHeader in r && r[AuthorizationHeader] == value
    ensures forall h :: h in r && SameHeaderName(h) ==> h == AuthorizationHeader
    ensures forall h :: h in headers && !SameHeaderName(h) ==> h in r && r[h] == headers[h]
    ensures forall h :: h in r && h != AuthorizationHeader ==> h in headers
  {
    (map h | h in headers && !SameHeaderName(h) :: headers[h])[AuthorizationHeader := value]
  }

  /** Whether `authInterceptor` adds the header. */
  predicate AddsBearer(req: Request, token: Option<string>)
  {
    PresentText(token) && !Contains(req.url, "google")
  }

  /**
   * `authInterceptor`: the one request handed on. With a token and a URL
   * not naming google it carries `Bearer <token>` as its only
   * Authorization header, whatever the case of an earlier one; otherwise it
   * is the request as it came. Method, URL and every header under another
   * name are kept.
   */
  function Intercept(req: Request, token: Option<string>): (r: Request)
    ensures !AddsBearer(req, token) ==> r == req
    ensures AddsBearer(req, token) ==>
      AuthorizationHeader in r.headers && r.headers[AuthorizationHeader] == BearerPrefix + token.value
    ensures r.verb == req.verb && r.url == req.url
    ensures AddsBearer(req, token) ==> forall h :: h in r.headers && SameHeaderName(h) ==> h == AuthorizationHeader
    ensures forall h :: h in req.headers && !SameHeaderName(h) ==> h in r.headers && r.headers[h] == req.headers[h]
    ensures forall h :: h in r.headers && !SameHeaderName(h) ==> h in req.headers
  {
    if AddsBearer(req, token) then
      req.(headers := SetAuthorization(req.headers, BearerPrefix + token.value))
    else req
  }

  /** A header set earlier under another case, such as `authorization`, gives way to the bearer header. */
  lemma InterceptReplacesOtherCase(req: Request, token: string, h: string)
    requires token != "" && !Contains(req.url, "google")
    requires h in req.headers && h != AuthorizationHeader && ToLowerAscii(h) == "authorization"
    ensures h !in Intercept(req, Some(token)).headers
    ensures Intercept(req, Some(token)).headers[AuthorizationHeader] == BearerPrefix + token
  {
    assert ToLowerAscii(AuthorizationHeader) == "authorization";
    assert SameHeaderName(h);
  }

  /** The header reads back as the token: it is `Bearer ` followed by exactly the token. */
  lemma BearerHeaderCarriesToken(req: Request, token: string)
    requires token != "" && !Contains(req.url, "google")
    ensures StartsWith(Intercept(req, Some(token)).headers[AuthorizationHeader], BearerPrefix)
    ensures Intercept(req, Some(token)).headers[AuthorizationHeader][|BearerPrefix|..] == token
  {
    StartsWithConcat(BearerPrefix, token);
  }

  /** Passing a request through twice sets the same header once. */
  lemma InterceptIdempotent(req: Request, token: Option<string>)
    ensures Intercept(Intercept(req, token), token) == Intercept(req, token)
  {
  }
}
