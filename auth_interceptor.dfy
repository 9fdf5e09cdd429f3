/** `authInterceptor`: attaches the stored access token to every request but the login call. */
module AuthInterceptor {
  import opened Wrappers
  import opened Strings

  /** An outgoing request: its URL and its headers. */
  datatype HttpRequest = HttpRequest(url: string, headers: map<string, string>)

  const LoginPath: string := "/authentication/login"
  const AuthorizationHeader: string := "Authorization"

  /** `token && !req.url.includes('/authentication/login')`. */
  predicate AttachesToken(url: string, storedToken: Option<string>) {
    storedToken.Some? && storedToken.value != "" && !Contains(url, LoginPath)
  }

  /**
   * The request handed to `next`: the original when no token is attached,
   * otherwise a clone with `Authorization: Bearer <token>` set and every
   * other header and the URL as they were.
   */
  function Intercept(req: HttpRequest, storedToken: Option<string>): (forwarded: HttpRequest)
    ensures !AttachesToken(req.url, storedToken) ==> forwarded == req
    ensures forwarded.url == req.url
    ensures AttachesToken(req.url, storedToken) ==>
      AuthorizationHeader in forwarded.headers
      && forwarded.headers[AuthorizationHeader] == "Bearer " + storedToken.value
    ensures forall h :: h != AuthorizationHeader ==>
      (h in forwarded.headers <==> h in req.headers)
      && (h in req.headers ==> forwarded.headers[h] == req.headers[h])
  {
    if AttachesToken(req.url, storedToken) then
      req.(headers := req.headers[AuthorizationHeader := "Bearer " + storedToken.value])
    else req
  }

  /** The header carries a Bearer token exactly when a token is stored and the URL is not the login call. */
  lemma BearerHeaderIff(req: HttpRequest, storedToken: Option<string>)
    requires AuthorizationHeader !in req.headers
    ensures AuthorizationHeader in Intercept(req, storedToken).headers <==> AttachesToken(req.url, storedToken)
  {
  }
}
