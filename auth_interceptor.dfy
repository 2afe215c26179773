/**
 * The request interceptor that tags outgoing API requests with the cached
 * bearer token. It reads the token through `AuthRepository.GetAccessToken`,
 * a function of the repository's memory, so it never refreshes anything.
 */
module AuthInterceptors {
  import opened Wrappers
  import opened Text
  import opened Http

  const AUTHORIZATION: string := "Authorization"
  const TOKEN_PATH: string := "api/token"

  /** Requests the interceptor forwards untouched: token requests and requests already authorized. */
  predicate Skips(request: Request) {
    Contains(request.url.encodedPath, TOKEN_PATH) || HeaderValue(request.headers, AUTHORIZATION).Some?
  }

  /**
   * `intercept`: the request handed to `chain.proceed`, given the token
   * `authRepository.getAccessToken()` returns.
   */
  function Intercept(request: Request, accessToken: Option<string>): (r: Request)
    ensures Contains(request.url.encodedPath, TOKEN_PATH) ==> r == request
    ensures HeaderValue(request.headers, AUTHORIZATION).Some? ==> r == request
    ensures accessToken.None? ==> r == request
    ensures !Skips(request) && accessToken.Some? ==>
      r == request.(headers := request.headers + [Header(AUTHORIZATION, "Bearer " + accessToken.value)])
  {
    if Skips(request) then
      request
    else if accessToken.Some? then
      SetHeaderAppendsWhenAbsent(request, AUTHORIZATION, "Bearer " + accessToken.value);
      SetHeader(request, AUTHORIZATION, "Bearer " + accessToken.value)
    else
      request
  }

  /** An intercepted request that was not a token request always carries an authorization header. */
  lemma InterceptedIsAuthorized(request: Request, token: string)
    requires !Contains(request.url.encodedPath, TOKEN_PATH)
    ensures HeaderValue(Intercept(request, Some(token)).headers, AUTHORIZATION).Some?
    ensures HeaderValue(request.headers, AUTHORIZATION).None? ==>
      HeaderValue(Intercept(request, Some(token)).headers, AUTHORIZATION) == Some("Bearer " + token)
  {
    if HeaderValue(request.headers, AUTHORIZATION).None? {
      SetHeaderEffect(request, AUTHORIZATION, "Bearer " + token, AUTHORIZATION);
    }
  }

  /** Intercepting twice is intercepting once: the tagged request is skipped the second time. */
  lemma InterceptIdempotent(request: Request, accessToken: Option<string>)
    ensures Intercept(Intercept(request, accessToken), accessToken) == Intercept(request, accessToken)
  {
    if !Skips(request) && accessToken.Some? {
      InterceptedIsAuthorized(request, accessToken.value);
    }
  }
}
