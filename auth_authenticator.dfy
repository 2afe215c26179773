/**
 * The authenticator OkHttp consults after a 401 reply: it refreshes the
 * access token once and retries the request with the new token, or gives
 * up. The blocking wait on the refresh is a plain call here.
 */
module AuthAuthenticators {
  import opened Wrappers
  import opened Text
  import opened Http
  import opened TokenManagers
  import opened AuthRepositories
  import opened AuthInterceptors

  /** The token endpoint grants a new access token for the stored refresh token. */
  predicate RefreshGranted(refreshToken: Option<string>, endpoint: string -> TokenReply) {
    refreshToken.Some? && endpoint(refreshToken.value).IsSuccessful() && endpoint(refreshToken.value).body.Some?
  }

  /** The request to retry with a new access token: the old one with its authorization replaced. */
  function Reauthorized(request: Request, accessToken: string): (r: Request)
    ensures HeaderValue(r.headers, AUTHORIZATION) == Some("Bearer " + accessToken)
    ensures forall other :: !NameEq(other, AUTHORIZATION) ==> HeaderValue(r.headers, other) == HeaderValue(request.headers, other)
    ensures r.verb == request.verb && r.url == request.url && r.body == request.body
  {
    var r := SetHeader(request, AUTHORIZATION, "Bearer " + accessToken);
    assert forall other :: !NameEq(other, AUTHORIZATION) ==> HeaderValue(r.headers, other) == HeaderValue(request.headers, other) by {
      forall other | !NameEq(other, AUTHORIZATION) ensures HeaderValue(r.headers, other) == HeaderValue(request.headers, other) {
        SetHeaderEffect(request, AUTHORIZATION, "Bearer " + accessToken, other);
      }
    }
    SetHeaderEffect(request, AUTHORIZATION, "Bearer " + accessToken, AUTHORIZATION);
    r
  }

  class AuthAuthenticator {
    const authRepository: AuthRepository

    constructor(authRepository: AuthRepository)
      ensures this.authRepository == authRepository
    {
      this.authRepository := authRepository;
    }

    /**
     * `authenticate`: `request` is the request that drew the 401; the other
     * parameters are passed on to `refreshAccessToken`. Null means give up.
     */
    method Authenticate(request: Request, endpoint: string -> TokenReply, now: int, storeNow: int) returns (r: Option<Request>)
      requires authRepository.Valid()
      modifies authRepository, authRepository.tokenManager
      ensures authRepository.Valid()
      // a failed token request: forget everything, no refresh
      ensures Contains(request.url.encodedPath, TOKEN_PATH) ==>
        && r.None?
        && authRepository.refreshCalls == old(authRepository.refreshCalls)
        && authRepository.tokenManager.prefs == map[]
        && authRepository.currentAccessToken.None? && authRepository.accessTokenExpiryTimeMillis == 0
      // any other request: exactly one refresh, and a retry only if it produced a token
      ensures !Contains(request.url.encodedPath, TOKEN_PATH) ==>
        && authRepository.refreshCalls == old(authRepository.refreshCalls) + 1
        && (r.Some? <==> RefreshGranted(old(authRepository.tokenManager.GetRefreshToken()), endpoint))
        && (r.Some? ==>
              && authRepository.currentAccessToken.Some?
              && r.value == Reauthorized(request, authRepository.currentAccessToken.value)
              && r.value == Reauthorized(request,
                   endpoint(old(authRepository.tokenManager.GetRefreshToken()).value).body.value.accessToken))
        // no refresh token, or one the endpoint rejects: signed out, no retry
        && (old(authRepository.tokenManager.GetRefreshToken()).None?
            || InvalidGrant(endpoint(old(authRepository.tokenManager.GetRefreshToken()).value)) ==>
              && authRepository.tokenManager.prefs == map[] && authRepository.currentAccessToken.None?
              && !authRepository.IsAuthenticated())
        // a refresh that neither succeeds nor is rejected: nothing changes, no retry
        && (old(authRepository.tokenManager.GetRefreshToken()).Some?
            && !RefreshGranted(old(authRepository.tokenManager.GetRefreshToken()), endpoint)
            && !InvalidGrant(endpoint(old(authRepository.tokenManager.GetRefreshToken()).value)) ==>
              && authRepository.tokenManager.prefs == old(authRepository.tokenManager.prefs)
              && authRepository.currentAccessToken == old(authRepository.currentAccessToken))
    {
      if Contains(request.url.encodedPath, TOKEN_PATH) {
        authRepository.ClearAllTokens();
        return None;
      }
      var newAccessToken := authRepository.RefreshAccessToken(endpoint, now, storeNow);
      if newAccessToken.Some? {
        return Some(Reauthorized(request, newAccessToken.value));
      } else {
        return None;
      }
    }
  }
}
