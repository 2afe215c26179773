/**
 * `AuthRepository`: the in-memory access token and its absolute expiry,
 * backed by the `TokenManager` store, with the refresh-token grant and the
 * authorization-code exchange. Each reading of `System.currentTimeMillis()`
 * is a parameter; a call that reads the clock twice takes two readings.
 */
module AuthRepositories {
  import opened Wrappers
  import opened Text
  import opened Models
  import opened TokenManagers

  /** `Constants.TOKEN_REFRESH_BUFFER_SECONDS`. */
  const TOKEN_REFRESH_BUFFER_SECONDS: int := 60

  /** The reply of the token endpoint to a refresh-token grant. */
  datatype TokenReply =
    | Response(code: int, body: Option<RefreshTokenResponse>, errorBody: Option<string>)
    | Failed(message: Option<string>)
  {
    /** Retrofit's `isSuccessful`. */
    predicate IsSuccessful() {
      Response? && 200 <= code < 300
    }
  }

  /** The AppAuth `TokenResponse` of an authorization-code exchange. */
  datatype TokenResponse = TokenResponse(
    accessToken: Option<string>,
    refreshToken: Option<string>,
    tokenType: Option<string>,
    scope: Option<string>,
    additionalParameters: map<string, string>)

  /** The token is missing, or expires within the refresh buffer of `now`. */
  predicate Expired(token: Option<string>, expiryMillis: int, now: int) {
    token.None? || expiryMillis <= now + SecondsToMillis(TOKEN_REFRESH_BUFFER_SECONDS)
  }

  /** A refresh rejects the refresh token itself: HTTP 400 naming `invalid_grant`. */
  predicate InvalidGrant(reply: TokenReply) {
    && reply.Response?
    && !reply.IsSuccessful()
    && reply.code == 400
    && reply.errorBody.Some?
    && Contains(reply.errorBody.value, "invalid_grant")
  }

  /** `additionalParameters["expires_in"]?.toLongOrNull() ?: 0`. */
  function ExpiresInSeconds(parameters: map<string, string>): (r: int)
    ensures "expires_in" !in parameters ==> r == 0
    ensures "expires_in" in parameters && ToLongOrNull(parameters["expires_in"]).None? ==> r == 0
    ensures LONG_MIN <= r <= LONG_MAX
  {
    if "expires_in" in parameters then ToLongOrNull(parameters["expires_in"]).GetOr(0) else 0
  }

  /** A printed lifetime is read back as that lifetime. */
  lemma ExpiresInRoundTrip(parameters: map<string, string>, seconds: int)
    requires LONG_MIN <= seconds <= LONG_MAX
    requires "expires_in" in parameters && parameters["expires_in"] == IntToString(seconds)
    ensures ExpiresInSeconds(parameters) == seconds
  {
    ToLongOrNullRoundTrip(seconds);
  }

  /** Without a usable `expires_in` the exchanged token is expired at once. */
  lemma ExchangeWithoutLifetimeIsExpired(parameters: map<string, string>, token: Option<string>, now: int)
    requires "expires_in" !in parameters || ToLongOrNull(parameters["expires_in"]).None?
    ensures Expired(token, now + SecondsToMillis(ExpiresInSeconds(parameters)), now)
  {
  }

  /** A token with lifetime `expiresIn` is fresh until the buffer before its end. */
  lemma FreshUntilBuffer(token: string, now: int, expiresIn: int, later: int)
    ensures !Expired(Some(token), now + SecondsToMillis(expiresIn), later)
      <==> later < now + SecondsToMillis(expiresIn) - SecondsToMillis(TOKEN_REFRESH_BUFFER_SECONDS)
  {
  }

  class AuthRepository {
    const tokenManager: TokenManager
    var currentAccessToken: Option<string>
    var accessTokenExpiryTimeMillis: int
    /** How many times the refresh grant has been attempted. */
    ghost var refreshCalls: nat

    ghost predicate Valid()
      reads this, tokenManager
    {
      tokenManager.Valid()
    }

    /** `init`: the cache starts from the store. */
    constructor(tokenManager: TokenManager)
      requires tokenManager.Valid()
      ensures this.tokenManager == tokenManager && Valid()
      ensures currentAccessToken == tokenManager.GetAccessToken()
      ensures accessTokenExpiryTimeMillis == tokenManager.GetAccessTokenExpiryTime()
      ensures refreshCalls == 0
    {
      this.tokenManager := tokenManager;
      currentAccessToken := tokenManager.GetAccessToken();
      accessTokenExpiryTimeMillis := tokenManager.GetAccessTokenExpiryTime();
      refreshCalls := 0;
    }

    /** `getAccessToken`: the cached token, expired or not. */
    function GetAccessToken(): (r: Option<string>)
      reads this
      ensures r.None? ==> forall now :: IsAccessTokenExpired(now)
    {
      currentAccessToken
    }

    /** `getRefreshToken`: read from the store. */
    function GetRefreshToken(): (r: Option<string>)
      reads this, tokenManager
      ensures Valid() ==> (r.Some? <==> REFRESH_TOKEN_KEY in tokenManager.prefs)
    {
      tokenManager.GetRefreshToken()
    }

    /** `isAccessTokenExpired` at clock reading `now`. */
    function IsAccessTokenExpired(now: int): (r: bool)
      reads this
      ensures r <==> currentAccessToken.None? || accessTokenExpiryTimeMillis <= now + 60 * 1000
    {
      Expired(currentAccessToken, accessTokenExpiryTimeMillis, now)
    }

    /** `isAuthenticated`: the stored token, not the cached one. */
    function IsAuthenticated(): (r: bool)
      reads this, tokenManager
      ensures Valid() ==> (r <==> ACCESS_TOKEN_KEY in tokenManager.prefs)
    {
      tokenManager.GetAccessToken().Some?
    }

    /** `clearAllTokens`. */
    method ClearAllTokens()
      requires Valid()
      modifies this, tokenManager
      ensures Valid()
      ensures tokenManager.prefs == map[] && currentAccessToken.None? && accessTokenExpiryTimeMillis == 0
      ensures refreshCalls == old(refreshCalls)
      ensures IsAccessTokenExpired(0) && !IsAuthenticated()
    {
      tokenManager.ClearAuthData();
      currentAccessToken := None;
      accessTokenExpiryTimeMillis := 0;
    }

    /**
     * `refreshAccessToken`. `endpoint` is the token endpoint's reply to a
     * grant with the given refresh token; `now` is the clock reading of the
     * repository and `storeNow` the one inside `TokenManager.saveTokens`.
     */
    method RefreshAccessToken(endpoint: string -> TokenReply, now: int, storeNow: int) returns (r: Option<string>)
      requires Valid()
      modifies this, tokenManager
      ensures Valid()
      ensures refreshCalls == old(refreshCalls) + 1
      // no refresh token: clear everything
      ensures old(tokenManager.GetRefreshToken()).None? ==>
        && r.None?
        && tokenManager.prefs == map[] && currentAccessToken.None? && accessTokenExpiryTimeMillis == 0
      ensures old(tokenManager.GetRefreshToken()).Some? ==>
        var reply := endpoint(old(tokenManager.GetRefreshToken()).value);
        // a successful grant with a body: new token in memory and in the store
        && (reply.IsSuccessful() && reply.body.Some? ==>
            var body := reply.body.value;
            && r == Some(body.accessToken)
            && currentAccessToken == Some(body.accessToken)
            && accessTokenExpiryTimeMillis == now + SecondsToMillis(body.expiresIn)
            && tokenManager.prefs == SaveExpiryPrefs(
                 SaveTokensPrefs(old(tokenManager.prefs), Some(body.accessToken), old(tokenManager.GetRefreshToken()),
                                 Some(body.expiresIn), Some(body.tokenType), storeNow),
                 accessTokenExpiryTimeMillis)
            && tokenManager.GetRefreshToken() == old(tokenManager.GetRefreshToken())
            && tokenManager.GetAccessTokenExpiryTime() == accessTokenExpiryTimeMillis)
        // a rejected refresh token: clear everything
        && (InvalidGrant(reply) ==>
            r.None? && tokenManager.prefs == map[] && currentAccessToken.None? && accessTokenExpiryTimeMillis == 0)
        // anything else: no change
        && (!(reply.IsSuccessful() && reply.body.Some?) && !InvalidGrant(reply) ==>
            && r.None?
            && tokenManager.prefs == old(tokenManager.prefs)
            && currentAccessToken == old(currentAccessToken)
            && accessTokenExpiryTimeMillis == old(accessTokenExpiryTimeMillis))
    {
      refreshCalls := refreshCalls + 1;
      var refreshToken := GetRefreshToken();
      if refreshToken.None? {
        ClearAllTokens();
        return None;
      }
      var response := endpoint(refreshToken.value);
      if response.IsSuccessful() {
        if response.body.Some? {
          var tokenResponse := response.body.value;
          currentAccessToken := Some(tokenResponse.accessToken);
          accessTokenExpiryTimeMillis := now + SecondsToMillis(tokenResponse.expiresIn);
          tokenManager.SaveTokens(currentAccessToken, tokenManager.GetRefreshToken(),
                                  Some(tokenResponse.expiresIn), Some(tokenResponse.tokenType), storeNow);
          tokenManager.SaveAccessTokenExpiryTime(accessTokenExpiryTimeMillis);
          ExplicitExpiryWins(old(tokenManager.prefs), Some(tokenResponse.accessToken), refreshToken,
                             Some(tokenResponse.expiresIn), Some(tokenResponse.tokenType), storeNow, accessTokenExpiryTimeMillis);
          return currentAccessToken;
        } else {
          return None;
        }
      } else if response.Response? {
        if InvalidGrant(response) {
          ClearAllTokens();
        }
        return None;
      } else {
        return None;
      }
    }

    /**
     * `exchangeToken`, from the AppAuth token response onwards: `response`
     * is null when the exchange failed or threw. `now` is the repository's
     * clock reading and `storeNow` the one inside `TokenManager.saveTokens`.
     */
    method ExchangeToken(response: Option<TokenResponse>, now: int, storeNow: int) returns (r: Option<AuthResponse>)
      requires Valid()
      modifies this, tokenManager
      ensures Valid()
      ensures refreshCalls == old(refreshCalls)
      ensures response.None? ==>
        && r.None?
        && tokenManager.prefs == old(tokenManager.prefs)
        && currentAccessToken == old(currentAccessToken)
        && accessTokenExpiryTimeMillis == old(accessTokenExpiryTimeMillis)
      ensures response.Some? ==>
        var tr := response.value;
        var seconds := ExpiresInSeconds(tr.additionalParameters);
        && currentAccessToken == tr.accessToken
        && accessTokenExpiryTimeMillis == now + SecondsToMillis(seconds)
        && tokenManager.prefs == SaveExpiryPrefs(
             SaveTokensPrefs(old(tokenManager.prefs), tr.accessToken, tr.refreshToken, Some(seconds), tr.tokenType, storeNow),
             accessTokenExpiryTimeMillis)
        && tokenManager.GetAccessTokenExpiryTime() == accessTokenExpiryTimeMillis
        && r == Some(AuthResponse(tr.accessToken.GetOr(""), tr.tokenType, seconds, tr.refreshToken, tr.scope))
    {
      if response.None? {
        return None;
      }
      var tokenResponse := response.value;
      var expiresInSeconds := ExpiresInSeconds(tokenResponse.additionalParameters);
      var accessTokenExpiryTime := now + SecondsToMillis(expiresInSeconds);
      tokenManager.SaveTokens(tokenResponse.accessToken, tokenResponse.refreshToken, Some(expiresInSeconds),
                              tokenResponse.tokenType, storeNow);
      tokenManager.SaveAccessTokenExpiryTime(accessTokenExpiryTime);
      currentAccessToken := tokenResponse.accessToken;
      accessTokenExpiryTimeMillis := accessTokenExpiryTime;
      r := Some(AuthResponse(tokenResponse.accessToken.GetOr(""), tokenResponse.tokenType, expiresInSeconds,
                             tokenResponse.refreshToken, tokenResponse.scope));
    }

    /**
     * `saveTokens`. It stores the repository's own expiry first and then
     * calls `TokenManager.saveTokens`, which overwrites it with one computed
     * from the later clock reading `storeNow`.
     */
    method SaveTokens(accessToken: string, refreshToken: Option<string>, expiresIn: int, tokenType: Option<string>,
                      now: int, storeNow: int)
      requires Valid()
      modifies this, tokenManager
      ensures Valid()
      ensures refreshCalls == old(refreshCalls)
      ensures currentAccessToken == Some(accessToken)
      ensures accessTokenExpiryTimeMillis == now + SecondsToMillis(expiresIn)
      ensures tokenManager.prefs == SaveTokensPrefs(SaveExpiryPrefs(old(tokenManager.prefs), accessTokenExpiryTimeMillis),
                                                    Some(accessToken), refreshToken, Some(expiresIn), tokenType, storeNow)
      ensures tokenManager.GetAccessTokenExpiryTime() == storeNow + SecondsToMillis(expiresIn)
      ensures tokenManager.GetAccessTokenExpiryTime() == accessTokenExpiryTimeMillis <==> now == storeNow
    {
      currentAccessToken := Some(accessToken);
      accessTokenExpiryTimeMillis := now + SecondsToMillis(expiresIn);
      tokenManager.SaveAccessTokenExpiryTime(accessTokenExpiryTimeMillis);
      tokenManager.SaveTokens(Some(accessToken), refreshToken, Some(expiresIn), tokenType, storeNow);
    }
  }
}
