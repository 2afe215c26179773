/**
 * `TokenManager`: the token fields kept in the app's (encrypted) shared
 * preferences. The preferences are a map from key to a string or long
 * value; an editor's `putString(key, null)` removes the key, as Android
 * does, and the edits of one `apply()` take effect in call order.
 */
module TokenManagers {
  import opened Wrappers

  datatype Pref = Str(s: string) | Long(n: int)

  type Prefs = map<string, Pref>

  const ACCESS_TOKEN_KEY: string := "access_token"
  const REFRESH_TOKEN_KEY: string := "refresh_token"
  const EXPIRES_IN_KEY: string := "expires_in"
  const TOKEN_TYPE_KEY: string := "token_type"
  const LAST_TOKEN_RESPONSE_JSON_KEY: string := "last_token_response_json"
  const ACCESS_TOKEN_EXPIRY_ABS_TIME_KEY: string := "access_token_expiry_abs_time"

  /** Milliseconds in `seconds` seconds, as `TimeUnit.SECONDS.toMillis`. */
  function SecondsToMillis(seconds: int): int {
    seconds * 1000
  }

  /** Each key holds the kind of value `TokenManager` writes to it. */
  ghost predicate WellTyped(p: Prefs) {
    && (ACCESS_TOKEN_KEY in p ==> p[ACCESS_TOKEN_KEY].Str?)
    && (REFRESH_TOKEN_KEY in p ==> p[REFRESH_TOKEN_KEY].Str?)
    && (EXPIRES_IN_KEY in p ==> p[EXPIRES_IN_KEY].Long?)
    && (TOKEN_TYPE_KEY in p ==> p[TOKEN_TYPE_KEY].Str?)
    && (LAST_TOKEN_RESPONSE_JSON_KEY in p ==> p[LAST_TOKEN_RESPONSE_JSON_KEY].Str?)
    && (ACCESS_TOKEN_EXPIRY_ABS_TIME_KEY in p ==> p[ACCESS_TOKEN_EXPIRY_ABS_TIME_KEY].Long?)
  }

  /** `getString(key, null)`. */
  function StringPref(p: Prefs, key: string): Option<string> {
    if key in p && p[key].Str? then Some(p[key].s) else None
  }

  /** `getLong(key, default)`. */
  function LongPref(p: Prefs, key: string, default: int): int {
    if key in p && p[key].Long? then p[key].n else default
  }

  /** `editor.putString(key, value)`: a null value removes the key. */
  function PutString(p: Prefs, key: string, value: Option<string>): Prefs {
    match value
    case Some(s) => p[key := Str(s)]
    case None => p - {key}
  }

  /** The keys `saveTokens` writes or removes. */
  predicate IsSaveTokensKey(k: string) {
    k == ACCESS_TOKEN_KEY || k == REFRESH_TOKEN_KEY || k == EXPIRES_IN_KEY
    || k == TOKEN_TYPE_KEY || k == ACCESS_TOKEN_EXPIRY_ABS_TIME_KEY
  }

  /**
   * The preferences after `saveTokens(accessToken, refreshToken, expiresIn,
   * tokenType)` with the clock reading `now`.
   */
  function SaveTokensPrefs(p: Prefs, accessToken: Option<string>, refreshToken: Option<string>,
                           expiresIn: Option<int>, tokenType: Option<string>, now: int): (r: Prefs)
    ensures StringPref(r, ACCESS_TOKEN_KEY) == accessToken
    ensures StringPref(r, REFRESH_TOKEN_KEY) == refreshToken
    ensures StringPref(r, TOKEN_TYPE_KEY) == tokenType
    // a null expiresIn removes the key, any other value is stored
    ensures (EXPIRES_IN_KEY in r) == expiresIn.Some?
    ensures expiresIn.Some? ==> r[EXPIRES_IN_KEY] == Long(expiresIn.value)
    // the absolute expiry is stored exactly when there is a token and a lifetime
    ensures (ACCESS_TOKEN_EXPIRY_ABS_TIME_KEY in r) == (accessToken.Some? && expiresIn.Some?)
    ensures accessToken.Some? && expiresIn.Some? ==>
      r[ACCESS_TOKEN_EXPIRY_ABS_TIME_KEY] == Long(now + SecondsToMillis(expiresIn.value))
    // no other key changes
    ensures forall k :: !IsSaveTokensKey(k) ==> (k in r <==> k in p) && (k in r ==> r[k] == p[k])
    ensures WellTyped(p) ==> WellTyped(r)
  {
    var p1 := PutString(p, ACCESS_TOKEN_KEY, accessToken);
    var p2 := PutString(p1, REFRESH_TOKEN_KEY, refreshToken);
    var p3 := match expiresIn
      case Some(seconds) => p2[EXPIRES_IN_KEY := Long(seconds)]
      case None => p2 - {EXPIRES_IN_KEY};
    var p4 := PutString(p3, TOKEN_TYPE_KEY, tokenType);
    if accessToken.Some? && expiresIn.Some? then
      p4[ACCESS_TOKEN_EXPIRY_ABS_TIME_KEY := Long(now + SecondsToMillis(expiresIn.value))]
    else
      p4 - {ACCESS_TOKEN_EXPIRY_ABS_TIME_KEY}
  }

  /** The preferences after `saveAccessTokenExpiryTime(expiryTimeMillis)`. */
  function SaveExpiryPrefs(p: Prefs, expiryTimeMillis: int): (r: Prefs)
    ensures LongPref(r, ACCESS_TOKEN_EXPIRY_ABS_TIME_KEY, 0) == expiryTimeMillis
    ensures forall k :: k != ACCESS_TOKEN_EXPIRY_ABS_TIME_KEY ==> (k in r <==> k in p) && (k in r ==> r[k] == p[k])
    ensures WellTyped(p) ==> WellTyped(r)
  {
    p[ACCESS_TOKEN_EXPIRY_ABS_TIME_KEY := Long(expiryTimeMillis)]
  }

  /**
   * Saving the tokens and then an explicit expiry leaves that expiry, whatever
   * the clock read inside `saveTokens`; the other token fields are those
   * `saveTokens` wrote.
   */
  lemma ExplicitExpiryWins(p: Prefs, accessToken: Option<string>, refreshToken: Option<string>,
                           expiresIn: Option<int>, tokenType: Option<string>, now: int, expiryTimeMillis: int)
    ensures var r := SaveExpiryPrefs(SaveTokensPrefs(p, accessToken, refreshToken, expiresIn, tokenType, now), expiryTimeMillis);
      && LongPref(r, ACCESS_TOKEN_EXPIRY_ABS_TIME_KEY, 0) == expiryTimeMillis
      && StringPref(r, ACCESS_TOKEN_KEY) == accessToken
      && StringPref(r, REFRESH_TOKEN_KEY) == refreshToken
      && StringPref(r, TOKEN_TYPE_KEY) == tokenType
  {
    var q := SaveTokensPrefs(p, accessToken, refreshToken, expiresIn, tokenType, now);
    assert StringPref(q, ACCESS_TOKEN_KEY) == accessToken;
  }

  class TokenManager {
    /** The shared-preferences file `spotify_auth_prefs`. */
    var prefs: Prefs

    ghost predicate Valid()
      reads this
    {
      WellTyped(prefs)
    }

    constructor(prefs: Prefs)
      requires WellTyped(prefs)
      ensures Valid() && this.prefs == prefs
    {
      this.prefs := prefs;
    }

    /** `saveTokens`; `now` is the clock reading for the absolute expiry. */
    method SaveTokens(accessToken: Option<string>, refreshToken: Option<string>,
                      expiresIn: Option<int>, tokenType: Option<string>, now: int)
      requires Valid()
      modifies this
      ensures Valid()
      ensures prefs == SaveTokensPrefs(old(prefs), accessToken, refreshToken, expiresIn, tokenType, now)
    {
      var editor := prefs;
      editor := PutString(editor, ACCESS_TOKEN_KEY, accessToken);
      editor := PutString(editor, REFRESH_TOKEN_KEY, refreshToken);
      if expiresIn.Some? {
        editor := editor[EXPIRES_IN_KEY := Long(expiresIn.value)];
      } else {
        editor := editor - {EXPIRES_IN_KEY};
      }
      editor := PutString(editor, TOKEN_TYPE_KEY, tokenType);
      if accessToken.Some? && expiresIn.Some? {
        var absoluteExpiryMillis := now + SecondsToMillis(expiresIn.value);
        editor := editor[ACCESS_TOKEN_EXPIRY_ABS_TIME_KEY := Long(absoluteExpiryMillis)];
      } else {
        editor := editor - {ACCESS_TOKEN_EXPIRY_ABS_TIME_KEY};
      }
      prefs := editor;
    }

    /** `saveAccessTokenExpiryTime`: writes the absolute-expiry key and nothing else. */
    method SaveAccessTokenExpiryTime(expiryTimeMillis: int)
      requires Valid()
      modifies this
      ensures Valid()
      ensures prefs == SaveExpiryPrefs(old(prefs), expiryTimeMillis)
    {
      prefs := prefs[ACCESS_TOKEN_EXPIRY_ABS_TIME_KEY := Long(expiryTimeMillis)];
    }

    /** `getAccessToken`: null exactly when the key is absent from a well-typed file, else its string. */
    function GetAccessToken(): (r: Option<string>)
      reads this
      ensures Valid() ==> (r.Some? <==> ACCESS_TOKEN_KEY in prefs)
      ensures r.Some? ==> ACCESS_TOKEN_KEY in prefs && prefs[ACCESS_TOKEN_KEY] == Str(r.value)
    {
      StringPref(prefs, ACCESS_TOKEN_KEY)
    }

    /** `getRefreshToken`: null exactly when the key is absent from a well-typed file, else its string. */
    function GetRefreshToken(): (r: Option<string>)
      reads this
      ensures Valid() ==> (r.Some? <==> REFRESH_TOKEN_KEY in prefs)
      ensures r.Some? ==> REFRESH_TOKEN_KEY in prefs && prefs[REFRESH_TOKEN_KEY] == Str(r.value)
    {
      StringPref(prefs, REFRESH_TOKEN_KEY)
    }

    /** `getExpiresIn`: null when the key is absent. */
    function GetExpiresIn(): (r: Option<int>)
      reads this
      ensures r.Some? <==> EXPIRES_IN_KEY in prefs
    {
      if EXPIRES_IN_KEY in prefs then Some(LongPref(prefs, EXPIRES_IN_KEY, 0)) else None
    }

    /** `getTokenType`: null exactly when the key is absent from a well-typed file, else its string. */
    function GetTokenType(): (r: Option<string>)
      reads this
      ensures Valid() ==> (r.Some? <==> TOKEN_TYPE_KEY in prefs)
      ensures r.Some? ==> TOKEN_TYPE_KEY in prefs && prefs[TOKEN_TYPE_KEY] == Str(r.value)
    {
      StringPref(prefs, TOKEN_TYPE_KEY)
    }

    /** `getAccessTokenExpiryTime`: 0 when the key is absent. */
    function GetAccessTokenExpiryTime(): (r: int)
      reads this
      ensures ACCESS_TOKEN_EXPIRY_ABS_TIME_KEY !in prefs ==> r == 0
    {
      LongPref(prefs, ACCESS_TOKEN_EXPIRY_ABS_TIME_KEY, 0)
    }

    /** `clearAuthData`: `edit().clear()`. */
    method ClearAuthData()
      modifies this
      ensures Valid() && prefs == map[]
      ensures GetAccessToken().None? && GetRefreshToken().None? && GetExpiresIn().None?
      ensures GetTokenType().None? && GetAccessTokenExpiryTime() == 0
    {
      prefs := map[];
    }
  }
}
