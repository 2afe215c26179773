/**
 * The home screen's state holder: the signed-in user's profile as the
 * profile repository emits it, a loading flag, an error message and the
 * session status. The two coroutines `init` launches are run one after
 * the other here: the status check, then the profile collection.
 */
module HomeViewModels {
  import opened Wrappers
  import opened Models
  import opened UserEntities
  import opened UserDaos
  import opened UserRepositories
  import opened TokenManagers
  import opened AuthRepositories
  import AuthAuthenticators

  datatype AuthStatus = Loading | Authenticated | Unauthenticated

  const PROFILE_ERROR: string := "Failed to load profile. Is user logged in?"

  datatype HomeState = HomeState(
    userProfile: Option<UserEntity>,
    profileLoading: bool,
    profileError: Option<string>,
    authStatus: AuthStatus)

  /** The field initialisers. */
  function InitialHome(): HomeState {
    HomeState(None, false, None, Loading)
  }

  /** The status the token store implies. */
  function StatusFor(authenticated: bool): (r: AuthStatus)
    ensures r != Loading
  {
    if authenticated then Authenticated else Unauthenticated
  }

  /**
   * The `collect` block for one emitted user; `authenticated` is what
   * `isAuthenticated()` says at that moment.
   */
  function OnProfileState(s: HomeState, user: Option<UserEntity>, authenticated: bool): (r: HomeState)
    ensures r.userProfile == user && !r.profileLoading
    ensures r.profileError.Some? <==> user.None?
    ensures r.authStatus != Loading
    ensures user.Some? ==> r.authStatus == Authenticated
  {
    if user.None? then
      s.(userProfile := user, profileLoading := false, profileError := Some(PROFILE_ERROR),
         authStatus := StatusFor(authenticated))
    else
      s.(userProfile := user, profileLoading := false, profileError := None, authStatus := Authenticated)
  }

  /** Every emitted user collected in turn. */
  function AfterProfiles(s: HomeState, emissions: seq<Option<UserEntity>>, authenticated: bool): HomeState
    decreases |emissions|
  {
    if emissions == [] then s else AfterProfiles(OnProfileState(s, emissions[0], authenticated), emissions[1..], authenticated)
  }

  /** Each emission overwrites the whole state, so only the last one matters. */
  lemma {:induction false} LastProfileDecides(s: HomeState, emissions: seq<Option<UserEntity>>, authenticated: bool)
    requires emissions != []
    ensures AfterProfiles(s, emissions, authenticated) == OnProfileState(s, emissions[|emissions| - 1], authenticated)
    decreases |emissions|
  {
    if |emissions| > 1 {
      LastProfileDecides(OnProfileState(s, emissions[0], authenticated), emissions[1..], authenticated);
    }
  }

  class HomeViewModel {
    const authRepository: AuthRepository
    const userRepository: UserRepository
    var userProfile: Option<UserEntity>
    var profileLoading: bool
    var profileError: Option<string>
    var authStatus: AuthStatus

    function State(): HomeState
      reads this
    {
      HomeState(userProfile, profileLoading, profileError, authStatus)
    }

    constructor(authRepository: AuthRepository, userRepository: UserRepository)
      ensures this.authRepository == authRepository && this.userRepository == userRepository
      ensures State() == InitialHome()
    {
      this.authRepository := authRepository;
      this.userRepository := userRepository;
      userProfile := None;
      profileLoading := false;
      profileError := None;
      authStatus := Loading;
    }

    /** The first coroutine of `init`: the status from the token store. */
    method CheckAuthStatus()
      modifies this
      ensures State() == old(State()).(authStatus := StatusFor(authRepository.IsAuthenticated()))
    {
      if authRepository.IsAuthenticated() {
        authStatus := Authenticated;
      } else {
        authStatus := Unauthenticated;
      }
    }

    method OnProfile(user: Option<UserEntity>)
      modifies this
      ensures State() == OnProfileState(old(State()), user, authRepository.IsAuthenticated())
    {
      userProfile := user;
      profileLoading := false;
      if user.None? {
        profileError := Some(PROFILE_ERROR);
        if authRepository.IsAuthenticated() {
          authStatus := Authenticated;
        } else {
          authStatus := Unauthenticated;
        }
      } else {
        profileError := None;
        authStatus := Authenticated;
      }
    }

    /** The emissions of one run of the profile flow, collected in turn. */
    method CollectProfiles(emissions: seq<Option<UserEntity>>)
      modifies this
      ensures State() == AfterProfiles(old(State()), emissions, authRepository.IsAuthenticated())
    {
      var i := 0;
      while i < |emissions|
        invariant 0 <= i <= |emissions|
        invariant AfterProfiles(State(), emissions[i..], authRepository.IsAuthenticated())
          == AfterProfiles(old(State()), emissions, authRepository.IsAuthenticated())
      {
        assert emissions[i..][1..] == emissions[i + 1..];
        OnProfile(emissions[i]);
        i := i + 1;
      }
    }

    /**
     * The second coroutine of `init`: loading on, then collect
     * `getCurrentUserProfile()`. `unauthorized` is the token endpoint when
     * the profile request was first answered 401, so that the client's
     * authenticator ran the refresh grant before `reply` came back;
     * `refreshNow` and `storeNow` are that refresh's clock readings and
     * `now` the one stamped on the stored user. A fetched profile
     * ends up shown with the session authenticated; without one, a cached
     * user is shown, and with no cached user the error is shown and the
     * status follows the store as the fetch left it.
     */
    method StartProfileCollection(reply: ServiceResult<SpotifyUserProfile>, unauthorized: Option<string -> TokenReply>,
                                  now: int, refreshNow: int, storeNow: int)
      requires userRepository.userDao.Valid() && authRepository.Valid()
      modifies this, userRepository.userDao, authRepository, authRepository.tokenManager
      ensures userRepository.userDao.Valid() && authRepository.Valid()
      // without a 401 the token store and the cache are untouched
      ensures unauthorized.None? ==>
        && authRepository.tokenManager.prefs == old(authRepository.tokenManager.prefs)
        && authRepository.currentAccessToken == old(authRepository.currentAccessToken)
        && authRepository.accessTokenExpiryTimeMillis == old(authRepository.accessTokenExpiryTimeMillis)
        && authRepository.refreshCalls == old(authRepository.refreshCalls)
      // a 401 runs one refresh, which signs out on a missing or rejected refresh token
      ensures unauthorized.Some? ==>
        && authRepository.refreshCalls == old(authRepository.refreshCalls) + 1
        && (old(authRepository.tokenManager.GetRefreshToken()).None?
            || InvalidGrant(unauthorized.value(old(authRepository.tokenManager.GetRefreshToken()).value)) ==>
              authRepository.tokenManager.prefs == map[] && !authRepository.IsAuthenticated())
        // a granted refresh stores the new token, so the session stays signed in
        && (AuthAuthenticators.RefreshGranted(old(authRepository.tokenManager.GetRefreshToken()), unauthorized.value) ==>
              authRepository.IsAuthenticated())
        // a refresh that neither succeeds nor is rejected leaves the store alone
        && (old(authRepository.tokenManager.GetRefreshToken()).Some?
            && !AuthAuthenticators.RefreshGranted(old(authRepository.tokenManager.GetRefreshToken()), unauthorized.value)
            && !InvalidGrant(unauthorized.value(old(authRepository.tokenManager.GetRefreshToken()).value)) ==>
              && authRepository.tokenManager.prefs == old(authRepository.tokenManager.prefs)
              && authRepository.currentAccessToken == old(authRepository.currentAccessToken))
      ensures reply.Returned? && reply.value.Some? ==>
        var entity := FromSpotifyUserProfile(reply.value.value, now);
        && userRepository.userDao.rows == old(userRepository.userDao.rows)[entity.id := entity]
        && State() == old(State()).(userProfile := Some(entity), profileLoading := false,
                                    profileError := None, authStatus := Authenticated)
      ensures !(reply.Returned? && reply.value.Some?) ==>
        && userRepository.userDao.rows == old(userRepository.userDao.rows)
        && !profileLoading
        && (old(userRepository.userDao.rows) == map[] ==>
              State() == old(State()).(userProfile := None, profileLoading := false,
                                       profileError := Some(PROFILE_ERROR),
                                       authStatus := StatusFor(authRepository.IsAuthenticated())))
        && (old(userRepository.userDao.rows) != map[] ==>
              && userProfile.Some? && userProfile.value.id in old(userRepository.userDao.rows)
              && old(userRepository.userDao.rows)[userProfile.value.id] == userProfile.value
              && profileError.None? && authStatus == Authenticated)
    {
      profileLoading := true;
      if unauthorized.Some? {
        var _ := authRepository.RefreshAccessToken(unauthorized.value, refreshNow, storeNow);
      }
      var emissions := userRepository.GetCurrentUserProfile(reply, now);
      ghost var started := State();
      CollectProfiles(emissions);
      LastProfileDecides(started, emissions, authRepository.IsAuthenticated());
    }

    /** `refreshUserProfile`: only the loading flag changes. */
    method RefreshUserProfile()
      modifies this
      ensures State() == old(State()).(profileLoading := true)
    {
      profileLoading := true;
    }

    /** `logout`: forget the tokens and the cached user, and show the signed-out state. */
    method Logout()
      requires authRepository.Valid()
      modifies this, authRepository, authRepository.tokenManager, userRepository.userDao
      ensures authRepository.Valid() && userRepository.userDao.Valid()
      ensures authRepository.tokenManager.prefs == map[] && !authRepository.IsAuthenticated()
      ensures authRepository.currentAccessToken.None?
      ensures userRepository.userDao.rows == map[]
      ensures State() == old(State()).(userProfile := None, profileError := None, authStatus := Unauthenticated)
    {
      authRepository.ClearAllTokens();
      userRepository.ClearUserData();
      userProfile := None;
      profileError := None;
      authStatus := Unauthenticated;
    }
  }
}
