/** The `users` row of the signed-in user's profile and its two conversions. */
module UserEntities {
  import opened Wrappers
  import opened Models

  datatype UserEntity = UserEntity(
    id: string,
    displayName: Option<string>,
    email: Option<string>,
    country: Option<string>,
    spotifyUri: Option<string>,
    spotifyHref: Option<string>,
    profileUrl: Option<string>,
    followersTotal: Option<int>,
    imageUrl: Option<string>,
    lastUpdated: int)

  /** `map?.get(key)`. */
  function Lookup(m: Option<map<string, string>>, key: string): Option<string> {
    if m.Some? && key in m.value then Some(m.value[key]) else None
  }

  /** `UserEntity.fromSpotifyUserProfile(profile)`, with `now` for the clock reading. */
  function FromSpotifyUserProfile(profile: SpotifyUserProfile, now: int): (e: UserEntity)
    ensures e.id == profile.id
    ensures e.profileUrl.Some? <==> profile.externalUrls.Some? && "spotify" in profile.externalUrls.value
    ensures e.profileUrl.Some? ==> e.profileUrl.value == profile.externalUrls.value["spotify"]
    ensures e.followersTotal == if profile.followers.Some? then profile.followers.value.total else None
    ensures e.imageUrl == FirstImageUrl(profile.images)
    ensures e.lastUpdated == now
  {
    UserEntity(
      id := profile.id,
      displayName := profile.displayName,
      email := profile.email,
      country := profile.country,
      spotifyUri := profile.uri,
      spotifyHref := profile.href,
      profileUrl := Lookup(profile.externalUrls, "spotify"),
      followersTotal := match profile.followers
        case Some(f) => f.total
        case None => None,
      imageUrl := FirstImageUrl(profile.images),
      lastUpdated := now)
  }

  /** `UserEntity.toSpotifyUserProfile()`. */
  function ToSpotifyUserProfile(e: UserEntity): (p: SpotifyUserProfile)
    ensures p.id == e.id
    ensures p.kind == Some("user") && p.product.None?
    ensures p.explicitContent == Some(ExplicitContent(Some(false), Some(false)))
    ensures p.externalUrls == if e.profileUrl.Some? then Some(map["spotify" := e.profileUrl.value]) else None
    ensures p.followers == if e.followersTotal.Some? then Some(Followers(None, e.followersTotal)) else None
    ensures p.images == if e.imageUrl.Some? then Some([Image(e.imageUrl, None, None)]) else None
  {
    SpotifyUserProfile(
      id := e.id,
      displayName := e.displayName,
      email := e.email,
      href := e.spotifyHref,
      uri := e.spotifyUri,
      product := None,
      country := e.country,
      followers := match e.followersTotal
        case Some(total) => Some(Followers(None, Some(total)))
        case None => None,
      images := match e.imageUrl
        case Some(url) => Some([Image(Some(url), None, None)])
        case None => None,
      explicitContent := Some(ExplicitContent(Some(false), Some(false))),
      externalUrls := match e.profileUrl
        case Some(url) => Some(map["spotify" := url])
        case None => None,
      kind := Some("user"))
  }

  /** A row survives the trip to a profile and back, apart from its timestamp. */
  lemma RowRoundTrip(e: UserEntity, now: int)
    ensures FromSpotifyUserProfile(ToSpotifyUserProfile(e), now) == e.(lastUpdated := now)
  {
  }

  /** A profile keeps every stored field through the row. */
  lemma ProfileRoundTrip(p: SpotifyUserProfile, now: int)
    ensures var q := ToSpotifyUserProfile(FromSpotifyUserProfile(p, now));
      && q.id == p.id && q.displayName == p.displayName && q.email == p.email
      && q.country == p.country && q.uri == p.uri && q.href == p.href
      && Lookup(q.externalUrls, "spotify") == Lookup(p.externalUrls, "spotify")
      && (q.followers.Some? ==> q.followers.value.total == p.followers.value.total)
      && FirstImageUrl(q.images) == FirstImageUrl(p.images)
  {
  }
}
