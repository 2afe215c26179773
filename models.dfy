/**
 * The Spotify Web API objects the application receives (as Gson decodes
 * them) and the outcome of a call into a service the model does not see.
 * A Kotlin nullable field is an `Option`; `Int` and `Long` fields are `int`.
 */
module Models {
  import opened Wrappers

  datatype ExternalUrls = ExternalUrls(spotify: Option<string>)

  datatype Image = Image(url: Option<string>, height: Option<int>, width: Option<int>)

  datatype Artist = Artist(
    id: string,
    name: string,
    href: Option<string>,
    uri: Option<string>,
    externalUrls: Option<ExternalUrls>,
    kind: Option<string>)

  datatype Album = Album(
    id: string,
    name: string,
    kind: string,
    uri: Option<string>,
    href: Option<string>,
    images: Option<seq<Image>>,
    artists: Option<seq<Artist>>,
    albumType: Option<string>,
    totalTracks: Option<int>,
    availableMarkets: Option<seq<string>>,
    releaseDate: Option<string>,
    releaseDatePrecision: Option<string>,
    externalUrls: Option<ExternalUrls>)

  datatype ExternalIds = ExternalIds(isrc: Option<string>, ean: Option<string>, upc: Option<string>)

  datatype LinkedFrom = LinkedFrom(externalUrls: ExternalUrls, href: string, id: string, kind: string, uri: string)

  datatype Track = Track(
    id: string,
    name: string,
    artists: seq<Artist>,
    album: Album,
    durationMs: int,
    explicit: bool,
    popularity: Option<int>,
    previewUrl: Option<string>,
    uri: string,
    href: Option<string>,
    kind: string,
    externalUrls: Option<ExternalUrls>,
    isLocal: bool,
    availableMarkets: Option<seq<string>>,
    discNumber: Option<int>,
    trackNumber: Option<int>,
    isPlayable: Option<bool>,
    linkedFrom: Option<LinkedFrom>,
    externalIds: Option<ExternalIds>)

  /** The public user object that owns a playlist. */
  datatype User = User(
    id: string,
    displayName: Option<string>,
    href: Option<string>,
    uri: Option<string>,
    externalUrls: Option<ExternalUrls>,
    kind: Option<string>)

  datatype TracksInfo = TracksInfo(href: string, total: int)

  datatype SimplifiedPlaylist = SimplifiedPlaylist(
    id: string,
    name: string,
    description: Option<string>,
    collaborative: bool,
    isPublic: Option<bool>,
    images: Option<seq<Image>>,
    owner: User,
    uri: string,
    href: Option<string>,
    externalUrls: Option<ExternalUrls>,
    kind: string,
    tracks: TracksInfo,
    snapshotId: Option<string>)

  datatype Followers = Followers(href: Option<string>, total: Option<int>)

  datatype ExplicitContent = ExplicitContent(filterEnabled: Option<bool>, filterLocked: Option<bool>)

  datatype SpotifyUserProfile = SpotifyUserProfile(
    id: string,
    displayName: Option<string>,
    email: Option<string>,
    href: Option<string>,
    uri: Option<string>,
    product: Option<string>,
    country: Option<string>,
    followers: Option<Followers>,
    images: Option<seq<Image>>,
    explicitContent: Option<ExplicitContent>,
    externalUrls: Option<map<string, string>>,
    kind: Option<string>)

  /**
   * A page of a Spotify list endpoint; it is the shape of
   * `PlaylistResponse`, `TopArtistsResponse`, `TopTracksResponse` and
   * `TracksSearchResult` alike.
   */
  datatype Paging<T> = Paging(
    href: string,
    items: seq<T>,
    limit: int,
    next: Option<string>,
    offset: int,
    previous: Option<string>,
    total: int)

  /** The `limit` and `offset` query parameters of a paged endpoint. */
  datatype Page = Page(limit: int, offset: int)

  /** The query of a top-items endpoint: `time_range`, `limit` and `offset`. */
  datatype TopQuery = TopQuery(timeRange: string, limit: int, offset: int)

  datatype SpotifySearchResponse = SpotifySearchResponse(tracks: Option<Paging<Track>>)

  /** The body of a successful refresh-token grant. */
  datatype RefreshTokenResponse = RefreshTokenResponse(
    accessToken: string,
    tokenType: string,
    expiresIn: int,
    scope: Option<string>)

  /** What the application reports after an authorization-code exchange. */
  datatype AuthResponse = AuthResponse(
    accessToken: string,
    tokenType: Option<string>,
    expiresIn: int,
    refreshToken: Option<string>,
    scope: Option<string>)

  datatype GeneratedSongSuggestion = GeneratedSongSuggestion(
    trackId: Option<string>,
    trackName: string,
    artistNames: string,
    albumImageUrl: Option<string>,
    aiDescription: string)

  datatype AIGeneratedPlaylist = AIGeneratedPlaylist(
    name: string,
    description: string,
    songs: seq<GeneratedSongSuggestion>)

  /**
   * The outcome of a suspending call into code outside the model: it
   * returned a value (possibly null) or it threw.
   */
  datatype ServiceResult<T> = Returned(value: Option<T>) | Threw(message: Option<string>)

  /** `list.firstOrNull()?.url` over a nullable image list. */
  function FirstImageUrl(images: Option<seq<Image>>): (r: Option<string>)
    ensures images.None? || images.value == [] ==> r.None?
  {
    match images
    case None => None
    case Some(list) => if list == [] then None else list[0].url
  }
}
