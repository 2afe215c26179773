/** The `playlists` row of one of the user's playlists and its two conversions. */
module PlaylistEntities {
  import opened Wrappers
  import opened Models

  datatype PlaylistEntity = PlaylistEntity(
    id: string,
    name: string,
    description: Option<string>,
    collaborative: bool,
    isPublic: bool,
    ownerId: string,
    ownerDisplayName: Option<string>,
    playlistUrl: Option<string>,
    imageUrl: Option<string>,
    totalTracks: int,
    lastUpdated: int)

  /** `PlaylistEntity.fromSimplifiedPlaylist(playlist)`, with `now` for the clock reading. */
  function FromSimplifiedPlaylist(playlist: SimplifiedPlaylist, now: int): (e: PlaylistEntity)
    ensures e.id == playlist.id && e.name == playlist.name
    ensures e.isPublic <==> playlist.isPublic == Some(true)
    ensures e.imageUrl == FirstImageUrl(playlist.images)
    ensures e.playlistUrl == if playlist.externalUrls.Some? then playlist.externalUrls.value.spotify else None
    ensures e.totalTracks == playlist.tracks.total
    ensures e.lastUpdated == now
  {
    PlaylistEntity(
      id := playlist.id,
      name := playlist.name,
      description := playlist.description,
      collaborative := playlist.collaborative,
      isPublic := playlist.isPublic.GetOr(false),
      ownerId := playlist.owner.id,
      ownerDisplayName := playlist.owner.displayName,
      playlistUrl := match playlist.externalUrls
        case Some(urls) => urls.spotify
        case None => None,
      imageUrl := FirstImageUrl(playlist.images),
      totalTracks := playlist.tracks.total,
      lastUpdated := now)
  }

  /** One converted playlist per network playlist, in order. */
  function FromSimplifiedPlaylists(playlists: seq<SimplifiedPlaylist>, now: int): (r: seq<PlaylistEntity>)
    ensures |r| == |playlists| && forall i :: 0 <= i < |r| ==> r[i] == FromSimplifiedPlaylist(playlists[i], now)
  {
    seq(|playlists|, i requires 0 <= i < |playlists| => FromSimplifiedPlaylist(playlists[i], now))
  }

  /** `PlaylistEntity.toSimplifiedPlaylist()`. */
  function ToSimplifiedPlaylist(e: PlaylistEntity): (p: SimplifiedPlaylist)
    ensures p.id == e.id && p.name == e.name
    ensures p.kind == "playlist" && p.uri == "" && p.tracks == TracksInfo("", e.totalTracks)
    ensures p.href.None? && p.snapshotId.None?
    ensures p.owner == User(e.ownerId, e.ownerDisplayName, None, None, None, None)
    ensures p.images == if e.imageUrl.Some? then Some([Image(e.imageUrl, None, None)]) else None
    ensures p.isPublic == Some(e.isPublic)
  {
    SimplifiedPlaylist(
      id := e.id,
      name := e.name,
      description := e.description,
      collaborative := e.collaborative,
      isPublic := Some(e.isPublic),
      images := match e.imageUrl
        case Some(url) => Some([Image(Some(url), None, None)])
        case None => None,
      owner := User(e.ownerId, e.ownerDisplayName, None, None, None, None),
      uri := "",
      href := None,
      externalUrls := match e.playlistUrl
        case Some(url) => Some(ExternalUrls(Some(url)))
        case None => None,
      kind := "playlist",
      tracks := TracksInfo("", e.totalTracks),
      snapshotId := None)
  }

  /** A row survives the trip to a playlist object and back, apart from its timestamp. */
  lemma RowRoundTrip(e: PlaylistEntity, now: int)
    ensures FromSimplifiedPlaylist(ToSimplifiedPlaylist(e), now) == e.(lastUpdated := now)
  {
  }

  /** A playlist object keeps every stored field through the row, with a null `public` read as false. */
  lemma PlaylistRoundTrip(p: SimplifiedPlaylist, now: int)
    ensures var q := ToSimplifiedPlaylist(FromSimplifiedPlaylist(p, now));
      && q.id == p.id && q.name == p.name && q.description == p.description
      && q.collaborative == p.collaborative
      && q.isPublic == Some(p.isPublic.GetOr(false))
      && q.owner.id == p.owner.id && q.owner.displayName == p.owner.displayName
      && FirstImageUrl(q.images) == FirstImageUrl(p.images)
      && q.tracks.total == p.tracks.total
      && (if q.externalUrls.Some? then q.externalUrls.value.spotify else None)
         == (if p.externalUrls.Some? then p.externalUrls.value.spotify else None)
  {
  }
}
