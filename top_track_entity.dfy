/** The `top_tracks` row of one of the user's most-played tracks. */
module TopTrackEntities {
  import opened Wrappers
  import opened Text
  import opened Models
  import TrackEntities

  datatype TopTrackEntity = TopTrackEntity(
    id: string,
    name: string,
    artistNames: Option<string>,
    albumName: Option<string>,
    albumImageUrl: Option<string>,
    durationMs: int,
    explicit: bool,
    popularity: Option<int>,
    previewUrl: Option<string>,
    spotifyUri: Option<string>,
    spotifyHref: Option<string>,
    lastUpdated: int)

  /** `TopTrackEntity.fromTrack(track)`, with `now` for the clock reading. */
  function FromTrack(track: Track, now: int): (e: TopTrackEntity)
    ensures e.id == track.id && e.name == track.name
    ensures e.artistNames == Some(JoinToString(TrackEntities.ArtistNames(track.artists), ", "))
    ensures e.durationMs == track.durationMs && e.explicit == track.explicit
    ensures e.popularity == track.popularity && e.previewUrl == track.previewUrl
    ensures e.spotifyUri == Some(track.uri) && e.spotifyHref == track.href
    ensures e.albumName == Some(track.album.name)
    ensures e.albumImageUrl == FirstImageUrl(track.album.images)
    ensures e.lastUpdated == now
  {
    TopTrackEntity(
      id := track.id,
      name := track.name,
      artistNames := Some(JoinToString(TrackEntities.ArtistNames(track.artists), ", ")),
      albumName := Some(track.album.name),
      albumImageUrl := FirstImageUrl(track.album.images),
      durationMs := track.durationMs,
      explicit := track.explicit,
      popularity := track.popularity,
      previewUrl := track.previewUrl,
      spotifyUri := Some(track.uri),
      spotifyHref := track.href,
      lastUpdated := now)
  }

  /** One converted track per network track, in order. */
  function FromTracks(tracks: seq<Track>, now: int): (r: seq<TopTrackEntity>)
    ensures |r| == |tracks| && forall i :: 0 <= i < |r| ==> r[i] == FromTrack(tracks[i], now)
  {
    seq(|tracks|, i requires 0 <= i < |tracks| => FromTrack(tracks[i], now))
  }

  /**
   * The artist names are joined with ", ", one character longer per pair of
   * artists than the "," of a saved-track row, so for two or more artists
   * the two columns never agree.
   */
  lemma ArtistNamesDifferFromSavedTrack(track: Track, now: int)
    requires |track.artists| >= 2
    ensures var saved := TrackEntities.FromTrack(track, now).artistNames.value;
      var top := FromTrack(track, now).artistNames.value;
      |top| == |saved| + |track.artists| - 1 && top != saved
  {
    var names := TrackEntities.ArtistNames(track.artists);
    JoinLength(names, ",");
    JoinLength(names, ", ");
  }

  /** With at most one artist the two encodings coincide. */
  lemma ArtistNamesAgreeForOneArtist(track: Track, now: int)
    requires |track.artists| <= 1
    ensures FromTrack(track, now).artistNames == TrackEntities.FromTrack(track, now).artistNames
  {
  }
}
