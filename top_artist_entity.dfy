/** The `top_artists` row of one of the user's most-played artists. */
module TopArtistEntities {
  import opened Wrappers
  import opened Models

  datatype TopArtistEntity = TopArtistEntity(
    id: string,
    name: string,
    imageUrl: Option<string>,
    spotifyUri: Option<string>,
    spotifyHref: Option<string>,
    genres: Option<string>,
    popularity: Option<int>,
    lastUpdated: int)

  /** `TopArtistEntity.fromArtist(artist)`, with `now` for the clock reading. */
  function FromArtist(artist: Artist, now: int): (e: TopArtistEntity)
    ensures e.id == artist.id && e.name == artist.name
    ensures e.spotifyUri == artist.uri && e.spotifyHref == artist.href
    ensures e.imageUrl.None? && e.genres.None? && e.popularity.None?
    ensures e.lastUpdated == now
  {
    TopArtistEntity(
      id := artist.id,
      name := artist.name,
      imageUrl := None,
      spotifyUri := artist.uri,
      spotifyHref := artist.href,
      genres := None,
      popularity := None,
      lastUpdated := now)
  }

  /** One converted artist per network artist, in order. */
  function FromArtists(artists: seq<Artist>, now: int): (r: seq<TopArtistEntity>)
    ensures |r| == |artists| && forall i :: 0 <= i < |r| ==> r[i] == FromArtist(artists[i], now)
  {
    seq(|artists|, i requires 0 <= i < |artists| => FromArtist(artists[i], now))
  }
}
