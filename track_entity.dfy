/**
 * The `tracks` row of a saved track and its two conversions. The artists are
 * flattened into two comma-joined columns, one of ids and one of names, and
 * rebuilt by splitting both columns and pairing the fields up.
 */
module TrackEntities {
  import opened Wrappers
  import opened Text
  import opened Models

  datatype TrackEntity = TrackEntity(
    id: string,
    name: string,
    albumId: Option<string>,
    albumName: Option<string>,
    albumImageUrl: Option<string>,
    artistIds: Option<string>,
    artistNames: Option<string>,
    durationMs: Option<int>,
    explicit: Option<bool>,
    trackNumber: Option<int>,
    discNumber: Option<int>,
    previewUrl: Option<string>,
    spotifyUri: Option<string>,
    isLocal: Option<bool>,
    isPlayable: Option<bool>,
    lastUpdated: int)

  function ArtistIds(artists: seq<Artist>): (r: seq<string>)
    ensures |r| == |artists| && forall i :: 0 <= i < |r| ==> r[i] == artists[i].id
  {
    seq(|artists|, i requires 0 <= i < |artists| => artists[i].id)
  }

  function ArtistNames(artists: seq<Artist>): (r: seq<string>)
    ensures |r| == |artists| && forall i :: 0 <= i < |r| ==> r[i] == artists[i].name
  {
    seq(|artists|, i requires 0 <= i < |artists| => artists[i].name)
  }

  /** `TrackEntity.fromTrack(track)`, with `now` for the clock reading. */
  function FromTrack(track: Track, now: int): (e: TrackEntity)
    ensures e.id == track.id && e.name == track.name
    ensures e.artistIds == Some(JoinToString(ArtistIds(track.artists), ","))
    ensures e.artistNames == Some(JoinToString(ArtistNames(track.artists), ","))
    ensures e.albumImageUrl == FirstImageUrl(track.album.images)
    ensures e.lastUpdated == now
  {
    TrackEntity(
      id := track.id,
      name := track.name,
      albumId := Some(track.album.id),
      albumName := Some(track.album.name),
      albumImageUrl := FirstImageUrl(track.album.images),
      artistIds := Some(JoinToString(ArtistIds(track.artists), ",")),
      artistNames := Some(JoinToString(ArtistNames(track.artists), ",")),
      durationMs := Some(track.durationMs),
      explicit := Some(track.explicit),
      trackNumber := track.trackNumber,
      discNumber := track.discNumber,
      previewUrl := track.previewUrl,
      spotifyUri := Some(track.uri),
      isLocal := Some(track.isLocal),
      isPlayable := track.isPlayable,
      lastUpdated := now)
  }

  /** One converted track per network track, in order, all with the same clock reading. */
  function FromTracks(tracks: seq<Track>, now: int): (r: seq<TrackEntity>)
    ensures |r| == |tracks| && forall i :: 0 <= i < |r| ==> r[i] == FromTrack(tracks[i], now)
  {
    seq(|tracks|, i requires 0 <= i < |tracks| => FromTrack(tracks[i], now))
  }

  /** An artist rebuilt from a stored id and name: nothing else was kept. */
  function StoredArtist(id: string, name: string): Artist {
    Artist(id, name, None, None, None, Some("artist"))
  }

  /** `ids.zip(names).map { StoredArtist }`: as many artists as the shorter list. */
  function ZipArtists(ids: seq<string>, names: seq<string>): (r: seq<Artist>)
    ensures |r| == if |ids| <= |names| then |ids| else |names|
    ensures forall i :: 0 <= i < |r| ==> r[i] == StoredArtist(ids[i], names[i])
  {
    var n := if |ids| <= |names| then |ids| else |names|;
    seq(n, i requires 0 <= i < n => StoredArtist(ids[i], names[i]))
  }

  /** Kotlin's `isNullOrEmpty`. */
  predicate IsNullOrEmpty(s: Option<string>) {
    s.None? || s.value == ""
  }

  /** The artists `toTrack` rebuilds from the two joined columns. */
  function StoredArtists(e: TrackEntity): (r: seq<Artist>)
    ensures IsNullOrEmpty(e.artistIds) || IsNullOrEmpty(e.artistNames) ==> r == []
  {
    if !IsNullOrEmpty(e.artistIds) && !IsNullOrEmpty(e.artistNames) then
      ZipArtists(Split(e.artistIds.value, ','), Split(e.artistNames.value, ','))
    else
      []
  }

  /** The album `toTrack` rebuilds: id, name and at most the one stored image. */
  function StoredAlbum(e: TrackEntity): Album {
    Album(
      id := e.albumId.GetOr(""),
      name := e.albumName.GetOr("Unknown Album"),
      kind := "album",
      uri := None,
      href := None,
      images := Some(match e.albumImageUrl
        case Some(url) => [Image(Some(url), None, None)]
        case None => []),
      artists := Some([]),
      albumType := None,
      totalTracks := None,
      availableMarkets := None,
      releaseDate := None,
      releaseDatePrecision := None,
      externalUrls := None)
  }

  /** `TrackEntity.toTrack()`. */
  function ToTrack(e: TrackEntity): (t: Track)
    ensures t.id == e.id && t.name == e.name
    ensures t.durationMs == e.durationMs.GetOr(0)
    ensures t.explicit == e.explicit.GetOr(false)
    ensures t.isLocal == e.isLocal.GetOr(false)
    ensures t.uri == e.spotifyUri.GetOr("")
    ensures t.album.id == e.albumId.GetOr("") && t.album.name == e.albumName.GetOr("Unknown Album")
    ensures t.album.images == Some(if e.albumImageUrl.Some? then [Image(e.albumImageUrl, None, None)] else [])
    ensures t.externalUrls == if e.previewUrl.Some? then Some(ExternalUrls(e.previewUrl)) else None
    ensures t.popularity.None? && t.href.None? && t.availableMarkets.None?
    ensures t.linkedFrom.None? && t.externalIds.None?
    ensures t.kind == "track"
    ensures t.artists == StoredArtists(e)
    ensures |t.artists| <= |Split(e.artistIds.GetOr(""), ',')|
  {
    var album := StoredAlbum(e);
    Track(
      id := e.id,
      name := e.name,
      artists := StoredArtists(e),
      album := album,
      durationMs := e.durationMs.GetOr(0),
      explicit := e.explicit.GetOr(false),
      popularity := None,
      previewUrl := e.previewUrl,
      uri := e.spotifyUri.GetOr(""),
      href := None,
      kind := "track",
      externalUrls := match e.previewUrl
        case Some(url) => Some(ExternalUrls(Some(url)))
        case None => None,
      isLocal := e.isLocal.GetOr(false),
      availableMarkets := None,
      discNumber := e.discNumber,
      trackNumber := e.trackNumber,
      isPlayable := e.isPlayable,
      linkedFrom := None,
      externalIds := None)
  }

  /**
   * The artists of a track survive the round trip through the row when no
   * id or name holds a comma and the joined columns are not empty (which,
   * for a single artist, means its id and name are not empty).
   */
  ghost predicate ArtistsStorable(artists: seq<Artist>) {
    && (forall i :: 0 <= i < |artists| ==> ',' !in artists[i].id && ',' !in artists[i].name)
    && (|artists| == 1 ==> artists[0].id != "" && artists[0].name != "")
  }

  /** A joined column is empty only for no parts, or one empty part. */
  lemma JoinEmpty(xs: seq<string>, sep: string)
    requires |sep| > 0
    ensures JoinToString(xs, sep) == "" <==> |xs| == 0 || (|xs| == 1 && xs[0] == "")
  {
    if |xs| > 1 {
      assert |JoinToString(xs, sep)| >= |sep|;
    }
  }

  /** `fromTrack` then `toTrack` gives back the artists' ids and names, in order. */
  lemma ArtistsRoundTrip(track: Track, now: int)
    requires ArtistsStorable(track.artists)
    ensures |ToTrack(FromTrack(track, now)).artists| == |track.artists|
    ensures forall i :: 0 <= i < |track.artists| ==>
      ToTrack(FromTrack(track, now)).artists[i] == StoredArtist(track.artists[i].id, track.artists[i].name)
  {
    var e := FromTrack(track, now);
    var ids := ArtistIds(track.artists);
    var names := ArtistNames(track.artists);
    JoinEmpty(ids, ",");
    JoinEmpty(names, ",");
    if |track.artists| > 0 {
      SplitJoin(ids, ',');
      SplitJoin(names, ',');
    }
  }

  /** A comma inside an artist's name splits it and shifts the names against the ids. */
  lemma CommaInNameShiftsArtists(track: Track, now: int)
    requires track.artists == [Artist("a1", "Tyler, The Creator", None, None, None, None),
                               Artist("a2", "Kali", None, None, None, None)]
    ensures ToTrack(FromTrack(track, now)).artists == [StoredArtist("a1", "Tyler"), StoredArtist("a2", " The Creator")]
  {
    var e := FromTrack(track, now);
    assert ArtistIds(track.artists) == ["a1", "a2"];
    assert ArtistNames(track.artists) == ["Tyler, The Creator", "Kali"];
    SplitJoin(["a1", "a2"], ',');
    SplitCommaName();
  }

  /** The first of two joined parts holds one delimiter: three fields come back. */
  lemma SplitTwoWithInnerDelimiter(a: string, b: string, c: string, d: char)
    requires d !in a && d !in b && d !in c
    ensures Split(JoinToString([a + [d] + b, c], [d]), d) == [a, b, c]
  {
    assert [a + [d] + b, c][1..] == [c];
    assert JoinToString([a + [d] + b, c], [d]) == a + [d] + (b + [d] + c);
    SplitFirstField(a, d, b + [d] + c);
    SplitFirstField(b, d, c);
    SplitWithoutDelimiter(c, d);
  }

  lemma SplitCommaName()
    ensures Split(JoinToString(["Tyler, The Creator", "Kali"], ","), ',') == ["Tyler", " The Creator", "Kali"]
  {
    var a, b, c := "Tyler", " The Creator", "Kali";
    assert "Tyler, The Creator" == a + [','] + b;
    assert "," == [','];
    SplitTwoWithInnerDelimiter(a, b, c, ',');
  }

  /** The fields a row stores come back unchanged, and the first album image url too. */
  lemma StoredFieldsRoundTrip(track: Track, now: int)
    ensures var t := ToTrack(FromTrack(track, now));
      && t.id == track.id && t.name == track.name
      && t.album.id == track.album.id && t.album.name == track.album.name
      && FirstImageUrl(t.album.images) == FirstImageUrl(track.album.images)
      && t.durationMs == track.durationMs && t.explicit == track.explicit
      && t.popularity.None?
      && t.previewUrl == track.previewUrl && t.uri == track.uri
      && t.isLocal == track.isLocal && t.discNumber == track.discNumber
      && t.trackNumber == track.trackNumber && t.isPlayable == track.isPlayable
  {
  }
}
