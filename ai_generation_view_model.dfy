/**
 * The AI playlist screen's state holder. It keeps the user's top artists
 * and tracks as their repositories emit them, builds a prompt from them,
 * classifies what the language model returned, and turns an answer into
 * a playlist whose songs are looked up on Spotify one by one.
 *
 * The language model call, the song pattern and the Spotify search are
 * parameters: `gemini` maps the prompt to the raw text (or null),
 * `matches` gives the (title, artists, reasoning) groups the song pattern
 * finds in that text, in order, and `search` is
 * `SpotifyUserService.searchTracks(query, limit)`.
 */
module AIGenerationViewModels {
  import opened Wrappers
  import opened Text
  import opened Tables
  import opened Models
  import opened TopArtistEntities
  import opened TopTrackEntities
  import opened TopArtistDaos
  import opened TopTrackDaos
  import opened TopArtistRepositories
  import opened TopTrackRepositories

  const NO_TASTE_ERROR: string :=
    "No top artists or tracks available to generate ideas. Please listen to more music on Spotify."
  const EMPTY_RESULT_ERROR: string := "Gemini API returned empty or malformed content."
  const ERROR_PREFIX: string := "Error:"
  const NO_ARTISTS: string := "No top artists available."
  const NO_TRACKS: string := "No top tracks available."
  const NO_REQUEST: string := "No additional request."
  const DEFAULT_NAME: string := "Generated Playlist"
  const DEFAULT_DESCRIPTION: string := "A playlist generated by AI based on your taste."
  const NAME_MARKER: string := "## Playlist Name: "
  const DESCRIPTION_MARKER: string := "Description: "
  /** How many artists and tracks the prompt names. */
  const PROMPT_ITEMS: nat := 10
  /** Both searches ask for a single track. */
  const SEARCH_LIMIT: int := 1
  /** Kotlin's `Int.MAX_VALUE`, the width assumed for an image without one. */
  const INT_MAX: int := 0x7fff_ffff

  // -----------------------------------------------------------------------
  // The prompt
  // -----------------------------------------------------------------------

  /** The three values the prompt template interpolates. */
  datatype Prompt = Prompt(topArtists: string, topTracks: string, request: string)

  /** `ifEmpty { fallback }`. */
  function IfEmpty(s: string, fallback: string): (r: string)
    ensures s != [] ==> r == s
  {
    if s == [] then fallback else s
  }

  /** A nullable string as a Kotlin string template prints it. */
  function TemplateText(s: Option<string>): string {
    match s
    case Some(text) => text
    case None => "null"
  }

  /** The names of the first ten artists. */
  function PromptArtistNames(artists: seq<TopArtistEntity>): (r: seq<string>)
    ensures |r| == if |artists| < PROMPT_ITEMS then |artists| else PROMPT_ITEMS
    ensures forall i :: 0 <= i < |r| ==> r[i] == artists[i].name
  {
    var first := Take(artists, PROMPT_ITEMS);
    seq(|first|, i requires 0 <= i < |first| => first[i].name)
  }

  /** `"<name> by <artistNames>"` for each of the first ten tracks. */
  function PromptTrackLines(tracks: seq<TopTrackEntity>): (r: seq<string>)
    ensures |r| == if |tracks| < PROMPT_ITEMS then |tracks| else PROMPT_ITEMS
    ensures forall i :: 0 <= i < |r| ==> r[i] == tracks[i].name + " by " + TemplateText(tracks[i].artistNames)
  {
    var first := Take(tracks, PROMPT_ITEMS);
    seq(|first|, i requires 0 <= i < |first| => first[i].name + " by " + TemplateText(first[i].artistNames))
  }

  /** A join is never shorter than its first part. */
  lemma JoinStartsWithFirst(xs: seq<string>, sep: string)
    requires xs != []
    ensures |JoinToString(xs, sep)| >= |xs[0]|
  {
  }

  /**
   * The prompt's values: the first ten artist names and the first ten
   * tracks joined with ", ", then the request, each with its fallback text.
   */
  function BuildPrompt(artists: seq<TopArtistEntity>, tracks: seq<TopTrackEntity>, promptSuffix: string): (p: Prompt)
    ensures artists == [] ==> p.topArtists == NO_ARTISTS
    ensures JoinToString(PromptArtistNames(artists), ", ") != "" ==> p.topArtists == JoinToString(PromptArtistNames(artists), ", ")
    ensures JoinToString(PromptArtistNames(artists), ", ") == "" ==> p.topArtists == NO_ARTISTS
    ensures tracks == [] ==> p.topTracks == NO_TRACKS
    ensures tracks != [] ==> p.topTracks == JoinToString(PromptTrackLines(tracks), ", ")
    ensures IsBlank(promptSuffix) ==> p.request == NO_REQUEST
    ensures !IsBlank(promptSuffix) ==> p.request == promptSuffix
  {
    var names := PromptArtistNames(artists);
    assert names != [] ==> |JoinToString(names, ", ")| >= |names[0]| by {
      if names != [] {
        JoinStartsWithFirst(names, ", ");
      }
    }
    var lines := PromptTrackLines(tracks);
    assert lines != [] ==> |JoinToString(lines, ", ")| >= |lines[0]| by {
      if lines != [] {
        JoinStartsWithFirst(lines, ", ");
      }
    }
    Prompt(
      topArtists := IfEmpty(JoinToString(names, ", "), NO_ARTISTS),
      topTracks := IfEmpty(JoinToString(lines, ", "), NO_TRACKS),
      request := if IsBlank(promptSuffix) then NO_REQUEST else promptSuffix)
  }

  /** Artists and tracks past the tenth never reach the prompt. */
  lemma {:induction false} PromptUsesFirstTen(artists: seq<TopArtistEntity>, moreArtists: seq<TopArtistEntity>,
                                              tracks: seq<TopTrackEntity>, moreTracks: seq<TopTrackEntity>,
                                              promptSuffix: string)
    requires |artists| >= PROMPT_ITEMS && |tracks| >= PROMPT_ITEMS
    ensures BuildPrompt(artists + moreArtists, tracks + moreTracks, promptSuffix) == BuildPrompt(artists, tracks, promptSuffix)
  {
    assert PromptArtistNames(artists + moreArtists) == PromptArtistNames(artists);
    assert PromptTrackLines(tracks + moreTracks) == PromptTrackLines(tracks);
  }

  // -----------------------------------------------------------------------
  // Classifying the raw answer
  // -----------------------------------------------------------------------

  datatype RawOutcome = ParseResponse(text: string) | ReportError(message: string) | Malformed

  /**
   * What `generatePlaylistIdea` does with the raw answer: parse a
   * non-blank answer that is not an error, show an "Error:" answer as the
   * error, and report anything null or blank as empty or malformed.
   */
  function Classify(raw: Option<string>): (r: RawOutcome)
    ensures r.ParseResponse? <==> raw.Some? && !IsBlank(raw.value) && !StartsWith(raw.value, ERROR_PREFIX)
    ensures r.ReportError? <==> raw.Some? && StartsWith(raw.value, ERROR_PREFIX)
    ensures r.Malformed? <==> raw.None? || IsBlank(raw.value)
    ensures r.ParseResponse? ==> r.text == raw.value
    ensures r.ReportError? ==> r.message == raw.value
  {
    assert raw.Some? && StartsWith(raw.value, ERROR_PREFIX) ==> !IsBlank(raw.value) by {
      if raw.Some? && StartsWith(raw.value, ERROR_PREFIX) {
        assert raw.value[0] == 'E';
      }
    }
    if raw.Some? && !IsBlank(raw.value) && !StartsWith(raw.value, ERROR_PREFIX) then
      ParseResponse(raw.value)
    else if raw.Some? && StartsWith(raw.value, ERROR_PREFIX) then
      ReportError(raw.value)
    else
      Malformed
  }

  // -----------------------------------------------------------------------
  // Name and description: `<marker>(.+)`, first match, trimmed
  // -----------------------------------------------------------------------

  /** The characters `.` does not match outside DOTALL mode. */
  predicate IsLineTerminator(c: char) {
    c == '\n' || c == '\r' || c == '\U{85}' || c == '\U{2028}' || c == '\U{2029}'
  }

  /** The pattern `<marker>(.+)` matches at `i`: the marker, then at least one character of the same line. */
  predicate MarkerAt(s: string, marker: string, i: nat) {
    i + |marker| < |s| && s[i..i + |marker|] == marker && !IsLineTerminator(s[i + |marker|])
  }

  /** `matcher.find()` from `from`: the first position where the pattern matches. */
  function FindMarker(s: string, marker: string, from: nat): (r: Option<nat>)
    ensures r.Some? ==> from <= r.value && MarkerAt(s, marker, r.value)
    ensures r.Some? ==> forall j :: from <= j < r.value ==> !MarkerAt(s, marker, j)
    ensures r.None? ==> forall j :: from <= j ==> !MarkerAt(s, marker, j)
    decreases |s| - from
  {
    if from + |marker| >= |s| then None
    else if MarkerAt(s, marker, from) then Some(from)
    else FindMarker(s, marker, from + 1)
  }

  /** The greedy `.+`: every character from `j` up to the end of the line. */
  function LineRest(s: string, j: nat): (r: string)
    requires j <= |s|
    ensures j + |r| <= |s| && r == s[j..j + |r|]
    ensures forall k :: 0 <= k < |r| ==> !IsLineTerminator(r[k])
    ensures j + |r| == |s| || IsLineTerminator(s[j + |r|])
    decreases |s| - j
  {
    if j == |s| || IsLineTerminator(s[j]) then "" else [s[j]] + LineRest(s, j + 1)
  }

  /** `group(1)` of the first match, if there is one. */
  function MarkerGroup(s: string, marker: string): (r: Option<string>)
    ensures r.Some? ==> |r.value| >= 1
  {
    match FindMarker(s, marker, 0)
    case Some(i) => Some(LineRest(s, i + |marker|))
    case None => None
  }

  /** The trimmed group, or the default when the pattern does not match. */
  function ParsedField(s: string, marker: string, default: string): string {
    match MarkerGroup(s, marker)
    case Some(group) => Trim(group)
    case None => default
  }

  /** A line segment that runs up to a terminator (or the end) is what `.+` takes. */
  lemma {:induction false} LineRestIs(s: string, j: nat, value: string)
    requires j + |value| <= |s| && s[j..j + |value|] == value
    requires forall k :: 0 <= k < |value| ==> !IsLineTerminator(value[k])
    requires j + |value| == |s| || IsLineTerminator(s[j + |value|])
    ensures LineRest(s, j) == value
    decreases |value|
  {
    if |value| > 0 {
      assert s[j] == value[0];
      assert s[j + 1..j + 1 + |value[1..]|] == value[1..];
      LineRestIs(s, j + 1, value[1..]);
      assert [value[0]] + value[1..] == value;
    }
  }

  /**
   * A marker followed by the text `value` up to a line break (or the end)
   * yields exactly `value`, when the pattern matches nowhere earlier.
   */
  lemma MarkerLine(s: string, marker: string, before: string, value: string, after: string)
    requires s == before + marker + value + after
    requires |value| >= 1 && forall k :: 0 <= k < |value| ==> !IsLineTerminator(value[k])
    requires after == [] || IsLineTerminator(after[0])
    requires forall j :: 0 <= j < |before| ==> !MarkerAt(s, marker, j)
    ensures MarkerGroup(s, marker) == Some(value)
  {
    var i := |before|;
    var start := i + |marker|;
    assert s[i..start] == marker;
    assert s[start..start + |value|] == value;
    assert start + |value| == |s| || s[start + |value|] == after[0];
    assert MarkerAt(s, marker, i) by {
      assert s[start] == value[0];
    }
    assert FindMarker(s, marker, 0) == Some(i);
    LineRestIs(s, start, value);
  }

  /** Without a marker line the defaults stay. */
  lemma NoMarkerKeepsDefault(s: string, marker: string, default: string)
    requires forall j :: 0 <= j < |s| ==> !MarkerAt(s, marker, j)
    ensures ParsedField(s, marker, default) == default
  {
  }

  // -----------------------------------------------------------------------
  // Per-song search
  // -----------------------------------------------------------------------

  /** The raw groups of one song match: title, artists and reasoning. */
  datatype SongMatch = SongMatch(title: string, artists: string, reasoning: string)

  function ImageWidth(image: Image): int {
    image.width.GetOr(INT_MAX)
  }

  /**
   * `minByOrNull { width ?: Int.MAX_VALUE }` over the first `n` images:
   * the index of the first image of least width.
   */
  function SmallestImage(images: seq<Image>, n: nat): (k: nat)
    requires 1 <= n <= |images|
    ensures k < n
    ensures forall j :: 0 <= j < n ==> ImageWidth(images[k]) <= ImageWidth(images[j])
    ensures forall j :: 0 <= j < k ==> ImageWidth(images[j]) > ImageWidth(images[k])
  {
    if n == 1 then 0
    else
      var k := SmallestImage(images, n - 1);
      if ImageWidth(images[n - 1]) < ImageWidth(images[k]) then n - 1 else k
  }

  /** The album image url a found track contributes. */
  function AlbumImageUrl(track: Track): (r: Option<string>)
    ensures track.album.images.None? || track.album.images.value == [] ==> r.None?
  {
    match track.album.images
    case None => None
    case Some(images) =>
      if images == [] then None else images[SmallestImage(images, |images|)].url
  }

  /** The first track of a search reply, when the reply has any. */
  function FirstHit(reply: Option<SpotifySearchResponse>): Option<Track> {
    if reply.Some? && reply.value.tracks.Some? && reply.value.tracks.value.items != [] then
      Some(reply.value.tracks.value.items[0])
    else
      None
  }

  function ExactQuery(title: string, artists: string): string {
    "track:\"" + title + "\" artist:\"" + artists + "\""
  }

  function BroadQuery(title: string, artists: string): string {
    title + " " + artists
  }

  /** The groups of a match as `trim()` leaves them. */
  function Trimmed(m: SongMatch): SongMatch {
    SongMatch(Trim(m.title), Trim(m.artists), Trim(m.reasoning))
  }

  function TrimmedAll(matches: seq<SongMatch>): (r: seq<SongMatch>)
    ensures |r| == |matches| && forall i :: 0 <= i < |r| ==> r[i] == Trimmed(matches[i])
  {
    seq(|matches|, i requires 0 <= i < |matches| => Trimmed(matches[i]))
  }

  /**
   * The suggestion made for a trimmed match: its groups, with the id and
   * image of the exact search's track, else of the broad search's track,
   * else none.
   */
  function Suggestion(m: SongMatch, search: (string, int) -> Option<SpotifySearchResponse>): (r: GeneratedSongSuggestion)
    ensures r.trackName == m.title && r.artistNames == m.artists && r.aiDescription == m.reasoning
  {
    var hit := match FirstHit(search(ExactQuery(m.title, m.artists), SEARCH_LIMIT))
      case Some(track) => Some(track)
      case None => FirstHit(search(BroadQuery(m.title, m.artists), SEARCH_LIMIT));
    GeneratedSongSuggestion(
      trackId := if hit.Some? then Some(hit.value.id) else None,
      trackName := m.title,
      artistNames := m.artists,
      albumImageUrl := if hit.Some? then AlbumImageUrl(hit.value) else None,
      aiDescription := m.reasoning)
  }

  /** The queries sent for a trimmed match: the exact one, then the broad one only if the exact one found nothing. */
  function SongQueries(m: SongMatch, search: (string, int) -> Option<SpotifySearchResponse>): (r: seq<string>)
    ensures 1 <= |r| <= 2 && r[0] == ExactQuery(m.title, m.artists)
    ensures |r| == 2 <==> FirstHit(search(r[0], SEARCH_LIMIT)).None?
    ensures |r| == 2 ==> r[1] == BroadQuery(m.title, m.artists)
  {
    var exact := ExactQuery(m.title, m.artists);
    if FirstHit(search(exact, SEARCH_LIMIT)).Some? then [exact]
    else [exact, BroadQuery(m.title, m.artists)]
  }

  /** The queries sent for all (trimmed) matches, in order. */
  function AllQueries(matches: seq<SongMatch>, search: (string, int) -> Option<SpotifySearchResponse>): seq<string>
    decreases |matches|
  {
    if matches == [] then []
    else AllQueries(matches[..|matches| - 1], search) + SongQueries(matches[|matches| - 1], search)
  }

  /** One suggestion per (trimmed) match, in the order of the matches. */
  function Suggestions(matches: seq<SongMatch>, search: (string, int) -> Option<SpotifySearchResponse>): (r: seq<GeneratedSongSuggestion>)
    ensures |r| == |matches|
    ensures forall i :: 0 <= i < |r| ==> r[i] == Suggestion(matches[i], search)
    decreases |matches|
  {
    if matches == [] then []
    else Suggestions(matches[..|matches| - 1], search) + [Suggestion(matches[|matches| - 1], search)]
  }

  /** The playlist `parseAndSearchSongs` builds from an answer. */
  function ParsedPlaylist(response: string, matches: seq<SongMatch>,
                          search: (string, int) -> Option<SpotifySearchResponse>): (p: AIGeneratedPlaylist)
    ensures |p.songs| == |matches|
  {
    AIGeneratedPlaylist(
      name := ParsedField(response, NAME_MARKER, DEFAULT_NAME),
      description := ParsedField(response, DESCRIPTION_MARKER, DEFAULT_DESCRIPTION),
      songs := Suggestions(TrimmedAll(matches), search))
  }

  /** The exact search decides when it finds a track; the broad one is only the fallback. */
  lemma SuggestionSource(m: SongMatch, search: (string, int) -> Option<SpotifySearchResponse>)
    ensures var exact := FirstHit(search(ExactQuery(m.title, m.artists), SEARCH_LIMIT));
      var broad := FirstHit(search(BroadQuery(m.title, m.artists), SEARCH_LIMIT));
      var r := Suggestion(m, search);
      && (exact.Some? ==> r.trackId == Some(exact.value.id) && r.albumImageUrl == AlbumImageUrl(exact.value))
      && (exact.None? && broad.Some? ==> r.trackId == Some(broad.value.id) && r.albumImageUrl == AlbumImageUrl(broad.value))
      && (exact.None? && broad.None? ==> r.trackId.None? && r.albumImageUrl.None?)
  {
  }

  /**
   * The body of the loop over song matches, from the trimmed groups on:
   * try the exact query, fall back to the broad one, and build the
   * suggestion. The ghost `sent` is the queries sent, in order.
   */
  method SearchSong(songTitle: string, artistNames: string, aiReasoning: string,
                    search: (string, int) -> Option<SpotifySearchResponse>)
    returns (suggestion: GeneratedSongSuggestion, ghost sent: seq<string>)
    ensures suggestion == Suggestion(SongMatch(songTitle, artistNames, aiReasoning), search)
    ensures sent == SongQueries(SongMatch(songTitle, artistNames, aiReasoning), search)
  {
    var trackId: Option<string> := None;
    var albumImageUrl: Option<string> := None;
    var searchQuery := ExactQuery(songTitle, artistNames);
    sent := [searchQuery];
    var searchResult := FirstHit(search(searchQuery, SEARCH_LIMIT));
    if searchResult.Some? {
      trackId := Some(searchResult.value.id);
      albumImageUrl := AlbumImageUrl(searchResult.value);
    } else {
      var broadSearchQuery := BroadQuery(songTitle, artistNames);
      sent := sent + [broadSearchQuery];
      var broadSearchResult := FirstHit(search(broadSearchQuery, SEARCH_LIMIT));
      if broadSearchResult.Some? {
        trackId := Some(broadSearchResult.value.id);
        albumImageUrl := AlbumImageUrl(broadSearchResult.value);
      }
    }
    suggestion := GeneratedSongSuggestion(
      trackId := trackId,
      trackName := songTitle,
      artistNames := artistNames,
      albumImageUrl := albumImageUrl,
      aiDescription := aiReasoning);
  }

  /**
   * The `while (songMatcher.find())` loop: one suggestion per song match,
   * in the order of the matches, with the searches sent in that order.
   */
  method SearchSongs(matches: seq<SongMatch>, search: (string, int) -> Option<SpotifySearchResponse>)
    returns (songSuggestions: seq<GeneratedSongSuggestion>, ghost queries: seq<string>)
    ensures songSuggestions == Suggestions(TrimmedAll(matches), search)
    ensures queries == AllQueries(TrimmedAll(matches), search)
  {
    songSuggestions := [];
    queries := [];
    ghost var trimmed := TrimmedAll(matches);
    var i := 0;
    while i < |matches|
      invariant 0 <= i <= |matches|
      invariant songSuggestions == Suggestions(trimmed[..i], search)
      invariant queries == AllQueries(trimmed[..i], search)
    {
      var songTitle := Trim(matches[i].title);
      var artistNames := Trim(matches[i].artists);
      var aiReasoning := Trim(matches[i].reasoning);
      assert SongMatch(songTitle, artistNames, aiReasoning) == trimmed[i];
      var suggestion, sent := SearchSong(songTitle, artistNames, aiReasoning, search);
      songSuggestions := songSuggestions + [suggestion];
      queries := queries + sent;
      assert trimmed[..i + 1][..i] == trimmed[..i];
      i := i + 1;
    }
    assert trimmed[..|matches|] == trimmed;
  }

  /**
   * `parseAndSearchSongs`: the name and description from their markers,
   * and one suggestion per song match, in the order of the matches. The
   * ghost `queries` is every search sent, in order.
   */
  method ParseAndSearchSongs(geminiResponse: string, matches: seq<SongMatch>,
                             search: (string, int) -> Option<SpotifySearchResponse>)
    returns (playlist: AIGeneratedPlaylist, ghost queries: seq<string>)
    ensures playlist == ParsedPlaylist(geminiResponse, matches, search)
    ensures queries == AllQueries(TrimmedAll(matches), search)
  {
    var playlistName := DEFAULT_NAME;
    var playlistDescription := DEFAULT_DESCRIPTION;
    var nameGroup := MarkerGroup(geminiResponse, NAME_MARKER);
    if nameGroup.Some? {
      playlistName := Trim(nameGroup.value);
    }
    var descriptionGroup := MarkerGroup(geminiResponse, DESCRIPTION_MARKER);
    if descriptionGroup.Some? {
      playlistDescription := Trim(descriptionGroup.value);
    }
    var songSuggestions;
    songSuggestions, queries := SearchSongs(matches, search);
    playlist := AIGeneratedPlaylist(playlistName, playlistDescription, songSuggestions);
  }

  // -----------------------------------------------------------------------
  // The state holder
  // -----------------------------------------------------------------------

  class AIGenerationViewModel {
    const topArtistRepository: TopArtistRepository
    const topTrackRepository: TopTrackRepository
    var topArtists: seq<TopArtistEntity>
    var topTracks: seq<TopTrackEntity>
    var generatedContent: Option<AIGeneratedPlaylist>
    var isLoading: bool
    var error: Option<string>
    /** Every prompt sent to the language model, in order. */
    ghost var prompts: seq<Prompt>

    /** The field initialisers; the two collections `init` launches are `CollectTopArtists` and `CollectTopTracks`. */
    constructor(topArtistRepository: TopArtistRepository, topTrackRepository: TopTrackRepository)
      ensures this.topArtistRepository == topArtistRepository && this.topTrackRepository == topTrackRepository
      ensures topArtists == [] && topTracks == [] && generatedContent.None? && !isLoading && error.None?
      ensures prompts == []
    {
      this.topArtistRepository := topArtistRepository;
      this.topTrackRepository := topTrackRepository;
      topArtists := [];
      topTracks := [];
      generatedContent := None;
      isLoading := false;
      error := None;
      prompts := [];
    }

    /** Collect `getUserTopArtists()`: the field holds the last list emitted. */
    method CollectTopArtists(fetch: TopQuery -> ServiceResult<Paging<Artist>>, now: int)
      requires topArtistRepository.topArtistDao.Valid()
      modifies this, topArtistRepository.topArtistDao
      ensures topArtistRepository.topArtistDao.Valid()
      ensures topTracks == old(topTracks) && generatedContent == old(generatedContent)
      ensures isLoading == old(isLoading) && error == old(error) && prompts == old(prompts)
      ensures var reply := fetch(TopQuery("medium_term", 50, 0));
        && (TopArtistRepositories.Fetched(reply) ==>
              && topArtists == FromArtists(reply.value.value.items, now)
              && topArtistRepository.topArtistDao.rows == UpsertAll(map[], FromArtists(reply.value.value.items, now), TopArtistId))
        && (!TopArtistRepositories.Fetched(reply) ==>
              topArtistRepository.topArtistDao.rows == old(topArtistRepository.topArtistDao.rows))
        && (!TopArtistRepositories.Fetched(reply) ==>
              ListsRows(topArtists, old(topArtistRepository.topArtistDao.rows), TopArtistId)
              && SortedBy(topArtists, TopArtistOrder))
    {
      var emissions := topArtistRepository.GetUserTopArtists(fetch, now);
      var i := 0;
      while i < |emissions|
        modifies this
        invariant 0 <= i <= |emissions|
        invariant i > 0 ==> topArtists == emissions[i - 1]
        invariant topTracks == old(topTracks) && generatedContent == old(generatedContent)
        invariant isLoading == old(isLoading) && error == old(error) && prompts == old(prompts)
      {
        topArtists := emissions[i];
        i := i + 1;
      }
    }

    /** Collect `getUserTopTracks()`: the field holds the last list emitted. */
    method CollectTopTracks(fetch: TopQuery -> ServiceResult<Paging<Track>>, now: int)
      requires topTrackRepository.topTrackDao.Valid()
      modifies this, topTrackRepository.topTrackDao
      ensures topTrackRepository.topTrackDao.Valid()
      ensures topArtists == old(topArtists) && generatedContent == old(generatedContent)
      ensures isLoading == old(isLoading) && error == old(error) && prompts == old(prompts)
      ensures var reply := fetch(TopQuery("medium_term", 50, 0));
        && (TopTrackRepositories.Fetched(reply) ==>
              && topTracks == TopTrackEntities.FromTracks(reply.value.value.items, now)
              && topTrackRepository.topTrackDao.rows
                 == UpsertAll(map[], TopTrackEntities.FromTracks(reply.value.value.items, now), TopTrackId))
        && (!TopTrackRepositories.Fetched(reply) ==>
              topTrackRepository.topTrackDao.rows == old(topTrackRepository.topTrackDao.rows))
        && (!TopTrackRepositories.Fetched(reply) ==>
              ListsRows(topTracks, old(topTrackRepository.topTrackDao.rows), TopTrackId)
              && SortedBy(topTracks, TopTrackOrder))
    {
      var emissions := topTrackRepository.GetUserTopTracks(fetch, now);
      var i := 0;
      while i < |emissions|
        modifies this
        invariant 0 <= i <= |emissions|
        invariant i > 0 ==> topTracks == emissions[i - 1]
        invariant topArtists == old(topArtists) && generatedContent == old(generatedContent)
        invariant isLoading == old(isLoading) && error == old(error) && prompts == old(prompts)
      {
        topTracks := emissions[i];
        i := i + 1;
      }
    }

    /**
     * `generatePlaylistIdea(promptSuffix)`. Loading is off again on every
     * path; without any top artist or track no prompt is sent.
     */
    method GeneratePlaylistIdea(gemini: Prompt -> Option<string>, matches: string -> seq<SongMatch>,
                                search: (string, int) -> Option<SpotifySearchResponse>, promptSuffix: string := "")
      modifies this
      ensures !isLoading
      ensures topArtists == old(topArtists) && topTracks == old(topTracks)
      ensures old(topArtists) == [] && old(topTracks) == [] ==>
        error == Some(NO_TASTE_ERROR) && generatedContent.None? && prompts == old(prompts)
      ensures !(old(topArtists) == [] && old(topTracks) == []) ==>
        var prompt := BuildPrompt(old(topArtists), old(topTracks), promptSuffix);
        && prompts == old(prompts) + [prompt]
        && match Classify(gemini(prompt))
           case ParseResponse(text) =>
             generatedContent == Some(ParsedPlaylist(text, matches(text), search)) && error.None?
           case ReportError(message) =>
             generatedContent.None? && error == Some(message)
           case Malformed =>
             generatedContent.None? && error == Some(EMPTY_RESULT_ERROR)
    {
      isLoading := true;
      error := None;
      generatedContent := None;
      var artists := topArtists;
      var tracks := topTracks;
      if artists == [] && tracks == [] {
        error := Some(NO_TASTE_ERROR);
        isLoading := false;
        return;
      }
      var prompt := BuildPrompt(artists, tracks, promptSuffix);
      prompts := prompts + [prompt];
      var rawGeneratedResult := gemini(prompt);
      match Classify(rawGeneratedResult) {
        case ParseResponse(text) =>
          var parsedPlaylist, _ := ParseAndSearchSongs(text, matches(text), search);
          generatedContent := Some(parsedPlaylist);
        case ReportError(message) =>
          error := Some(message);
        case Malformed =>
          error := Some(EMPTY_RESULT_ERROR);
      }
      isLoading := false;
    }
  }
}
