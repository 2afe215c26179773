/** The playlists screen's state holder. */
module PlaylistsViewModels {
  import opened Wrappers
  import opened Tables
  import opened Models
  import opened PlaylistEntities
  import opened PlaylistDaos
  import opened PlaylistRepositories
  import opened ListScreens

  class PlaylistsViewModel {
    const playlistRepository: PlaylistRepository
    var playlists: seq<PlaylistEntity>
    var isLoading: bool
    var error: Option<string>

    function State(): ListState<PlaylistEntity>
      reads this
    {
      ListState(playlists, isLoading, error)
    }

    /** The field initialisers; the `fetchPlaylists` call of `init` is `FetchPlaylists`. */
    constructor(playlistRepository: PlaylistRepository)
      ensures this.playlistRepository == playlistRepository
      ensures State() == Initial()
    {
      this.playlistRepository := playlistRepository;
      playlists := [];
      isLoading := false;
      error := None;
    }

    method OnStart()
      modifies this
      ensures State() == Started(old(State()))
    {
      isLoading := true;
      error := None;
    }

    method OnError(message: Option<string>)
      modifies this
      ensures State() == Failed(old(State()), message)
    {
      error := message;
      isLoading := false;
    }

    method OnEmission(fetchedPlaylists: seq<PlaylistEntity>)
      modifies this
      ensures State() == Emitted(old(State()), fetchedPlaylists)
    {
      playlists := fetchedPlaylists;
      isLoading := false;
    }

    /** The `onStart` / `catch` / `collect` chain over a flow with the given outcome. */
    method Collect(emissions: seq<seq<PlaylistEntity>>, failure: Option<Option<string>>)
      modifies this
      ensures State() == AfterFlow(old(State()), emissions, failure)
    {
      OnStart();
      var i := 0;
      while i < |emissions|
        invariant 0 <= i <= |emissions|
        invariant AfterEmissions(State(), emissions[i..]) == AfterEmissions(Started(old(State())), emissions)
      {
        assert emissions[i..][1..] == emissions[i + 1..];
        OnEmission(emissions[i]);
        i := i + 1;
      }
      if failure.Some? {
        OnError(failure.value);
      }
    }

    /**
     * `fetchPlaylists`: collect `getCurrentUserPlaylists()`. The repository
     * does not throw here, so the screen ends up showing the table's last
     * listing, not loading and with no error.
     */
    method FetchPlaylists(fetch: Page -> ServiceResult<Paging<SimplifiedPlaylist>>, now: int)
      requires playlistRepository.playlistDao.Valid()
      modifies this, playlistRepository.playlistDao
      ensures playlistRepository.playlistDao.Valid()
      ensures !isLoading && error.None?
      ensures Fetched(fetch(PLAYLIST_PAGE)) ==>
        && playlistRepository.playlistDao.rows
           == UpsertAll(map[], FromSimplifiedPlaylists(fetch(PLAYLIST_PAGE).value.value.items, now), PlaylistId)
        && ListsRows(playlists, playlistRepository.playlistDao.rows, PlaylistId)
        && SortedBy(playlists, PlaylistOrder)
      ensures !Fetched(fetch(PLAYLIST_PAGE)) ==>
        && playlistRepository.playlistDao.rows == old(playlistRepository.playlistDao.rows)
        && ListsRows(playlists, old(playlistRepository.playlistDao.rows), PlaylistId)
        && SortedBy(playlists, PlaylistOrder)
    {
      var emissions := playlistRepository.GetCurrentUserPlaylists(fetch, now);
      Collect(emissions, None);
      FlowOutcome(old(State()), emissions, None);
    }
  }
}
