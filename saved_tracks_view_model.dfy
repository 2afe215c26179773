/** The saved-tracks screen's state holder. */
module SavedTracksViewModels {
  import opened Wrappers
  import opened Tables
  import opened Models
  import opened TrackEntities
  import opened TrackDaos
  import opened TrackRepositories
  import opened ListScreens

  class SavedTracksViewModel {
    const trackRepository: TrackRepository
    var savedTracks: seq<TrackEntity>
    var isLoading: bool
    var error: Option<string>

    function State(): ListState<TrackEntity>
      reads this
    {
      ListState(savedTracks, isLoading, error)
    }

    /** The field initialisers; the `fetchSavedTracks` call of `init` is `FetchSavedTracks`. */
    constructor(trackRepository: TrackRepository)
      ensures this.trackRepository == trackRepository
      ensures State() == Initial()
    {
      this.trackRepository := trackRepository;
      savedTracks := [];
      isLoading := false;
      error := None;
    }

    method OnStart()
      modifies this
      ensures State() == Started(old(State()))
    {
      isLoading := true;
      error := None;
    }

    method OnError(message: Option<string>)
      modifies this
      ensures State() == Failed(old(State()), message)
    {
      error := message;
      isLoading := false;
    }

    method OnEmission(fetchedTracks: seq<TrackEntity>)
      modifies this
      ensures State() == Emitted(old(State()), fetchedTracks)
    {
      savedTracks := fetchedTracks;
      isLoading := false;
    }

    /** The `onStart` / `catch` / `collect` chain over a flow with the given outcome. */
    method Collect(emissions: seq<seq<TrackEntity>>, failure: Option<Option<string>>)
      modifies this
      ensures State() == AfterFlow(old(State()), emissions, failure)
    {
      OnStart();
      var i := 0;
      while i < |emissions|
        invariant 0 <= i <= |emissions|
        invariant AfterEmissions(State(), emissions[i..]) == AfterEmissions(Started(old(State())), emissions)
      {
        assert emissions[i..][1..] == emissions[i + 1..];
        OnEmission(emissions[i]);
        i := i + 1;
      }
      if failure.Some? {
        OnError(failure.value);
      }
    }

    /**
     * `fetchSavedTracks`: collect `getCurrentUserSavedTracks()` with its
     * default page. The repository does not throw here, so the screen ends
     * up showing the table's last listing, not loading and with no error.
     */
    method FetchSavedTracks(fetch: Page -> ServiceResult<seq<Track>>, now: int)
      requires trackRepository.trackDao.Valid()
      modifies this, trackRepository.trackDao
      ensures trackRepository.trackDao.Valid()
      ensures !isLoading && error.None?
      ensures Fetched(fetch(Page(50, 0))) ==>
        && trackRepository.trackDao.rows == UpsertAll(map[], FromTracks(fetch(Page(50, 0)).value.value, now), TrackId)
        && ListsRows(savedTracks, trackRepository.trackDao.rows, TrackId)
        && SortedBy(savedTracks, TrackOrder)
      ensures !Fetched(fetch(Page(50, 0))) ==>
        && trackRepository.trackDao.rows == old(trackRepository.trackDao.rows)
        && ListsRows(savedTracks, old(trackRepository.trackDao.rows), TrackId)
        && SortedBy(savedTracks, TrackOrder)
    {
      var emissions := trackRepository.GetCurrentUserSavedTracks(fetch, now);
      Collect(emissions, None);
      FlowOutcome(old(State()), emissions, None);
    }
  }
}
