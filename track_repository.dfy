/**
 * The saved-tracks repository: emit the cached table, then refresh it from
 * the network, replacing the whole table when the network returns tracks.
 * A run of the flow is one call of `GetCurrentUserSavedTracks`; what it
 * emits is returned as a sequence of lists.
 */
module TrackRepositories {
  import opened Wrappers
  import opened Tables
  import opened Models
  import opened TrackEntities
  import opened TrackDaos

  /** The network returned a non-empty track list. */
  predicate Fetched(reply: ServiceResult<seq<Track>>) {
    reply.Returned? && reply.value.Some? && reply.value.value != []
  }

  class TrackRepository {
    const trackDao: TrackDao

    constructor(trackDao: TrackDao)
      ensures this.trackDao == trackDao
    {
      this.trackDao := trackDao;
    }

    /**
     * `getCurrentUserSavedTracks(limit, offset)`; `fetch` stands for
     * `SpotifyUserService.fetchCurrentUserSavedTracks` and `now` for the
     * clock.
     */
    method GetCurrentUserSavedTracks(fetch: Page -> ServiceResult<seq<Track>>, now: int, limit: int := 50, offset: int := 0)
      returns (emitted: seq<seq<TrackEntity>>)
      requires trackDao.Valid()
      modifies trackDao
      ensures trackDao.Valid()
      ensures 1 <= |emitted| <= 2
      // the cache comes first when there is one
      ensures old(trackDao.rows) != map[] ==>
        ListsRows(emitted[0], old(trackDao.rows), TrackId) && SortedBy(emitted[0], TrackOrder)
      // a fetch with tracks replaces the table, and the last list is that table re-read
      ensures Fetched(fetch(Page(limit, offset))) ==>
        && trackDao.rows == UpsertAll(map[], FromTracks(fetch(Page(limit, offset)).value.value, now), TrackId)
        && ListsRows(emitted[|emitted| - 1], trackDao.rows, TrackId)
        && SortedBy(emitted[|emitted| - 1], TrackOrder)
        && |emitted| == (if old(trackDao.rows) == map[] then 1 else 2)
      // anything else leaves the table alone, and only an empty cache is followed by []
      ensures !Fetched(fetch(Page(limit, offset))) ==>
        && trackDao.rows == old(trackDao.rows)
        && |emitted| == 1
        && (old(trackDao.rows) == map[] ==> emitted == [[]])
    {
      var cachedTracks := trackDao.GetAllTracks();
      ListsEmpty(cachedTracks, trackDao.rows, TrackId);
      emitted := [];
      if cachedTracks != [] {
        emitted := emitted + [cachedTracks];
      }
      var networkTracks := fetch(Page(limit, offset));
      if Fetched(networkTracks) {
        var trackEntities := FromTracks(networkTracks.value.value, now);
        trackDao.ClearAllTracks();
        trackDao.InsertTracks(trackEntities);
        var updated := trackDao.GetAllTracks();
        emitted := emitted + [updated];
        assert cachedTracks != [] ==> emitted[0] == cachedTracks;
        assert emitted[|emitted| - 1] == updated;
      } else if cachedTracks == [] {
        emitted := emitted + [[]];
      }
    }

    /** `clearSavedTrackData`. */
    method ClearSavedTrackData()
      modifies trackDao
      ensures trackDao.Valid() && trackDao.rows == map[]
    {
      trackDao.ClearAllTracks();
    }
  }

  /**
   * After a successful refresh the table holds exactly the fetched ids, and
   * for an id fetched twice the later track.
   */
  lemma RefreshedTable(tracks: seq<Track>, now: int, id: string)
    requires id in BatchIds(FromTracks(tracks, now), TrackId)
    ensures var rows := UpsertAll(map[], FromTracks(tracks, now), TrackId);
      id in rows &&
      exists i :: 0 <= i < |tracks| && tracks[i].id == id && rows[id] == FromTrack(tracks[i], now) &&
        forall j :: i < j < |tracks| ==> tracks[j].id != id
  {
    var batch := FromTracks(tracks, now);
    UpsertAllAt(map[], batch, TrackId, id);
    var i :| 0 <= i < |batch| && TrackId(batch[i]) == id && LastWithId(batch, i, TrackId) && UpsertAll(map[], batch, TrackId)[id] == batch[i];
    assert tracks[i].id == id;
    forall j | i < j < |tracks| ensures tracks[j].id != id {
      assert TrackId(batch[j]) == tracks[j].id;
    }
  }
}
