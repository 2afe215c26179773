/**
 * The top-tracks repository: emit the cached table, then refresh it; a
 * refresh emits the converted tracks in the order the network sent them,
 * not the table re-read.
 */
module TopTrackRepositories {
  import opened Wrappers
  import opened Tables
  import opened Models
  import opened TopTrackEntities
  import opened TopTrackDaos

  /** The network returned a page with at least one track. */
  predicate Fetched(reply: ServiceResult<Paging<Track>>) {
    reply.Returned? && reply.value.Some? && reply.value.value.items != []
  }

  class TopTrackRepository {
    const topTrackDao: TopTrackDao

    constructor(topTrackDao: TopTrackDao)
      ensures this.topTrackDao == topTrackDao
    {
      this.topTrackDao := topTrackDao;
    }

    /**
     * `getUserTopTracks(timeRange, limit, offset)`; `fetch` stands for
     * `SpotifyUserService.fetchUserTopTracks` and `now` for the clock.
     */
    method GetUserTopTracks(fetch: TopQuery -> ServiceResult<Paging<Track>>, now: int,
                            timeRange: string := "medium_term", limit: int := 50, offset: int := 0)
      returns (emitted: seq<seq<TopTrackEntity>>)
      requires topTrackDao.Valid()
      modifies topTrackDao
      ensures topTrackDao.Valid()
      ensures 1 <= |emitted| <= 2
      ensures old(topTrackDao.rows) != map[] ==>
        ListsRows(emitted[0], old(topTrackDao.rows), TopTrackId) && SortedBy(emitted[0], TopTrackOrder)
      ensures var reply := fetch(TopQuery(timeRange, limit, offset));
        Fetched(reply) ==>
        && topTrackDao.rows == UpsertAll(map[], FromTracks(reply.value.value.items, now), TopTrackId)
        && emitted[|emitted| - 1] == FromTracks(reply.value.value.items, now)
        && |emitted| == (if old(topTrackDao.rows) == map[] then 1 else 2)
      ensures !Fetched(fetch(TopQuery(timeRange, limit, offset))) ==>
        && topTrackDao.rows == old(topTrackDao.rows)
        && |emitted| == 1
        && (old(topTrackDao.rows) == map[] ==> emitted == [[]])
    {
      var cachedTracks := topTrackDao.GetAllTopTracks();
      ListsEmpty(cachedTracks, topTrackDao.rows, TopTrackId);
      emitted := [];
      if cachedTracks != [] {
        emitted := emitted + [cachedTracks];
      }
      var response := fetch(TopQuery(timeRange, limit, offset));
      if Fetched(response) {
        var entities := FromTracks(response.value.value.items, now);
        topTrackDao.ClearAllTopTracks();
        topTrackDao.InsertTopTracks(entities);
        emitted := emitted + [entities];
        assert cachedTracks != [] ==> emitted[0] == cachedTracks;
        assert emitted[|emitted| - 1] == entities;
      } else if cachedTracks == [] {
        emitted := emitted + [[]];
      }
    }

    /** `clearTopTrackData`. */
    method ClearTopTrackData()
      modifies topTrackDao
      ensures topTrackDao.Valid() && topTrackDao.rows == map[]
    {
      topTrackDao.ClearAllTopTracks();
    }
  }
}
