/**
 * The top-artists repository: emit the cached table, then refresh it; a
 * refresh emits the converted artists in the order the network sent them,
 * not the table re-read.
 */
module TopArtistRepositories {
  import opened Wrappers
  import opened Tables
  import opened Models
  import opened TopArtistEntities
  import opened TopArtistDaos

  /** The network returned a page with at least one artist. */
  predicate Fetched(reply: ServiceResult<Paging<Artist>>) {
    reply.Returned? && reply.value.Some? && reply.value.value.items != []
  }

  class TopArtistRepository {
    const topArtistDao: TopArtistDao

    constructor(topArtistDao: TopArtistDao)
      ensures this.topArtistDao == topArtistDao
    {
      this.topArtistDao := topArtistDao;
    }

    /**
     * `getUserTopArtists(timeRange, limit, offset)`; `fetch` stands for
     * `SpotifyUserService.fetchUserTopArtists` and `now` for the clock.
     */
    method GetUserTopArtists(fetch: TopQuery -> ServiceResult<Paging<Artist>>, now: int,
                             timeRange: string := "medium_term", limit: int := 50, offset: int := 0)
      returns (emitted: seq<seq<TopArtistEntity>>)
      requires topArtistDao.Valid()
      modifies topArtistDao
      ensures topArtistDao.Valid()
      ensures 1 <= |emitted| <= 2
      ensures old(topArtistDao.rows) != map[] ==>
        ListsRows(emitted[0], old(topArtistDao.rows), TopArtistId) && SortedBy(emitted[0], TopArtistOrder)
      ensures var reply := fetch(TopQuery(timeRange, limit, offset));
        Fetched(reply) ==>
        && topArtistDao.rows == UpsertAll(map[], FromArtists(reply.value.value.items, now), TopArtistId)
        && emitted[|emitted| - 1] == FromArtists(reply.value.value.items, now)
        && |emitted| == (if old(topArtistDao.rows) == map[] then 1 else 2)
      ensures !Fetched(fetch(TopQuery(timeRange, limit, offset))) ==>
        && topArtistDao.rows == old(topArtistDao.rows)
        && |emitted| == 1
        && (old(topArtistDao.rows) == map[] ==> emitted == [[]])
    {
      var cachedArtists := topArtistDao.GetAllTopArtists();
      ListsEmpty(cachedArtists, topArtistDao.rows, TopArtistId);
      emitted := [];
      if cachedArtists != [] {
        emitted := emitted + [cachedArtists];
      }
      var response := fetch(TopQuery(timeRange, limit, offset));
      if Fetched(response) {
        var entities := FromArtists(response.value.value.items, now);
        topArtistDao.ClearAllTopArtists();
        topArtistDao.InsertTopArtists(entities);
        emitted := emitted + [entities];
        assert cachedArtists != [] ==> emitted[0] == cachedArtists;
        assert emitted[|emitted| - 1] == entities;
      } else if cachedArtists == [] {
        emitted := emitted + [[]];
      }
    }

    /** `clearTopArtistData`. */
    method ClearTopArtistData()
      modifies topArtistDao
      ensures topArtistDao.Valid() && topArtistDao.rows == map[]
    {
      topArtistDao.ClearAllTopArtists();
    }
  }
}
