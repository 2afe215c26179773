/**
 * The playlists repository: emit the cached table, then refresh it with the
 * first page of the user's playlists, replacing the whole table when the
 * page has items.
 */
module PlaylistRepositories {
  import opened Wrappers
  import opened Tables
  import opened Models
  import opened PlaylistEntities
  import opened PlaylistDaos

  /** The query the repository always sends. */
  const PLAYLIST_PAGE: Page := Page(20, 0)

  /** The network returned a page with at least one playlist. */
  predicate Fetched(reply: ServiceResult<Paging<SimplifiedPlaylist>>) {
    reply.Returned? && reply.value.Some? && reply.value.value.items != []
  }

  class PlaylistRepository {
    const playlistDao: PlaylistDao

    constructor(playlistDao: PlaylistDao)
      ensures this.playlistDao == playlistDao
    {
      this.playlistDao := playlistDao;
    }

    /**
     * `getCurrentUserPlaylists()`; `fetch` stands for
     * `SpotifyUserService.fetchCurrentUserPlaylists` and `now` for the clock.
     */
    method GetCurrentUserPlaylists(fetch: Page -> ServiceResult<Paging<SimplifiedPlaylist>>, now: int)
      returns (emitted: seq<seq<PlaylistEntity>>)
      requires playlistDao.Valid()
      modifies playlistDao
      ensures playlistDao.Valid()
      ensures 1 <= |emitted| <= 2
      ensures old(playlistDao.rows) != map[] ==>
        ListsRows(emitted[0], old(playlistDao.rows), PlaylistId) && SortedBy(emitted[0], PlaylistOrder)
      ensures Fetched(fetch(PLAYLIST_PAGE)) ==>
        && playlistDao.rows == UpsertAll(map[], FromSimplifiedPlaylists(fetch(PLAYLIST_PAGE).value.value.items, now), PlaylistId)
        && ListsRows(emitted[|emitted| - 1], playlistDao.rows, PlaylistId)
        && SortedBy(emitted[|emitted| - 1], PlaylistOrder)
        && |emitted| == (if old(playlistDao.rows) == map[] then 1 else 2)
      ensures !Fetched(fetch(PLAYLIST_PAGE)) ==>
        && playlistDao.rows == old(playlistDao.rows)
        && |emitted| == 1
        && (old(playlistDao.rows) == map[] ==> emitted == [[]])
    {
      var cachedPlaylists := playlistDao.GetAllPlaylists();
      ListsEmpty(cachedPlaylists, playlistDao.rows, PlaylistId);
      emitted := [];
      if cachedPlaylists != [] {
        emitted := emitted + [cachedPlaylists];
      }
      var networkResponse := fetch(PLAYLIST_PAGE);
      if Fetched(networkResponse) {
        var playlistEntities := FromSimplifiedPlaylists(networkResponse.value.value.items, now);
        playlistDao.ClearAllPlaylists();
        playlistDao.InsertPlaylists(playlistEntities);
        var updated := playlistDao.GetAllPlaylists();
        emitted := emitted + [updated];
        assert cachedPlaylists != [] ==> emitted[0] == cachedPlaylists;
        assert emitted[|emitted| - 1] == updated;
      } else if cachedPlaylists == [] {
        emitted := emitted + [[]];
      }
    }
  }
}
