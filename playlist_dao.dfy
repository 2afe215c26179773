/** The Room DAO of the `playlists` table. */
module PlaylistDaos {
  import opened Wrappers
  import opened Tables
  import opened PlaylistEntities

  function PlaylistId(e: PlaylistEntity): string { e.id }

  /** `ORDER BY name ASC`. */
  function PlaylistOrder(e: PlaylistEntity): SortKey { SortKey(None, e.name) }

  class PlaylistDao {
    /** The table: rows by primary key `id`. */
    var rows: map<string, PlaylistEntity>

    ghost predicate Valid()
      reads this
    {
      Keyed(rows, PlaylistId)
    }

    constructor()
      ensures Valid() && rows == map[]
    {
      rows := map[];
    }

    /** `insertPlaylist`: REPLACE on the id. */
    method InsertPlaylist(playlist: PlaylistEntity)
      requires Valid()
      modifies this
      ensures Valid()
      ensures rows == old(rows)[playlist.id := playlist]
    {
      rows := rows[playlist.id := playlist];
    }

    /** `insertAllPlaylists`: REPLACE row by row, in list order. */
    method InsertAllPlaylists(playlists: seq<PlaylistEntity>)
      requires Valid()
      modifies this
      ensures Valid()
      ensures rows == UpsertAll(old(rows), playlists, PlaylistId)
    {
      rows := ReplaceAll(rows, playlists, PlaylistId);
    }

    /** `insertPlaylists`: the same REPLACE insert as `insertAllPlaylists`. */
    method InsertPlaylists(playlists: seq<PlaylistEntity>)
      requires Valid()
      modifies this
      ensures Valid()
      ensures rows == UpsertAll(old(rows), playlists, PlaylistId)
    {
      InsertAllPlaylists(playlists);
    }

    /** `updatePlaylist`: rewrites the row with that id, and does nothing when there is none. */
    method UpdatePlaylist(playlist: PlaylistEntity)
      requires Valid()
      modifies this
      ensures Valid()
      ensures rows == if playlist.id in old(rows) then old(rows)[playlist.id := playlist] else old(rows)
    {
      if playlist.id in rows {
        rows := rows[playlist.id := playlist];
      }
    }

    /** `getPlaylistById`. */
    method GetPlaylistById(playlistId: string) returns (r: Option<PlaylistEntity>)
      requires Valid()
      ensures r.Some? <==> playlistId in rows
      ensures r.Some? ==> r.value == rows[playlistId] && r.value.id == playlistId
    {
      r := if playlistId in rows then Some(rows[playlistId]) else None;
    }

    /** `getAllPlaylists`: every row once, by name. */
    method GetAllPlaylists() returns (r: seq<PlaylistEntity>)
      requires Valid()
      ensures SortedBy(r, PlaylistOrder) && ListsRows(r, rows, PlaylistId)
    {
      r := OrderedRows(rows, PlaylistId, PlaylistOrder);
    }

    /** `deletePlaylist`: removes the row with that id only. */
    method DeletePlaylist(playlistId: string)
      requires Valid()
      modifies this
      ensures Valid()
      ensures rows == old(rows) - {playlistId}
    {
      rows := rows - {playlistId};
    }

    /** `deleteAllPlaylists`. */
    method DeleteAllPlaylists()
      modifies this
      ensures Valid() && rows == map[]
    {
      rows := map[];
    }

    /** `clearAllPlaylists`: the same `DELETE FROM playlists`. */
    method ClearAllPlaylists()
      modifies this
      ensures Valid() && rows == map[]
    {
      rows := map[];
    }
  }
}
