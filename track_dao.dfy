/** The Room DAO of the `tracks` table of saved tracks. */
module TrackDaos {
  import opened Wrappers
  import opened Tables
  import opened TrackEntities

  function TrackId(e: TrackEntity): string { e.id }

  /** `ORDER BY name ASC`. */
  function TrackOrder(e: TrackEntity): SortKey { SortKey(None, e.name) }

  class TrackDao {
    /** The table: rows by primary key `id`. */
    var rows: map<string, TrackEntity>

    ghost predicate Valid()
      reads this
    {
      Keyed(rows, TrackId)
    }

    constructor()
      ensures Valid() && rows == map[]
    {
      rows := map[];
    }

    /** `insertTrack`: REPLACE on the id. */
    method InsertTrack(track: TrackEntity)
      requires Valid()
      modifies this
      ensures Valid()
      ensures rows == old(rows)[track.id := track]
    {
      rows := rows[track.id := track];
    }

    /** `insertAllTracks`: REPLACE row by row, in list order. */
    method InsertAllTracks(tracks: seq<TrackEntity>)
      requires Valid()
      modifies this
      ensures Valid()
      ensures rows == UpsertAll(old(rows), tracks, TrackId)
    {
      rows := ReplaceAll(rows, tracks, TrackId);
    }

    /** `insertTracks`: the same REPLACE insert as `insertAllTracks`. */
    method InsertTracks(tracks: seq<TrackEntity>)
      requires Valid()
      modifies this
      ensures Valid()
      ensures rows == UpsertAll(old(rows), tracks, TrackId)
    {
      InsertAllTracks(tracks);
    }

    /** `updateTrack`: rewrites the row with that id, and does nothing when there is none. */
    method UpdateTrack(track: TrackEntity)
      requires Valid()
      modifies this
      ensures Valid()
      ensures rows == if track.id in old(rows) then old(rows)[track.id := track] else old(rows)
    {
      if track.id in rows {
        rows := rows[track.id := track];
      }
    }

    /** `getTrackById`. */
    method GetTrackById(trackId: string) returns (r: Option<TrackEntity>)
      requires Valid()
      ensures r.Some? <==> trackId in rows
      ensures r.Some? ==> r.value == rows[trackId] && r.value.id == trackId
    {
      r := if trackId in rows then Some(rows[trackId]) else None;
    }

    /** `getAllTracks`: every row once, by name. */
    method GetAllTracks() returns (r: seq<TrackEntity>)
      requires Valid()
      ensures SortedBy(r, TrackOrder) && ListsRows(r, rows, TrackId)
    {
      r := OrderedRows(rows, TrackId, TrackOrder);
    }

    /** `deleteTrack`: removes the row with that id only. */
    method DeleteTrack(trackId: string)
      requires Valid()
      modifies this
      ensures Valid()
      ensures rows == old(rows) - {trackId}
    {
      rows := rows - {trackId};
    }

    /** `deleteAllTracks`. */
    method DeleteAllTracks()
      modifies this
      ensures Valid() && rows == map[]
    {
      rows := map[];
    }

    /** `clearAllTracks`: the same `DELETE FROM tracks`. */
    method ClearAllTracks()
      modifies this
      ensures Valid() && rows == map[]
    {
      rows := map[];
    }
  }
}
