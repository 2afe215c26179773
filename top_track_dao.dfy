/** The Room DAO of the `top_tracks` table. */
module TopTrackDaos {
  import opened Wrappers
  import opened Tables
  import opened TopTrackEntities

  function TopTrackId(e: TopTrackEntity): string { e.id }

  /** `ORDER BY popularity DESC, name ASC`. */
  function TopTrackOrder(e: TopTrackEntity): SortKey { SortKey(e.popularity, e.name) }

  /** In a sorted listing every track with a popularity comes before every track without one. */
  lemma UnratedTracksLast(r: seq<TopTrackEntity>, i: int, j: int)
    requires SortedBy(r, TopTrackOrder)
    requires 0 <= i < |r| && 0 <= j < |r|
    requires r[i].popularity.None? && r[j].popularity.Some?
    ensures j < i
  {
  }

  class TopTrackDao {
    /** The table: rows by primary key `id`. */
    var rows: map<string, TopTrackEntity>

    ghost predicate Valid()
      reads this
    {
      Keyed(rows, TopTrackId)
    }

    constructor()
      ensures Valid() && rows == map[]
    {
      rows := map[];
    }

    /** `insertTopTracks`: REPLACE row by row, in list order. */
    method InsertTopTracks(tracks: seq<TopTrackEntity>)
      requires Valid()
      modifies this
      ensures Valid()
      ensures rows == UpsertAll(old(rows), tracks, TopTrackId)
    {
      rows := ReplaceAll(rows, tracks, TopTrackId);
    }

    /** `getAllTopTracks`: every row once, most popular first, then by name. */
    method GetAllTopTracks() returns (r: seq<TopTrackEntity>)
      requires Valid()
      ensures SortedBy(r, TopTrackOrder) && ListsRows(r, rows, TopTrackId)
    {
      r := OrderedRows(rows, TopTrackId, TopTrackOrder);
    }

    /** `clearAllTopTracks`. */
    method ClearAllTopTracks()
      modifies this
      ensures Valid() && rows == map[]
    {
      rows := map[];
    }
  }
}
