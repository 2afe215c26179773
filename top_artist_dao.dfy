/** The Room DAO of the `top_artists` table. */
module TopArtistDaos {
  import opened Wrappers
  import opened Tables
  import opened TopArtistEntities

  function TopArtistId(e: TopArtistEntity): string { e.id }

  /** `ORDER BY popularity DESC, name ASC`. */
  function TopArtistOrder(e: TopArtistEntity): SortKey { SortKey(e.popularity, e.name) }

  /**
   * Rows made by `fromArtist` carry no popularity, so in a listing of them
   * the ORDER BY comes down to the names alone.
   */
  lemma ConvertedArtistsSortByName(r: seq<TopArtistEntity>)
    requires forall i :: 0 <= i < |r| ==> r[i].popularity.None?
    ensures SortedBy(r, TopArtistOrder) <==> forall i, j :: 0 <= i < j < |r| ==> TextLe(r[i].name, r[j].name)
  {
  }

  class TopArtistDao {
    /** The table: rows by primary key `id`. */
    var rows: map<string, TopArtistEntity>

    ghost predicate Valid()
      reads this
    {
      Keyed(rows, TopArtistId)
    }

    constructor()
      ensures Valid() && rows == map[]
    {
      rows := map[];
    }

    /** `insertTopArtists`: REPLACE row by row, in list order. */
    method InsertTopArtists(artists: seq<TopArtistEntity>)
      requires Valid()
      modifies this
      ensures Valid()
      ensures rows == UpsertAll(old(rows), artists, TopArtistId)
    {
      rows := ReplaceAll(rows, artists, TopArtistId);
    }

    /** `getAllTopArtists`: every row once, most popular first, then by name. */
    method GetAllTopArtists() returns (r: seq<TopArtistEntity>)
      requires Valid()
      ensures SortedBy(r, TopArtistOrder) && ListsRows(r, rows, TopArtistId)
    {
      r := OrderedRows(rows, TopArtistId, TopArtistOrder);
    }

    /** `clearAllTopArtists`. */
    method ClearAllTopArtists()
      modifies this
      ensures Valid() && rows == map[]
    {
      rows := map[];
    }
  }
}
