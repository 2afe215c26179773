/**
 * The semantics of the local Room/SQLite tables shared by every DAO: a table
 * is a map from primary key to row, `@Insert(onConflict = REPLACE)` of a list
 * writes the rows one after the other (a later row with the same key replaces
 * an earlier one), and `ORDER BY` returns every row once, sorted.
 */
module Tables {
  import opened Wrappers

  // ---------------------------------------------------------------------
  // ORDER BY
  // ---------------------------------------------------------------------

  /**
   * SQLite's BINARY collation on TEXT: byte-wise comparison of the UTF-8
   * encoding, which orders strings lexicographically by code point.
   */
  predicate TextLe(a: string, b: string)
    decreases |a|
  {
    |a| == 0 || (|b| > 0 && (a[0] < b[0] || (a[0] == b[0] && TextLe(a[1..], b[1..]))))
  }

  lemma {:induction false} TextLeTotal(a: string, b: string)
    ensures TextLe(a, b) || TextLe(b, a)
    decreases |a|
  {
    if |a| > 0 && |b| > 0 && a[0] == b[0] {
      TextLeTotal(a[1..], b[1..]);
    }
  }

  lemma {:induction false} TextLeTransitive(a: string, b: string, c: string)
    requires TextLe(a, b) && TextLe(b, c)
    ensures TextLe(a, c)
    decreases |a|
  {
    if |a| > 0 && |b| > 0 && |c| > 0 && a[0] == b[0] == c[0] {
      TextLeTransitive(a[1..], b[1..], c[1..]);
    }
  }

  /**
   * The ORDER BY columns of a row. The top-artist and top-track tables sort
   * by `popularity DESC, name ASC`. SQLite ranks NULL below every number,
   * so under DESC a NULL popularity comes after all others. A table sorted by
   * `name ASC` alone is the case where every row's popularity is NULL:
   * equal NULLs tie, and the name decides.
   */
  datatype SortKey = SortKey(popularity: Option<int>, name: string)

  predicate KeyLe(a: SortKey, b: SortKey) {
    match (a.popularity, b.popularity)
    case (Some(p), Some(q)) => p > q || (p == q && TextLe(a.name, b.name))
    case (Some(_), None) => true
    case (None, Some(_)) => false
    case (None, None) => TextLe(a.name, b.name)
  }

  lemma KeyLeTotal(a: SortKey, b: SortKey)
    ensures KeyLe(a, b) || KeyLe(b, a)
  {
    TextLeTotal(a.name, b.name);
  }

  lemma KeyLeTransitive(a: SortKey, b: SortKey, c: SortKey)
    requires KeyLe(a, b) && KeyLe(b, c)
    ensures KeyLe(a, c)
  {
    if TextLe(a.name, b.name) && TextLe(b.name, c.name) {
      TextLeTransitive(a.name, b.name, c.name);
    }
  }

  /** With no popularity on either side, only the names decide. */
  lemma KeyLeByNameAlone(a: string, b: string)
    ensures KeyLe(SortKey(None, a), SortKey(None, b)) <==> TextLe(a, b)
  {
  }

  ghost predicate SortedBy<E>(s: seq<E>, key: E -> SortKey) {
    forall i, j :: 0 <= i < j < |s| ==> KeyLe(key(s[i]), key(s[j]))
  }

  /** Inserts `x` before the first row it sorts before (or at the end). */
  function InsertByKey<E>(x: E, s: seq<E>, key: E -> SortKey): (r: seq<E>)
    ensures multiset(r) == multiset(s) + multiset{x}
    decreases |s|
  {
    if |s| == 0 then [x]
    else if KeyLe(key(x), key(s[0])) then [x] + s
    else
      assert s == [s[0]] + s[1..];
      [s[0]] + InsertByKey(x, s[1..], key)
  }

  lemma {:induction false} InsertSorted<E>(x: E, s: seq<E>, key: E -> SortKey)
    requires SortedBy(s, key)
    ensures SortedBy(InsertByKey(x, s, key), key)
    decreases |s|
  {
    if |s| > 0 && !KeyLe(key(x), key(s[0])) {
      InsertSorted(x, s[1..], key);
      var tail := InsertByKey(x, s[1..], key);
      KeyLeTotal(key(x), key(s[0]));
      forall j | 0 <= j < |tail| ensures KeyLe(key(s[0]), key(tail[j])) {
        assert tail[j] in multiset(tail);
        assert tail[j] == x || tail[j] in s[1..];
      }
    } else if |s| > 0 {
      forall j | 0 <= j < |s| ensures KeyLe(key(x), key(s[j])) {
        if j > 0 { KeyLeTransitive(key(x), key(s[0]), key(s[j])); }
      }
    }
  }

  // ---------------------------------------------------------------------
  // Keyed rows
  // ---------------------------------------------------------------------

  /** Every row is stored under its own primary key. */
  ghost predicate Keyed<E>(rows: map<string, E>, id: E -> string) {
    forall k :: k in rows ==> id(rows[k]) == k
  }

  ghost predicate DistinctIds<E>(r: seq<E>, id: E -> string) {
    forall i, j :: 0 <= i < j < |r| ==> id(r[i]) != id(r[j])
  }

  /** `r` lists the rows of the table, each exactly once. */
  ghost predicate ListsRows<E>(r: seq<E>, rows: map<string, E>, id: E -> string) {
    && (forall i :: 0 <= i < |r| ==> id(r[i]) in rows && rows[id(r[i])] == r[i])
    && (forall k :: k in rows ==> rows[k] in r)
    && DistinctIds(r, id)
  }

  lemma {:induction false} InsertDistinct<E>(x: E, s: seq<E>, key: E -> SortKey, id: E -> string)
    requires DistinctIds(s, id)
    requires forall i :: 0 <= i < |s| ==> id(s[i]) != id(x)
    ensures DistinctIds(InsertByKey(x, s, key), id)
    decreases |s|
  {
    if |s| > 0 && !KeyLe(key(x), key(s[0])) {
      InsertDistinct(x, s[1..], key, id);
      var tail := InsertByKey(x, s[1..], key);
      forall j | 0 <= j < |tail| ensures id(s[0]) != id(tail[j]) {
        assert tail[j] in multiset(tail);
        assert tail[j] == x || tail[j] in s[1..];
      }
    }
  }

  /** An empty listing lists exactly the empty table. */
  lemma ListsEmpty<E>(r: seq<E>, rows: map<string, E>, id: E -> string)
    requires ListsRows(r, rows, id)
    ensures r == [] <==> rows == map[]
  {
    if r != [] {
      assert id(r[0]) in rows;
    }
  }

  /**
   * A `SELECT * ... ORDER BY` over the table: every row exactly once,
   * sorted by `key`; the order of rows whose keys tie is left open, as in
   * SQLite.
   */
  method OrderedRows<E>(rows: map<string, E>, id: E -> string, key: E -> SortKey) returns (r: seq<E>)
    requires Keyed(rows, id)
    ensures SortedBy(r, key)
    ensures ListsRows(r, rows, id)
  {
    r := [];
    var pending := rows.Keys;
    while pending != {}
      invariant pending <= rows.Keys
      invariant SortedBy(r, key)
      invariant forall i :: 0 <= i < |r| ==> id(r[i]) in rows && id(r[i]) !in pending && rows[id(r[i])] == r[i]
      invariant forall k :: k in rows && k !in pending ==> rows[k] in r
      invariant DistinctIds(r, id)
      decreases pending
    {
      var k :| k in pending;
      var x := rows[k];
      InsertSorted(x, r, key);
      InsertDistinct(x, r, key, id);
      var r' := InsertByKey(x, r, key);
      forall i | 0 <= i < |r'| ensures id(r'[i]) in rows && id(r'[i]) !in pending - {k} && rows[id(r'[i])] == r'[i] {
        assert r'[i] in multiset(r');
        assert r'[i] == x || r'[i] in r;
      }
      forall k' | k' in rows && k' !in pending - {k} ensures rows[k'] in r' {
        assert rows[k'] in multiset(r');
      }
      r := r';
      pending := pending - {k};
    }
  }

  /**
   * A `SELECT *` without ORDER BY: every row exactly once, in an order the
   * model does not fix.
   */
  method RowsInAnyOrder<E>(rows: map<string, E>, id: E -> string) returns (r: seq<E>)
    requires Keyed(rows, id)
    ensures ListsRows(r, rows, id)
  {
    r := [];
    var pending := rows.Keys;
    while pending != {}
      invariant pending <= rows.Keys
      invariant forall i :: 0 <= i < |r| ==> id(r[i]) in rows && id(r[i]) !in pending && rows[id(r[i])] == r[i]
      invariant forall k :: k in rows && k !in pending ==> rows[k] in r
      invariant DistinctIds(r, id)
      decreases pending
    {
      var k :| k in pending;
      r := r + [rows[k]];
      pending := pending - {k};
    }
  }

  // ---------------------------------------------------------------------
  // INSERT ... ON CONFLICT REPLACE
  // ---------------------------------------------------------------------

  /** The keys of a batch. */
  function BatchIds<E>(batch: seq<E>, id: E -> string): set<string> {
    set i | 0 <= i < |batch| :: id(batch[i])
  }

  /** Row `i` of the batch is the last one with its key. */
  ghost predicate LastWithId<E>(batch: seq<E>, i: int, id: E -> string)
    requires 0 <= i < |batch|
  {
    forall j :: i < j < |batch| ==> id(batch[j]) != id(batch[i])
  }

  /** Inserts the rows of `batch` in order, each replacing any row with its key. */
  function UpsertAll<E>(rows: map<string, E>, batch: seq<E>, id: E -> string): (r: map<string, E>)
    ensures Keyed(rows, id) ==> Keyed(r, id)
    decreases |batch|
  {
    if |batch| == 0 then rows
    else UpsertAll(rows[id(batch[0]) := batch[0]], batch[1..], id)
  }

  lemma BatchIdsCons<E>(batch: seq<E>, id: E -> string)
    requires |batch| > 0
    ensures BatchIds(batch, id) == {id(batch[0])} + BatchIds(batch[1..], id)
  {
    var rest := batch[1..];
    forall k | k in BatchIds(batch, id) ensures k in {id(batch[0])} + BatchIds(rest, id) {
      var i :| 0 <= i < |batch| && id(batch[i]) == k;
      if i > 0 { assert id(rest[i - 1]) == k; }
    }
    forall k | k in BatchIds(rest, id) ensures k in BatchIds(batch, id) {
      var i :| 0 <= i < |rest| && id(rest[i]) == k;
      assert id(batch[i + 1]) == k;
    }
  }

  /**
   * A REPLACE batch adds exactly the batch's keys, leaves every other row
   * alone, and stores under each key the last batch row with that key.
   */
  lemma {:induction false} UpsertAllEffect<E>(rows: map<string, E>, batch: seq<E>, id: E -> string)
    ensures UpsertAll(rows, batch, id).Keys == rows.Keys + BatchIds(batch, id)
    ensures forall k :: k in rows && k !in BatchIds(batch, id) ==> UpsertAll(rows, batch, id)[k] == rows[k]
    ensures forall i :: 0 <= i < |batch| && LastWithId(batch, i, id) ==> UpsertAll(rows, batch, id)[id(batch[i])] == batch[i]
    decreases |batch|
  {
    if |batch| > 0 {
      var rest := batch[1..];
      UpsertAllEffect(rows[id(batch[0]) := batch[0]], rest, id);
      BatchIdsCons(batch, id);
      assert forall i :: 1 <= i < |batch| && LastWithId(batch, i, id) ==> LastWithId(rest, i - 1, id);
      assert forall i :: 0 <= i < |batch| && LastWithId(batch, i, id) && i == 0 ==> id(batch[0]) !in BatchIds(rest, id);
    }
  }

  /** What a REPLACE batch leaves in the table, stated per key. */
  lemma UpsertAllAt<E>(rows: map<string, E>, batch: seq<E>, id: E -> string, k: string)
    requires k in BatchIds(batch, id)
    ensures k in UpsertAll(rows, batch, id)
    ensures exists i :: 0 <= i < |batch| && id(batch[i]) == k && LastWithId(batch, i, id) && UpsertAll(rows, batch, id)[k] == batch[i]
  {
    UpsertAllEffect(rows, batch, id);
    var i :| 0 <= i < |batch| && id(batch[i]) == k;
    while !LastWithId(batch, i, id)
      invariant 0 <= i < |batch| && id(batch[i]) == k
      decreases |batch| - i
    {
      var j :| i < j < |batch| && id(batch[j]) == id(batch[i]);
      i := j;
    }
  }

  /** Room's insert of a list: one REPLACE per row, in list order. */
  method ReplaceAll<E>(rows: map<string, E>, batch: seq<E>, id: E -> string) returns (r: map<string, E>)
    ensures r == UpsertAll(rows, batch, id)
  {
    r := rows;
    var i := 0;
    while i < |batch|
      invariant 0 <= i <= |batch|
      invariant UpsertAll(r, batch[i..], id) == UpsertAll(rows, batch, id)
    {
      assert batch[i..][1..] == batch[i + 1..];
      r := r[id(batch[i]) := batch[i]];
      i := i + 1;
    }
  }
}
