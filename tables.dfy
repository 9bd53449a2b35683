/** An append-only SQLite table whose `id INTEGER PRIMARY KEY AUTOINCREMENT`
    comes from a per-table sequence counter, and whose `timestamp` column is
    filled from the clock when the row is inserted. */
module Tables {
  import opened Ordering

  /** One row: the AUTOINCREMENT id, the insertion timestamp (seconds) and
      the columns the caller supplied. */
  datatype Row<R> = Row(id: int, stamp: int, data: R)

  function Stamp<R>(r: Row<R>): int {
    r.stamp
  }

  /** `lastId` plays the part of the table's entry in sqlite_sequence: the
      largest id ever handed out. */
  datatype Table<R> = Table(rows: seq<Row<R>>, lastId: nat) {

    /** Ids are positive, never above the counter, and increase in insertion
        order, so no two rows share an id. */
    ghost predicate Valid() {
      && (forall i :: 0 <= i < |rows| ==> 0 < rows[i].id <= lastId)
      && (forall i, j :: 0 <= i < j < |rows| ==> rows[i].id < rows[j].id)
    }

    /** INSERT: appends one row whose id exceeds every id issued before;
        cursor.lastrowid is the new `lastId`. */
    function Insert(data: R, now: int): (t: Table<R>)
      requires Valid()
      ensures t.Valid()
      ensures t.lastId > lastId
      ensures forall i :: 0 <= i < |rows| ==> rows[i].id < t.lastId
      ensures t.rows == rows + [Row(t.lastId, now, data)]
    {
      Table(rows + [Row(lastId + 1, now, data)], lastId + 1)
    }
  }

  /** `WHERE timestamp >= cutoff`: every qualifying row as often as it occurs
      in the table, and nothing else. */
  function Since<R(!new)>(rows: seq<Row<R>>, cutoff: int): (r: seq<Row<R>>)
    ensures |r| <= |rows|
    ensures forall x :: multiset(r)[x] == if x.stamp >= cutoff then multiset(rows)[x] else 0
  {
    if rows == [] then []
    else
      var head := if rows[0].stamp >= cutoff then [rows[0]] else [];
      var rest := Since(rows[1..], cutoff);
      assert rows == [rows[0]] + rows[1..];
      head + rest
  }

  /** A freshly created table: no rows, counter at zero. */
  function EmptyTable<R>(): (t: Table<R>)
    ensures t.Valid() && t.rows == []
  {
    Table([], 0)
  }
}
