/**
 * What the services rely on from the ORM: rows as maps from column names to
 * values, `where` objects matched column by column, and `instance.update`,
 * which writes the given data columns and refreshes `updatedAt` only when
 * something changes.
 */
module Rows {
  import opened Js

  /** A row satisfies a `where` object: every condition names a column the row has and holds. */
  predicate Matches(row: Record, where: Record) {
    forall k :: k in where ==> k in row && row[k] == where[k]
  }

  /**
   * The ORM writes a NaN condition into the SQL text as the bare word `NaN`,
   * which MariaDB reads as a column name and refuses.
   */
  predicate Rejected(where: Record) {
    exists k :: k in where && where[k] == Num(NaN)
  }

  /** MariaDB's error for a query the ORM wrote with a NaN condition. */
  const UnknownColumnMessage := "Unknown column 'NaN' in 'where clause'"

  /** A one-condition query fails exactly when its value is NaN. */
  lemma RejectedOne(a: string, x: Value)
    ensures Rejected(map[a := x]) <==> x == Num(NaN)
  {
    if x == Num(NaN) {
      assert a in map[a := x];
    }
  }

  /** A two-condition query fails exactly when one of its values is NaN. */
  lemma RejectedTwo(a: string, x: Value, b: string, y: Value)
    requires a != b
    ensures Rejected(map[a := x][b := y]) <==> x == Num(NaN) || y == Num(NaN)
  {
    var w := map[a := x][b := y];
    if x == Num(NaN) {
      assert a in w && w[a] == x;
    }
    if y == Num(NaN) {
      assert b in w && w[b] == y;
    }
  }

  /** `destroy` counts the rows it removed: one when the key was present, none otherwise. */
  lemma RemovedCount<K, V>(m: map<K, V>, k: K)
    ensures |(m - {k}).Keys| == if k in m then |m.Keys| - 1 else |m.Keys|
  {
    if k in m {
      assert (m - {k}).Keys == m.Keys - {k};
    } else {
      assert m - {k} == m;
    }
  }

  /** `{ ...data }` with the given fields deleted. */
  function Strip(data: Value, fields: set<string>): (clean: Record)
    ensures forall k :: k in clean <==> k in Spread(data) && k !in fields
    ensures forall k :: k in clean ==> clean[k] == Spread(data)[k]
  {
    Spread(data) - fields
  }

  /** The update changes one of the writable columns of the row. */
  predicate Changes(row: Record, clean: Record, columns: set<string>) {
    exists k :: k in clean && k in columns && k in row && row[k] != clean[k]
  }

  /**
   * `instance.update(clean)`: the writable columns it names take their new
   * values and `updatedAt` becomes `now`; an update that changes nothing is
   * not saved.
   */
  function Updated(row: Record, clean: Record, columns: set<string>, now: Value): (r: Record)
    requires "updatedAt" !in columns
    ensures r.Keys == row.Keys + (if Changes(row, clean, columns) then {"updatedAt"} else {})
    ensures forall k :: k in row && k !in columns && k != "updatedAt" ==> r[k] == row[k]
    ensures forall k :: k in row && k in columns ==> r[k] == (if k in clean then clean[k] else row[k])
    ensures Changes(row, clean, columns) ==> r["updatedAt"] == now
    ensures !Changes(row, clean, columns) ==> r == row
  {
    if !Changes(row, clean, columns) then row
    else (map k | k in row :: if k in columns && k in clean then clean[k] else row[k])["updatedAt" := now]
  }
}
