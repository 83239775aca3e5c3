/** A table of the system of record read by primary key: the `dbFallback`
    loaders (`this::getById`) of the cache strategies, and `updateById`. */
module Database {

  /** What one `getById` call gives: the row, null, or an exception. */
  datatype Fetch<V> = Found(row: V) | Missing | Failed

  /** A lookup of `id` in `rows`, where the keys in `errors` raise. */
  function Fetched<K, V>(rows: map<K, V>, errors: set<K>, id: K): Fetch<V>
  {
    if id in errors then Failed else if id in rows then Found(rows[id]) else Missing
  }

  /** The rows after `updateById(row)` with key `id`: the row with that key
      is replaced, and a missing key matches no row. */
  function UpdatedRows<K, V>(rows: map<K, V>, id: K, row: V): map<K, V>
  {
    if id in rows then rows[id := row] else rows
  }

  class Table<K(==), V> {
    /** The rows, by primary key. */
    var rows: map<K, V>
    /** Keys whose lookup raises (a database error). */
    var errors: set<K>
    /** How many lookups have been made: lets contracts say when, and how
        often, a cache strategy calls its loader. */
    var selects: nat

    constructor (rows: map<K, V>, errors: set<K>)
      ensures this.rows == rows && this.errors == errors && selects == 0
    {
      this.rows, this.errors, selects := rows, errors, 0;
    }

    /** What a lookup of `id` gives in the current state. */
    function Lookup(id: K): Fetch<V>
      reads this
    {
      Fetched(rows, errors, id)
    }

    /** `getById(id)`, counted. */
    method SelectById(id: K) returns (f: Fetch<V>)
      modifies this`selects
      ensures f == Lookup(id)
      ensures selects == old(selects) + 1
    {
      f := Lookup(id);
      selects := selects + 1;
    }

    /** `updateById(row)`: replaces the row with that key; a missing key
        matches no row and changes nothing. */
    method UpdateById(id: K, row: V) returns (updated: bool)
      modifies this`rows
      ensures updated <==> id in old(rows)
      ensures rows == UpdatedRows(old(rows), id, row)
    {
      updated := id in rows;
      if updated {
        rows := rows[id := row];
      }
    }
  }
}
