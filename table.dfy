/**
 * `SELECT … WHERE id = ?1` on a table keyed by its primary key, shared by
 * `get_device` (src/device/mod.rs) and `load_from_db` (src/device/secure.rs).
 */
module Table {
  import opened Errors

  /** The row stored under `key`, or `None` when there is none. */
  function Lookup<K, V>(rows: map<K, V>, key: K): (r: Option<V>)
    ensures r.Some? <==> key in rows
    ensures r.Some? ==> r.value == rows[key]
  {
    if key in rows then Some(rows[key]) else None
  }
}
