/**
 * The row order of `SELECT … ORDER BY last_seen DESC`: every key of a table exactly once,
 * ranks non-increasing. SQLite leaves the order of rows with equal rank unspecified, and so
 * does this model.
 */
module Ordering {

  predicate SortedDesc<K>(r: seq<K>, rank: K -> int) {
    forall i, j | 0 <= i < j < |r| :: rank(r[i]) >= rank(r[j])
  }

  predicate Distinct<K(==)>(r: seq<K>) {
    forall i, j | 0 <= i < j < |r| :: r[i] != r[j]
  }

  /** A key of greatest rank in a non-empty set. */
  method Top<K(==)>(s: set<K>, rank: K -> int) returns (k: K)
    requires s != {}
    ensures k in s
    ensures forall j | j in s :: rank(j) <= rank(k)
  {
    k :| k in s;
    var rest := s - {k};
    while rest != {}
      invariant rest <= s && k in s
      invariant forall j | j in s && j !in rest :: rank(j) <= rank(k)
      decreases |rest|
    {
      var x :| x in rest;
      if rank(x) > rank(k) {
        k := x;
      }
      rest := rest - {x};
    }
  }

  /** The keys of `keys`, each once, in non-increasing rank. */
  method SortByRankDesc<K(==)>(keys: set<K>, rank: K -> int) returns (r: seq<K>)
    ensures |r| == |keys|
    ensures forall k :: k in r <==> k in keys
    ensures Distinct(r)
    ensures SortedDesc(r, rank)
  {
    r := [];
    var rest := keys;
    while rest != {}
      invariant rest <= keys
      invariant forall k :: k in r <==> k in keys && k !in rest
      invariant Distinct(r) && SortedDesc(r, rank)
      invariant forall i, k | 0 <= i < |r| && k in rest :: rank(k) <= rank(r[i])
      invariant |r| + |rest| == |keys|
      decreases |rest|
    {
      var top := Top(rest, rank);
      r := r + [top];
      rest := rest - {top};
    }
  }

  /**
   * The rows of a table, latest first: the keys each once in non-increasing rank of
   * their rows, and the rows in that order.
   */
  method RowsByRankDesc<K(==), V>(rows: map<K, V>, rank: V -> int) returns (keys: seq<K>, values: seq<V>)
    ensures |keys| == |values| == |rows|
    ensures forall i | 0 <= i < |keys| :: keys[i] in rows && values[i] == rows[keys[i]]
    ensures forall k | k in rows :: rows[k] in values
    ensures Distinct(keys)
    ensures forall i, j | 0 <= i < j < |values| :: rank(values[i]) >= rank(values[j])
  {
    keys := SortByRankDesc(rows.Keys, (k: K) => if k in rows then rank(rows[k]) else 0);
    values := seq(|keys|, i requires 0 <= i < |keys| && keys[i] in rows => rows[keys[i]]);
    forall k | k in rows
      ensures rows[k] in values
    {
      var i :| 0 <= i < |keys| && keys[i] == k;
      assert values[i] == rows[k];
    }
  }
}
