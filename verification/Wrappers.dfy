/** The optional values used throughout: a Go pointer, map or slice that may be nil. */
module Wrappers {
  datatype Option<+T> = None | Some(value: T) {
    function GetOr(default: T): T {
      if Some? then value else default
    }
  }

  /** No two positions hold the same value. */
  ghost predicate NoDuplicates<T>(xs: seq<T>) {
    forall i, j :: 0 <= i < j < |xs| ==> xs[i] != xs[j]
  }

  // ---------- maps ----------

  /** Both maps say the same of a key. */
  predicate SameAt<K, V(==)>(a: map<K, V>, b: map<K, V>, key: K) {
    (key in a <==> key in b) && (key in a ==> a[key] == b[key])
  }

  lemma UpdatesCommute<K, V>(m: map<K, V>, k: K, v: V, k': K, v': V)
    requires k != k'
    ensures m[k := v][k' := v'] == m[k' := v'][k := v]
  {
  }

  lemma SumsCommute<K, V>(m: map<K, V>, a: map<K, V>, b: map<K, V>)
    requires a.Keys !! b.Keys
    ensures m + a + b == m + b + a
  {
  }
}
