/** The two result shapes the models share: a possibly missing value, and a value
    or the exception the program raises instead. */
module Wrappers {

  datatype Option<+T> = None | Some(value: T) {
    function GetOr(default: T): T {
      if Some? then value else default
    }
  }

  datatype Result<+T, +E> = Ok(value: T) | Err(error: E)

  /** `dict.get(key)` */
  function Lookup<K, V>(m: map<K, V>, k: K): Option<V> {
    if k in m then Some(m[k]) else None
  }

  /** `dict.get(key, 0)` */
  function Count<K>(m: map<K, nat>, k: K): nat {
    if k in m then m[k] else 0
  }

  /** A map is what looking up each key gives. */
  lemma SameLookups<K, V>(a: map<K, V>, b: map<K, V>)
    ensures a == b <==> forall k :: Lookup(a, k) == Lookup(b, k)
  {
    if forall k :: Lookup(a, k) == Lookup(b, k) {
      forall k ensures k in a <==> k in b { assert Lookup(a, k) == Lookup(b, k); }
      forall k | k in a ensures a[k] == b[k] { assert Lookup(a, k) == Lookup(b, k); }
    }
  }
}
