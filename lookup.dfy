/** Optional values and the explicit default lookups that stand in for Python's
    `dict.get(key, default)` and `defaultdict` reads. */
module Lookup {

  datatype Option<+T> = None | Some(value: T)

  /** `d.get(k)`: the value under `k`, or None when the key is missing. */
  function Get<K, V>(m: map<K, V>, k: K): Option<V>
  {
    if k in m then Some(m[k]) else None
  }

  /** `d.get(k, default)`, and a `defaultdict` read with the factory's value as `default`. */
  function GetOr<K, V>(m: map<K, V>, k: K, default: V): V
  {
    if k in m then m[k] else default
  }
}
