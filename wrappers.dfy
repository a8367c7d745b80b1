/** Optional values and transport outcomes, shared by the model. */
module Wrappers {

  /** A value that may be absent (Python's `None`). */
  datatype Option<+T> = None | Some(value: T)

  /** The outcome of one HTTP request: the reply arrived, or the transport raised. */
  datatype Transport<+T> = Delivered(reply: T) | TransportError

  /** `d.get(k)` on a dictionary: the stored value, or `None` when the key is missing. */
  function Get<K, V>(m: map<K, V>, k: K): (r: Option<V>)
    ensures r.Some? <==> k in m
    ensures r.Some? ==> r.value == m[k]
  {
    if k in m then Some(m[k]) else None
  }
}
