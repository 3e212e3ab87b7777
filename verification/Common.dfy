/** Small shared vocabulary: optional values, object keys and the answers of a remote lookup. */
module Common {

  datatype Option<+T> = None | Some(value: T)

  /** The namespaced name of a Kubernetes object. */
  datatype Key = Key(ns: string, name: string)

  /** The file of an agent's identity in its work directory (internal/identity). */
  const PRIVATE_KEY_FILE := "private.key"

  /** What a read of a remote object answers. */
  datatype Lookup<+T> = Failed | Missing | Found(value: T)

  function Get<K, V>(m: map<K, V>, k: K): Option<V> {
    if k in m then Some(m[k]) else None
  }

  function Find<V>(m: map<Key, V>, k: Key, fails: bool): Lookup<V> {
    if fails then Failed else if k in m then Found(m[k]) else Missing
  }
}
