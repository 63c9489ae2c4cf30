/** Juju relation databags: string maps in which writing the empty string removes the key. */
module Databags {

  datatype Option<+T> = None | Some(value: T)

  /** One write of several fields at once. */
  function Update<K>(bag: map<K, string>, changes: map<K, string>): map<K, string> {
    map k | k in bag.Keys + changes.Keys && (k in changes ==> changes[k] != "") ::
      if k in changes then changes[k] else bag[k]
  }

  function Lookup<K, V>(bag: map<K, V>, key: K): Option<V> {
    if key in bag then Some(bag[key]) else None
  }
}
