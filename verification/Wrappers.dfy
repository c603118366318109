/** A value that may be absent, and look-ups that give one. */
module Wrappers {
  datatype Option<+T> = None | Some(value: T)

  function Lookup<V>(entries: map<string, V>, key: string): Option<V> {
    if key in entries then Some(entries[key]) else None
  }
}
