/** Option, used wherever the program returns `null`, `undefined` or throws. */
module Wrappers {
  datatype Option<+T> = None | Some(value: T)

  function Lookup<K, V>(values: map<K, V>, key: K): Option<V> {
    if key in values then Some(values[key]) else None
  }
}
