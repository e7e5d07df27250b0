/** Python values, exceptions and the `dict.get` lookup used throughout the spawner. */
module Values {

  /** A value stored in a spawner option dict or in the persisted session state. */
  datatype Value =
    | Text(s: string)
    | Number(n: int)
    | Table(entries: map<string, Value>)
    | Items(elems: seq<Value>)

  datatype Option<T> = None | Some(value: T)

  /** The Python exceptions the modelled code can raise. */
  datatype Error = IndexError | TypeError

  /** A Python call that either returns a value or raises one of the exceptions above. */
  datatype Result<T> = Ok(value: T) | Err(error: Error)

  /** `d.get(k, default)`. */
  function Get<K, V>(d: map<K, V>, k: K, default: V): V
  {
    if k in d then d[k] else default
  }
}
