/** Error values and the Option/Result wrappers that the rest of the model shares. */
module Results {

  /** A Go `error` as the loader inspects it: `os.IsNotExist` is the only
      question the code ever asks of one, so that is the only distinction kept. */
  datatype Error = NotExist(message: string) | Other(message: string)

  /** A value that may be absent (a nil pointer in the source). */
  datatype Option<+T> = None | Some(value: T)

  /** A value or the error that prevented it (the source's `(T, error)` pairs). */
  datatype Result<+T> = Ok(value: T) | Err(error: Error)

  /** The comma-ok lookup `v, ok := m[k]`, as one optional value. */
  function Lookup<K, V>(m: map<K, V>, k: K): Option<V>
  {
    if k in m then Some(m[k]) else None
  }
}
