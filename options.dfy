/** A value that may be absent: JavaScript's `null`/`undefined`, or a PHP value that is not set. */
module Options {
  datatype Option<T> = None | Some(value: T)
}
