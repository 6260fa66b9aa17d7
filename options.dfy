/** A value that may be missing, as pandas marks a row it cannot label with NaN. */
module Options {
  datatype Option<T> = None | Some(value: T)
}
