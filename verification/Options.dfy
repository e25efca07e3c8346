module Options {
  /** A value that may be missing, or the outcome of a call that may raise. */
  datatype Option<+T> = None | Some(value: T)
}
