module Results {
  /** A pointer that may be NULL, or the result of a call that may fail. */
  datatype Option<+T> = None | Some(value: T)
}
