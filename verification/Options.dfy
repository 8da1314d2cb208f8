/** A value that may be missing, for a null result and for a semaphore that is not posted. */
module Options {
  datatype Option<+T> = None | Some(value: T)
}
