/** A value that may be missing: a null, a field that is not set, a result that failed. */
module Options {

  datatype Option<+T> = None | Some(value: T)
}
