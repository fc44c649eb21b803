/** Small shared datatypes. */
module Common {

  /** A value that may be absent (a missing dictionary key, a path that is not below another). */
  datatype Option<+T> = None | Some(value: T)
}
