/** A value that may be absent, used for regular-expression matches that may fail. */
module Optional {

  datatype Option<+T> = None | Some(value: T)
}
