/** A value that may be missing: Java's nullable references. */
module Optional {

  datatype Option<+T> = None | Some(value: T)
}
