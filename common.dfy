/** Small shared datatypes. */
module Common {

  /** A value that may be absent: a reply field that was not found, a table entry that did not match. */
  datatype Option<+T> = None | Some(value: T)
}
