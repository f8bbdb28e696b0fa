/** The conventional Some/None datatype, standing for Java's Optional and for nullable references. */
module Optional {
  datatype Option<+T> = None | Some(value: T)
}
