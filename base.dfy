/** The optional value that stands for a Java reference that may be null. */
module Base {

  datatype Option<+T> = None | Some(value: T)
}
