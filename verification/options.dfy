/** The optional value used for the source's optional fields and for searches that may fail. */
module Options {

  datatype Option<+T> = None | Some(value: T)
}
