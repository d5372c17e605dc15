/** A value that may be absent: the optional fields of a request record. */
module Options {

  datatype Option<+T> = None | Some(value: T)

}
