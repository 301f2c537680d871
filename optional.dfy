/** The optional value used for nullable fields and "no result" answers. */
module Optional {

  datatype Option<+T> = None | Some(value: T)
}
