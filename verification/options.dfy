/** The optional value used wherever the source either has an attribute or
    an index, or does not. */
module Options {

  datatype Option<+T> = None | Some(value: T)
}
