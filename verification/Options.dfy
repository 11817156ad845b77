/** The optional value used throughout for "may be absent". */
module Options {

  datatype Option<+T> = None | Some(value: T)
}
