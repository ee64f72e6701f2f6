/** The Some/None datatype used for the source's `Optional[...]` results and `None` defaults. */
module Optional {

  datatype Option<+T> = None | Some(value: T)
}
