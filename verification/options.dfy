/** The optional-value datatype used for the source's `Optional[...]` parameters. */
module Options {

  datatype Option<+T> = None | Some(value: T)
}
