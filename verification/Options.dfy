/** The optional value used for SQL NULL, missing keys and absent parameters. */
module Options {
  datatype Option<+T> = None | Some(value: T)
}
