/** The optional value used for Python's `None` and pandas' missing values. */
module Options {

  datatype Option<+T> = None | Some(value: T)
}
