/** A value that may be absent, as the code's `None`, `null` and missing rows are modelled. */
module Options {

  datatype Option<+T> = None | Some(value: T)
}
