/** The optional values that model Swift's `Optional` results of failable lookups. */
module Options {

  datatype Option<T> = None | Some(value: T)
}
