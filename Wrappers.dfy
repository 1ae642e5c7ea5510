/** The optional value used wherever the source has `undefined` or `null`. */
module Wrappers {
  datatype Option<+T> = None | Some(value: T)

  /** A JavaScript string is falsy exactly when it is absent or empty. */
  predicate Truthy(o: Option<string>)
  {
    o.Some? && o.value != ""
  }
}
