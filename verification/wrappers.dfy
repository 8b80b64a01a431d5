/** The optional-value datatype used for absent request fields and lookups. */
module Wrappers {

  /** `None` stands for JavaScript's `undefined` (a field the request did not carry). */
  datatype Option<+T> = None | Some(value: T)
}
