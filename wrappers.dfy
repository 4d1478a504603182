/** Optional values: a document field that may be absent. */
module Wrappers {

  /** None stands for a field the document does not have (JavaScript's `undefined`). */
  datatype Option<+T> = None | Some(value: T)
}
