/** Optional values, standing for JavaScript's `null` (the initial code
    reference) and `undefined` (an absent name). */
module Wrappers {

  /** Either nothing, or one value of type T. */
  datatype Option<T> = None | Some(value: T)
}
