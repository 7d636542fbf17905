/** Optional values: the model of C#'s nullable references and `T?` values. */
module Wrappers {

  datatype Option<+T> = None | Some(value: T)
}
