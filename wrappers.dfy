/** Optional values: C#'s nullable references and `Nullable<T>`. */
module Wrappers {

  datatype Option<+T> = None | Some(value: T)
}
