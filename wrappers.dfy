/** Optional values: `None` stands for a C# `null` reference or an unset `Nullable<T>`. */
module Wrappers {

  datatype Option<+T> = None | Some(value: T)
}
