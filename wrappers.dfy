/** Optional values, standing in for the C# nullable references of the plugin. */
module Wrappers {
  datatype Option<+T> = None | Some(value: T)
}
