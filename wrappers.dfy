/** Optional values: a field that was not supplied or could not be read. */
module Wrappers {

  datatype Option<+T> = None | Some(value: T)
}
