/** Optional values: a JavaScript value that may be `undefined`, a tween that may not be started. */
module Wrappers {

  datatype Option<+T> = None | Some(value: T)
}
