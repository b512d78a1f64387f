/** Optional values: a fingertip that could not be mapped to a pixel is `None`. */
module Wrappers {

  datatype Option<+T> = None | Some(value: T)
}
