/** Optional values: the model's stand-in for Go's nil pointers, nil slices
    and nil raw messages. */
module Wrappers {

  datatype Option<+T> = None | Some(value: T)
}
