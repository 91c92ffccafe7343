/** Optional values: the model's stand-in for Python's `None` and for a DOM
    lookup that raised `NoSuchElementException`. */
module Wrappers {

  datatype Option<+T> = None | Some(value: T)
}
