/** The optional value used for every entity slot and every lookup that may find nothing
    (Python's None). */
module Wrappers {

  datatype Option<T> = None | Some(value: T)
}
