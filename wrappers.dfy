/** The optional value used for Python's `Optional[...]` fields and for the
    outcome of a call that may raise. */
module Wrappers {

  datatype Option<+T> = None | Some(value: T)
}
