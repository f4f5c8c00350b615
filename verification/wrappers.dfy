/** The optional value used for "no value" fields: an unset explicit size,
    a missing event handler, a drained event queue. */
module Wrappers {

  datatype Option<+T> = None | Some(value: T)
}
