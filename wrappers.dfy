/** The optional value used for whatever may be absent: a session-state key that
    has not been set yet, or a data file that does not exist yet. */
module Wrappers {

  datatype Option<+T> = None | Some(value: T)
}
