/** The optional value used for a session whose unicast sender may not be set up yet. */
module Wrappers {

  datatype Option<+T> = None | Some(value: T)
}
