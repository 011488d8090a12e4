/** Optional values: a session that may or may not carry a user, a message that may or may not be sent. */
module Wrappers {

  datatype Option<+T> = None | Some(value: T)
}
