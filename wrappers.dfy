/** The optional value used for a link cell, a sender's cached producer and a receive. */
module Wrappers {

  datatype Option<+T> = None | Some(value: T)

}
