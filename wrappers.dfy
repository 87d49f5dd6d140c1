/** The optional value used wherever the bot either produces a result or
    produces none (an aborted handler, a record that does not decode). */
module Wrappers {

  datatype Option<+T> = None | Some(value: T)
}
