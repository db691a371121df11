/** An optional value: a notification that may or may not be sent, a fetch
    that may have failed, a chart kind that may not be recognised. */
module Wrappers {

  datatype Option<+T> = None | Some(value: T)
}
