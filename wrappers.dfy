/** The optional value used for JavaScript's `undefined`: a field or header
    that is absent is `None`. */
module Wrappers {

  datatype Option<+T> = None | Some(value: T)
}
