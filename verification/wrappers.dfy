/** The optional value used for JavaScript's `undefined` fields and for
    parsers that may fail. */
module Wrappers {

  datatype Option<+T> = None | Some(value: T)
}
