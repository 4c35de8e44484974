/** The usual Some/None datatype, used for the partial inverses (parsers) of the
    renderings in module Text. */
module Wrappers {

  datatype Option<+T> = None | Some(value: T)

}
