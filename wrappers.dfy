/** Python's `None`-or-value, as used for the catalog's "whole table" key
    and for the optional column argument of the help action. */
module Wrappers {

  datatype Option<+T> = None | Some(value: T)
}
