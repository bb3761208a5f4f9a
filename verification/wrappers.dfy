/** The optional value used for every nullable pointer of the element:
    a C `NULL` is `None`, a live object is `Some`. */
module Wrappers {

  datatype Option<+T> = None | Some(value: T)
}
