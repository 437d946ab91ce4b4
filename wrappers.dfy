/** The "maybe absent" value used for optional components and for the
    filters' `null`-initialised state cells. */
module Wrappers {

  datatype Option<+T> = None | Some(value: T)
}
