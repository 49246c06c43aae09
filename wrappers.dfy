/** Swift's Optional, used for the absent floor, the rejected transition and the
    possibly missing delegate. */
module Wrappers {

  datatype Option<+T> = None | Some(value: T)
}
