/** Optional values: a cell's owner, the winner, a pending move. */
module Wrappers {

  datatype Option<+T> = None | Some(value: T)
}
