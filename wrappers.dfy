/** Optional values, used for the monitor's selection (Python's `None` or a tank id). */
module Wrappers {

  datatype Option<+T> = None | Some(value: T)
}
