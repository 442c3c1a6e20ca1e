/** Optional values: a dictionary entry, an environment variable or a
    Telegram field that may be absent. */
module Wrappers {

  datatype Option<+T> = None | Some(value: T)
}
