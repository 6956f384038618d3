/** Optional values: a JavaScript `undefined`/`null` or an absent key becomes `None`. */
module Wrappers {

  datatype Option<+T> = None | Some(value: T)
}
