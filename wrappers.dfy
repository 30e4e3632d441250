/** Optional values: `None` stands for PHP's `false` / `null` / "not set". */
module Wrappers {

  datatype Option<+T> = None | Some(value: T)
}
