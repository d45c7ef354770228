/** Optional values, used for absent XML text, failed number parsing and rates no rule matches. */
module Wrappers {

  datatype Option<+T> = None | Some(value: T)

}
