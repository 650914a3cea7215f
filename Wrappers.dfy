/** Optional values, standing for the Guava `Optional<String>` and the
    nullable strings the tool passes around. */
module Wrappers {

  datatype Option<+T> = None | Some(value: T)
}
