/** Optional values, standing for the references the Java source allows to be null. */
module Wrappers {

  datatype Option<+T> = None | Some(value: T)

}
