/** Optional values, standing in for Java's nullable references. */
module Options {

  datatype Option<T> = None | Some(value: T)
}
