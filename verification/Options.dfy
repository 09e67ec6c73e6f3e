/** A value or none: a nullable pointer, an allocation that may fail, an owner if any. */
module Options {

  datatype Option<T> = None | Some(value: T)
}
