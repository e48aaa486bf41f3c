/** An optional value, for results that may be missing: a model reply that
    failed, a file that could not be read, a prompt that could not be built. */
module Optional {
  datatype Option<T> = None | Some(value: T)
}
