/** The option type used where the allocator uses a nullable pointer. */
module Options {
  datatype Option<+T> = None | Some(value: T)
}
