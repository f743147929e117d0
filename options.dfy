/** The optional value shared by the modules: an event's payload, present only when someone listens. */
module Options {
  datatype Option<T> = None | Some(value: T)
}
