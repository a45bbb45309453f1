/** The optional value used wherever the JavaScript code returns `null`
    or reads a field that may be absent. */
module Options {
  datatype Option<T> = None | Some(value: T)
}
