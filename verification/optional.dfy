/** The optional values of the tool's keyword arguments (Python's `Optional[...]`, `None` when absent). */
module Optional {
  datatype Option<+T> = None | Some(value: T)
}
