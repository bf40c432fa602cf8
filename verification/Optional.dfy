/** The optional value used for `Tool | undefined` and for the optional tool name of a direct command. */
module Optional {
  datatype Option<+T> = None | Some(value: T)
}
