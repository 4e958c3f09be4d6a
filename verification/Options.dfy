/** The one optional-value type shared by every module: SQL NULL, Python None, "no answer". */
module Options {
  datatype Option<+T> = None | Some(value: T)
}
