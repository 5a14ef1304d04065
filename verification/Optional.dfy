/** The `null`-or-value cells of the dashboard's state (an open dropdown id, the signed-in user). */
module Optional {
  datatype Option<+T> = None | Some(value: T)
}
