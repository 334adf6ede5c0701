/** The optional value used where the source returns a value or nothing
    (PHP's FALSE from a failed request, SQLite's NULL from an empty query). */
module Options {
  datatype Option<+T> = None | Some(value: T)
}
