/** Small shared datatypes. */
module Common {

  /** A value that may be absent: SQL NULL, a missing request field, or a query
      that matched no row. */
  datatype Option<T> = None | Some(value: T)
}
