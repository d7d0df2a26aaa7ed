/** The optional value used wherever the storefront reads a field that may be
    missing (`undefined`/`null`) or a lookup that may find nothing. */
module Maybe {
  datatype Option<+T> = None | Some(value: T)
}
