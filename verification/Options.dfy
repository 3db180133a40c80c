/** Failure-free and failure-carrying results shared by every component. */
module Options {
  datatype Option<+T> = None | Some(value: T)

  datatype Result<+T, +E> = Success(value: T) | Failure(error: E)

  /** True for a string that is present and not empty. */
  predicate NonEmpty(s: Option<string>) {
    s.Some? && s.value != ""
  }
}
