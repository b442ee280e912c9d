/** Small value wrappers shared by every module of the exporter model. */
module Wrappers {

  datatype Option<+T> = None | Some(value: T)

  /**
   * A Go function's two results `(value, err)`: on failure the value is
   * whatever the Go code returns beside the error (usually the zero value).
   */
  datatype ValueErr<+T> = ValueErr(value: T, err: Option<string>) {
    predicate Ok() { err.None? }
  }
}
