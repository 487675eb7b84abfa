/** JavaScript-level values shared by the dispatch layer: optional values
    (`undefined` is `None`), settled outcomes of calls that may fail, the
    errors they carry, and the truthiness tests the source applies to
    configuration fields. */
module Values {

  /** A value that may be `undefined`. */
  datatype Option<+T> = None | Some(value: T)

  /** The settled result of a call that either yields a value or fails
      (a promise that resolves or rejects, a call that returns or throws). */
  datatype Outcome<+T, +E> = Success(value: T) | Failure(error: E)

  /** A JavaScript error object, reduced to what its `toString()` yields. */
  datatype JsError = JsError(text: string)

  /** `!!x` for a numeric configuration field: `undefined` and `0` are falsy. */
  predicate IsTruthyNumber(x: Option<int>) {
    x.Some? && x.value != 0
  }

  /** `!!x` for a string configuration field: `undefined` and `""` are falsy. */
  predicate IsTruthyString(x: Option<string>) {
    x.Some? && x.value != ""
  }
}
