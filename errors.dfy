/** Values that stand in for Go's `error` interface and its nil. */
module ErrorValues {

  /** An optional value; an `Option<Error>` that is `None` is Go's nil error. */
  datatype Option<T> = None | Some(value: T)

  /** A Go `error`, seen through the text its `Error()` method returns.
      Errors are compared by text, as the tests of the retrier do. */
  datatype Error = Error(text: string)
}
