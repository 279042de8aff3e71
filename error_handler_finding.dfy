/** The error handler as the source leaves it. `defaultRetrier`
    (options.go:13-20) does not set the `errorHandler` field and no option
    sets it, so in every retrier it is Go's nil func, and the three calls of it
    in `Do` (retrier.go:69, 73, 79) panic. The rest of the model gives every
    retrier `DefaultErrorHandler`, which returns the sentinel, as the tests
    (retrier_test.go:67, 77, 162) expect. */
module NilErrorHandler {
  import opened ErrorValues
  import opened CancelContext
  import opened RetrierOptions
  import opened RetryLoop
  import opened RetryLoopProperties
  import opened RetrierScenarios

  /** A Go func value of type ErrorHandler: nil, or a function. */
  datatype HandlerField = Nil | Func(f: ErrorHandler)

  /** What a call of `Do` does: it panics, or returns an error (nil when
      `None`). */
  datatype Call = Panicked | Returned(err: Option<Error>)

  /** Calling the handler field: calling nil panics. */
  function Invoke(h: HandlerField, retrierErr: Error, actionErr: Option<Error>): Call {
    match h
    case Nil => Panicked
    case Func(f) => Returned(f(retrierErr, actionErr))
  }

  /** The handler field of every retrier as written: the zero value. */
  const AsWrittenHandler: HandlerField := Nil

  /** The action error the handler receives: the last one `onError` saw. */
  function LastError(t: Trace): Option<Error> {
    if t.errors == [] then None else Some(Last(t.errors))
  }

  /** `Do` as written (retrier.go:49-80) with handler field `h`: it returns
      directly on success and on the cancellation poll, and otherwise returns
      what calling `h` with the exit's sentinel and the last action error
      gives. */
  function DoAsWritten(c: Config, h: HandlerField, ctx: Context, action: ActionFunc): Call {
    var t := Run(c, ctx, action);
    match t.exit
    case Succeeded => Returned(None)
    case Cancelled =>
      if t.invocations < |t.attempts| then Returned(Some(ErrContextCanceled))
      else Invoke(h, ErrContextCanceled, LastError(t))
    case NotRetriable => Invoke(h, ErrRequestNotRetriable, LastError(t))
    case Exhausted => Invoke(h, ErrNotSuccessful, LastError(t))
  }

  /** With a handler set, `DoAsWritten` returns what the model's `Do` returns
      with that handler. */
  lemma AsWrittenAgreesWhenSet(c: Config, ctx: Context, action: ActionFunc)
    ensures DoAsWritten(c, Func(c.errorHandler), ctx, action) == Returned(Run(c, ctx, action).result)
  {
    LoopInvocations(c, ctx, action, 0, None);
    LoopResults(c, ctx, action, 0, None);
  }

  /** With the field nil, a call panics exactly when it neither succeeds nor
      stops at the cancellation poll: every other exit calls the handler. */
  lemma AsWrittenPanics(c: Config, ctx: Context, action: ActionFunc)
    ensures var t := Run(c, ctx, action);
      DoAsWritten(c, AsWrittenHandler, ctx, action) == Panicked <==>
        !(t.exit == Succeeded || (t.exit == Cancelled && t.invocations < |t.attempts|))
  {
  }

  /** The "Non-retriable error" test (retrier_test.go:59-68) expects
      ErrRequestNotRetriable; as written the call panics instead. */
  lemma NonRetriableTestPanicsAsWritten(onErr: OnErrorFunc)
    ensures DoAsWritten(TableRetrier(onErr), AsWrittenHandler, Background,
                        (n: nat) => Outcome(Some(SomethingWentWrong), false)) == Panicked
  {
    NonRetriableError(onErr);
    LoopResults(TableRetrier(onErr), Background, (n: nat) => Outcome(Some(SomethingWentWrong), false), 0, None);
  }

  /** With the default handler that the model gives every retrier, the same
      test returns the bare sentinel, as it expects. */
  lemma NonRetriableTestCorrected(onErr: OnErrorFunc)
    ensures DoAsWritten(TableRetrier(onErr), Func(DefaultErrorHandler), Background,
                        (n: nat) => Outcome(Some(SomethingWentWrong), false)) == Returned(Some(ErrRequestNotRetriable))
  {
    TableRetrierFields(onErr);
    NonRetriableError(onErr);
    AsWrittenAgreesWhenSet(TableRetrier(onErr), Background, (n: nat) => Outcome(Some(SomethingWentWrong), false));
  }
}
