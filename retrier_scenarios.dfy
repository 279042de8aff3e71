/** The retry loop's tests (retrier_test.go), proved of the model: each one
    builds a retrier from options, runs one call of `Do` and checks the
    returned error, the number of invocations and the number of `onError`
    calls. */
module RetrierScenarios {
  import opened ErrorValues
  import opened CancelContext
  import opened BackoffPolicy
  import opened RetrierOptions
  import opened RetryLoop
  import opened RetryLoopProperties

  /** The error every test action fails with. */
  const SomethingWentWrong := Error("something went wrong")

  /** That error is not cancellation text, so the loop treats it by its
      retriable flag. */
  lemma SomethingWentWrongIsOrdinary()
    ensures !IsCanceledContextError(SomethingWentWrong)
  {
    var text := SomethingWentWrong.text;
    assert forall i :: 0 <= i < |text| ==> LowerChar(text[i]) == text[i];
    assert ToLower(text) == text;
    forall i: nat
      ensures !OccursAt(text, CanceledText, i)
    {
      if i + |CanceledText| <= |text| {
        assert text[i..i + |CanceledText|][0] != CanceledText[0];
      }
    }
    IsCanceledContextErrorIff(SomethingWentWrong);
  }

  /** The retrier of Test_DoWithRetries (retrier_test.go:83-87): four
      attempts, the test's error callback, exponential backoff. */
  function TableRetrier(onErr: OnErrorFunc): Config {
    Configure([WithMaxAttempts(4), WithOnError(onErr), WithBackoff(ExponentialBackoff)])
  }

  /** Its attempt budget and the fields no option touches. */
  lemma TableRetrierFields(onErr: OnErrorFunc)
    ensures TableRetrier(onErr).maxAttempts == 4
    ensures !TableRetrier(onErr).ignoreCtx
    ensures TableRetrier(onErr).errorHandler == DefaultErrorHandler
  {
    var opts := [WithMaxAttempts(4), WithOnError(onErr), WithBackoff(ExponentialBackoff)];
    LastWriterWins(DefaultRetrier(), opts, 0);
    UntouchedFieldKept(DefaultRetrier(), opts, IgnoreCtxField);
    ErrorHandlerNeverAssigned(opts);
  }

  /** "Success after some errors" (retrier_test.go:36-48): two retriable
      failures, then success. */
  lemma SuccessAfterSomeErrors(onErr: OnErrorFunc)
    ensures var t := Run(TableRetrier(onErr), Background,
                         (n: nat) => if n >= 2 then Outcome(None, false) else Outcome(Some(SomethingWentWrong), true));
      t.result == None && t.invocations == 3 && |t.errors| == 2
  {
    var c := TableRetrier(onErr);
    var action := (n: nat) => if n >= 2 then Outcome(None, false) else Outcome(Some(SomethingWentWrong), true);
    TableRetrierFields(onErr);
    SomethingWentWrongIsOrdinary();
    assert RetriesBefore(c, Background, action, 2);
    SucceedsAt(c, Background, action, 2);
  }

  /** "Immediate success" (retrier_test.go:49-58). */
  lemma ImmediateSuccess(onErr: OnErrorFunc)
    ensures var t := Run(TableRetrier(onErr), Background, (n: nat) => Outcome(None, false));
      t.result == None && t.invocations == 1 && |t.errors| == 0
  {
    TableRetrierFields(onErr);
    SucceedsAt(TableRetrier(onErr), Background, (n: nat) => Outcome(None, false), 0);
  }

  /** "Non-retriable error" (retrier_test.go:59-68). */
  lemma NonRetriableError(onErr: OnErrorFunc)
    ensures var t := Run(TableRetrier(onErr), Background, (n: nat) => Outcome(Some(SomethingWentWrong), false));
      t.result == Some(ErrRequestNotRetriable) && t.invocations == 1 && |t.errors| == 1
  {
    var c := TableRetrier(onErr);
    var action := (n: nat) => Outcome(Some(SomethingWentWrong), false);
    TableRetrierFields(onErr);
    SomethingWentWrongIsOrdinary();
    NotRetriableAt(c, Background, action, 0, SomethingWentWrong);
  }

  /** "Failure" (retrier_test.go:69-78): every attempt fails retriably. */
  lemma Failure(onErr: OnErrorFunc)
    ensures var t := Run(TableRetrier(onErr), Background, (n: nat) => Outcome(Some(SomethingWentWrong), true));
      t.result == Some(ErrNotSuccessful) && t.invocations == 4 && |t.errors| == 4
  {
    var c := TableRetrier(onErr);
    var action := (n: nat) => Outcome(Some(SomethingWentWrong), true);
    TableRetrierFields(onErr);
    SomethingWentWrongIsOrdinary();
    assert RetriesBefore(c, Background, action, 4);
    ExhaustedAfterRetries(c, Background, action);
  }

  /** The action of the two cancellation tests: it cancels the context during
      its first invocation and fails retriably (retrier_test.go:108-114). */
  const CancellingAction: ActionFunc := (n: nat) => Outcome(Some(SomethingWentWrong), true)
  const CancelledDuringFirstInvocation := CancelledBefore(1)

  /** Test_DoWithRetries_ContextCanceledAfterFirstAttempt
      (retrier_test.go:106-134): the poll of the second attempt sees the
      cancellation, after one invocation and one `onError` call. */
  lemma ContextCanceledAfterFirstAttempt(onErr: OnErrorFunc)
    ensures var t := Run(Configure([WithOnError(onErr)]), CancelledDuringFirstInvocation, CancellingAction);
      t.result == Some(ErrContextCanceled) && t.invocations == 1 && |t.errors| == 1
  {
    var opts := [WithOnError(onErr)];
    var c := Configure(opts);
    SomethingWentWrongIsOrdinary();
    UntouchedFieldKept(DefaultRetrier(), opts, MaxAttemptsField);
    UntouchedFieldKept(DefaultRetrier(), opts, IgnoreCtxField);
    assert RetriesBefore(c, CancelledDuringFirstInvocation, CancellingAction, 1);
    CancelledAtPoll(c, CancelledDuringFirstInvocation, CancellingAction, 1);
  }

  /** Test_DoWithRetries_ContextCanceledButWeIgnore (retrier_test.go:136-165):
      with cancellation ignored all three default attempts are made. */
  lemma ContextCanceledButWeIgnore(onErr: OnErrorFunc)
    ensures var t := Run(Configure([WithOnError(onErr), WithIgnoreCtx(true)]),
                         CancelledDuringFirstInvocation, CancellingAction);
      t.result == Some(ErrNotSuccessful) && t.invocations == 3 && |t.errors| == 3
  {
    var opts := [WithOnError(onErr), WithIgnoreCtx(true)];
    var c := Configure(opts);
    ErrorHandlerNeverAssigned(opts);
    UntouchedFieldKept(DefaultRetrier(), opts, MaxAttemptsField);
    LastWriterWins(DefaultRetrier(), opts, 1);
    assert RetriesBefore(c, CancelledDuringFirstInvocation, CancellingAction, 3);
    ExhaustedAfterRetries(c, CancelledDuringFirstInvocation, CancellingAction);
  }
}
