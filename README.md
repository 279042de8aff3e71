# trytryagain retry executor, modelled in Dafny

`trytryagain` runs an action with retries. A `Retrier` is built by
`NewRetrier` from the defaults: three attempts, exponential backoff, a no-op
error callback and cancellation observed. The `With*` options then change
it. `Retrier.Do` runs the loop. Attempt `i` first asks the backoff for a
delay and sleeps. It then polls the context and invokes the action. If the
action failed, `Do` calls `onError` with the error and classifies it.
A call ends in one of four ways:

- the action succeeded (nil);
- the context was cancelled (`ErrContextCanceled`);
- the error was not retriable (`ErrRequestNotRetriable`);
- the attempts ran out (`ErrNotSuccessful`).

An action error whose lower-cased text contains "context canceled" or
"context deadline exceeded" counts as a cancellation.

The model has these modules:

- `ErrorValues` (errors.dfy): `Option` and an error as its message text.
- `CancelContext` (context.dfy): the context as the poll at which it is
  first found cancelled; `IsContextDone`; the text classifier
  `IsCanceledContextError` with its ASCII `ToLower` and substring scan.
  `CancelContextExamples` proves the classifier's tests.
- `BackoffPolicy` (backoff.dfy): `ExponentialBackoff`, with durations in
  nanoseconds.
- `RetrierOptions` (options.dfy): the configuration as a value, the
  defaults, and each option as the field it assigns. `Configure` is what
  `NewRetrier` builds.
- `RetryLoop` (retrier.dfy): the class `Retrier` with the five fields of
  the Go struct, four of which the options update in place. `Apply` runs one option's closure. `NewRetrier`
  is the loop over the options. `Do` is the retry loop as a `while`
  loop. `Do` is proved equal to the specification function `Run`, and
  `NewRetrier` to `Configure`. A call of `Do` is described by a `Trace`:
  - the exit and the returned error;
  - the number of action invocations;
  - the errors passed to `onError`, in order;
  - the attempt numbers passed to the backoff, and the delays it returned.
- `RetryLoopProperties` (retrier_properties.dfy): what a call does, stated
  of `Run`.
- `RetrierScenarios` (retrier_scenarios.dfy): the loop's tests, proved.
- `NilErrorHandler` (error_handler_finding.dfy): the error handler as the
  source leaves it (see Findings).

The environment is given as data:

- **Action.** It is a script `nat -> Outcome`: the outcome of its n-th
  invocation in the call. Invocation `n` always happens in attempt `n`.
- **Context.** It is `Background` or `CancelledBefore(n)`. The latter is done
  at poll `n` and every later poll. An action that cancels the context during
  invocation `k` is `CancelledBefore(k + 1)`.

## Model

| member | source | states |
|---|---|---|
| CancelContext.IsContextDoneAfterCancel | context.go:14-22 | by construction of `Context`: a context is not done before it is cancelled, is done at every poll after, and Background is never done |
| CancelContext.ContainsIffMentions | context.go:11 | the substring scan finds `sub` exactly when `sub` occurs at some index of `s` |
| CancelContext.IsCanceledContextErrorIff | context.go:8-12 | the classifier holds iff the lower-cased text contains "context canceled" or "context deadline exceeded" somewhere |
| CancelContext.PhraseAnywhereMatches | context.go:10-11 | any text holding, at any position, a phrase that lower-cases to one of the two texts is classified as cancellation |
| CancelContext.ToLowerIdempotent | context.go:10 | lower-casing twice is lower-casing once, so a text and its lower-cased form classify alike |
| CancelContextExamples.ToLowerOfLowerCase | context.go:10 | a text without upper-case letters is unchanged by lower-casing |
| CancelContextExamples.TextsAreLowerCase | context.go:11 | both texts that are searched for are already lower case |
| CancelContextExamples.CapitalisedCanceled | context_test.go:13 | "Context canceled" lower-cases to "context canceled" |
| CancelContextExamples.JsonBodyExample | context_test.go:13 | the JSON body carrying "Context canceled" is classified as cancellation |
| CancelContextExamples.WrappedErrorExample | context_test.go:14 | the wrapped `Get "https://…": context canceled` error is classified as cancellation |
| CancelContextExamples.DeadlineExample | context_test.go:15 | "context deadline exceeded" is classified as cancellation |
| CancelContextExamples.NotFoundExample | context_test.go:16 | "not found" is not classified as cancellation |
| BackoffPolicy.Pow10 | backoff.go:17 | 10^k is at least 1 |
| BackoffPolicy.ExponentialBackoff | backoff.go:12-18 | the delay is never negative |
| BackoffPolicy.FirstAttemptHasNoDelay | backoff.go:14-15 | the delay before attempt 0 is zero, for any context |
| BackoffPolicy.FirstDelays | backoff.go:17 | the delays before attempts 1, 2 and 3 are 10ms, 100ms and 1000ms |
| BackoffPolicy.DelayGrowsTenfold | backoff.go:17 | from attempt 1 on, each delay is ten times the previous one |
| BackoffPolicy.DelayStrictlyIncreasing | backoff.go:17 | for 1 <= j < k the delay before attempt j is less than the delay before attempt k |
| BackoffPolicy.DelayIgnoresContext | backoff.go:13 | two contexts give the same delay for the same attempt count |
| RetrierOptions.FieldOf | options.go:22-48 | no option assigns the error handler field |
| RetrierOptions.ApplyOptionSetsOneField | options.go:22-48 | an option leaves every field but its own unchanged, and the value it stores does not depend on the prior configuration |
| RetrierOptions.ApplyOptionStoresArgument | options.go:22-48 | WithMaxAttempts, WithBackoff, WithOnError and WithIgnoreCtx store their argument unchanged in their field |
| RetrierOptions.UntouchedFieldKept | retrier.go:40-42 | a field that no option in the list assigns keeps its starting value |
| RetrierOptions.LastWriterWins | retrier.go:37-44 | when no later option assigns the same field, the field ends with the value this option gives it |
| RetrierOptions.NoOptionsGivesDefaults | options.go:3-20 | with no options the retrier has 3 attempts, exponential backoff and cancellation observed |
| RetrierOptions.ErrorHandlerNeverAssigned | options.go:13-48 | whatever options are given, the error handler is the one the defaults give |
| RetrierOptions.MaxAttemptsNotValidated | options.go:23-27 | a final WithMaxAttempts(n) leaves exactly n attempts, 0 included |
| RetryLoop.LoopAttempts | retrier.go:51-53 | from attempt i on, the backoff is asked for attempts i, i+1, … once each, its answers are the delays, and no attempt passes the budget |
| RetryLoop.LoopInvocations | retrier.go:56-65 | onError receives the error of every failed invocation in order and nothing else; in every attempt except one stopped by the poll the action is invoked, and that poll's exit returns the bare sentinel |
| RetryLoop.LoopResults | retrier.go:56-79 | the error for each exit: nil on success; otherwise the handler applied to the sentinel and the last error returned by the action (nil if it never ran); on exhaustion the whole budget was used |
| RetryLoop.ExtendTwice | retrier.go:51-77 | prefixing failed attempts twice is prefixing their concatenation once |
| RetryLoop.Retrier.constructor | options.go:13-20 | a new retrier holds the defaults |
| RetryLoop.Retrier.Apply | options.go:22-48 | the option's closure changes the retrier's configuration as ApplyOption says: its own field and no other |
| RetryLoop.Retrier.Do | retrier.go:49-80 | the loop returns exactly the trace of Run on the retrier's configuration |
| RetryLoop.NewRetrier | retrier.go:37-45 | a fresh retrier holding the defaults with every option applied in order |
| RetryLoopProperties.FirstStop | retrier.go:51-77 | the first attempt from i that does not end in a retry, or the budget: every attempt before it retries |
| RetryLoopProperties.RetriedAttempts | retrier.go:51-77 | after k-i retried attempts the loop ends as the loop from k does, with k-i more invocations, errors and attempts |
| RetryLoopProperties.RunStopsAtFirstStop | retrier.go:49-80 | a call stops at the first attempt that does not retry, or after the whole budget; its exit is that attempt's classification; it invokes the action in every attempt it makes except one stopped by the poll |
| RetryLoopProperties.FirstStopIs | retrier.go:51-77 | if every attempt before k retries and attempt k does not, or k is the budget, the first stop is k |
| RetryLoopProperties.RunBookkeeping | retrier.go:50-65 | invocations never exceed the attempts made nor maxAttempts; attempts are 0, 1, 2, …; onError receives every action error in order and is never called on success |
| RetryLoopProperties.ZeroAttemptsNeverInvokes | retrier.go:50-79 | with a budget of 0, the action is never invoked, nothing is slept, and the result is the handler applied to ErrNotSuccessful and nil |
| RetryLoopProperties.SucceedsAt | retrier.go:60-63 | success in attempt k after k retried failures returns nil at once, after k+1 invocations and k onError calls |
| RetryLoopProperties.NotRetriableAt | retrier.go:72-74 | a non-retriable error in attempt k returns the handler applied to ErrRequestNotRetriable and that error, after k+1 invocations and k+1 onError calls |
| RetryLoopProperties.CancelledAtPoll | retrier.go:56-58 | a context done at attempt k's poll, with cancellation observed, returns ErrContextCanceled bypassing the handler, with no invocation in that attempt |
| RetryLoopProperties.CancelledByErrorText | retrier.go:68-70 | an error with cancellation text returns the handler applied to ErrContextCanceled and that error, even if the action called it retriable |
| RetryLoopProperties.ExhaustedAfterRetries | retrier.go:76-79 | if every attempt fails retriably, there are exactly maxAttempts invocations and onError calls, and the result is the handler applied to ErrNotSuccessful and the final attempt's error |
| RetryLoopProperties.IgnoreCtxNeverCancels | retrier.go:56-69 | with ignoreCtx set, neither cancellation exit is taken |
| RetryLoopProperties.DefaultHandlerReturnsSentinels | retrier.go:57-79 | with the default handler each exit returns nil or its bare sentinel |
| RetryLoopProperties.FirstAttemptImmediate | retrier.go:52-53 | under the default backoff the first attempt is made without delay |
| RetryLoopProperties.CancelledSentinelIsNotCancellationText | retrier.go:11 | the sentinel text "context cancelled" is not classified as cancellation |
| RetrierScenarios.SomethingWentWrongIsOrdinary | retrier_test.go:42 | the tests' error "something went wrong" is not cancellation text |
| RetrierScenarios.TableRetrierFields | retrier_test.go:83-87 | the tests' retrier has 4 attempts, observes cancellation and has the default handler |
| RetrierScenarios.SuccessAfterSomeErrors | retrier_test.go:36-48 | two failures then success: nil, 3 invocations, 2 onError calls |
| RetrierScenarios.ImmediateSuccess | retrier_test.go:49-58 | nil, 1 invocation, 0 onError calls |
| RetrierScenarios.NonRetriableError | retrier_test.go:59-68 | ErrRequestNotRetriable, 1 invocation, 1 onError call |
| RetrierScenarios.Failure | retrier_test.go:69-78 | ErrNotSuccessful, 4 invocations, 4 onError calls |
| RetrierScenarios.ContextCanceledAfterFirstAttempt | retrier_test.go:106-134 | cancelled during the first invocation: ErrContextCanceled, 1 invocation, 1 onError call |
| RetrierScenarios.ContextCanceledButWeIgnore | retrier_test.go:136-165 | the same with WithIgnoreCtx(true): ErrNotSuccessful, 3 invocations, 3 onError calls |
| NilErrorHandler.AsWrittenAgreesWhenSet | retrier.go:56-79 | Do as written, with the handler field set, returns what the model's Run returns |
| NilErrorHandler.AsWrittenPanics | retrier.go:69-79 | with the handler field nil, a call panics exactly when it neither succeeds nor stops at the poll |
| NilErrorHandler.NonRetriableTestPanicsAsWritten | retrier_test.go:59-68 | as written, the non-retriable test's call panics |
| NilErrorHandler.NonRetriableTestCorrected | retrier_test.go:59-68 | with the default handler the same call returns ErrRequestNotRetriable |

## Left out

- Sleeping (retrier.go:53): `Do` records the delays it would sleep and does not wait.
- Go's context and channel machinery (context.go:16-21): the context is a value that says at which poll it is first done. Its cancellation by other goroutines becomes that number.
- The action and `onError` as code: the action is a script of outcomes. `onError` is recorded as the sequence of errors it receives; its own effects (logging) are not modelled.
- Error values are their message text only: the tests compare them by text. Wrapping and identity are not modelled.
- BackoffPolicy.ExponentialBackoff: does not model the `math.Pow` float conversion or the int64 overflow of `time.Duration` for large attempt counts. The delay is the exact integer 10^k ms.
- CancelContext.ToLower: lower-cases ASCII letters only, not Go's full Unicode case mapping.
- RetryLoop.Retrier.maxAttempts: a `nat`, not a 64-bit `uint`. The loop counter cannot overflow below the budget.
- Concurrent calls of `Do` on one retrier: `Do` reads only the retrier's fields, and the model treats each call alone.
- examples/httprequest/main.go is a demonstration HTTP client and server and is not part of this model.
- RetrierOptions.DefaultErrorHandler: the source leaves the handler nil. The model sets it to a handler that returns the sentinel (see Findings).
- Nil backoff, onError and action functions: no option checks its argument, so `WithBackoff(nil)` and `WithOnError(nil)` (options.go:30-41) store nil, and `Do` also accepts a nil action. `Do` then panics: at retrier.go:53 in the first attempt for a nil backoff, at retrier.go:65 on the first failed invocation for a nil onError, and at retrier.go:60 for a nil action. The model's `BackoffFunc`, `OnErrorFunc` and `ActionFunc` are total functions and are never nil, so these panics are not modelled.

In these places the model follows the code where a reader might expect otherwise:

- The classifier looks for the full text of Go's `context.DeadlineExceeded`, "context deadline exceeded", not "deadline exceeded" alone (context.go:11).
- A budget of 0 attempts is accepted (options.go:23-27), and the loop then runs no attempt (retrier.go:51). So an action that never errors is invoked exactly once only when the budget is at least 1 and the context is not already done or cancellation is ignored.
- Every exit except success and the cancellation poll returns what the error handler gives. As written, that handler is nil and the call panics (retrier.go:69, 73, 79; see Findings).

## Findings

| source | as written | input that shows it | evidently intended | confidence | as-written member | corrected member |
|---|---|---|---|---|---|---|
| options.go:13-20 | `defaultRetrier` leaves `errorHandler` nil and no option sets it, so the calls at retrier.go:69, 73 and 79 call a nil func and panic | the "Non-retriable error" test: four attempts, Background context, the action fails once with a non-retriable "something went wrong" | `Do` returns the bare sentinel (ErrRequestNotRetriable here), as retrier_test.go:67, 77 and 162 expect | high, not executed | NilErrorHandler.NonRetriableTestPanicsAsWritten | NilErrorHandler.NonRetriableTestCorrected |
