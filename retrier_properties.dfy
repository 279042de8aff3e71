/** What a call of `Do` does, stated of the specification `Run` that the
    method `RetryLoop.Retrier.Do` is proved to compute. */
module RetryLoopProperties {
  import opened ErrorValues
  import opened CancelContext
  import opened BackoffPolicy
  import opened RetrierOptions
  import opened RetryLoop

  /** Every attempt before `k` fails with an error the loop retries. */
  ghost predicate RetriesBefore(c: Config, ctx: Context, action: ActionFunc, k: nat) {
    forall j :: 0 <= j < k ==> Classify(c, ctx, j, action(j)).ActionRetry?
  }

  /** How `Do` ends when attempt `k` is the one that stops it. */
  function ExitOf(s: Step): Exit {
    match s
    case ContextDone => Cancelled
    case ActionSucceeded => Succeeded
    case ActionCanceled(_) => Cancelled
    case ActionNotRetriable(_) => NotRetriable
    case ActionRetry(_) => Exhausted
  }

  /** The first attempt from `i` on that does not end in a retry, or the
      attempt budget if every one does. */
  function FirstStop(c: Config, ctx: Context, action: ActionFunc, i: nat): (k: nat)
    requires i <= c.maxAttempts
    decreases c.maxAttempts - i
    ensures i <= k <= c.maxAttempts
    ensures forall j :: i <= j < k ==> Classify(c, ctx, j, action(j)).ActionRetry?
    ensures k < c.maxAttempts ==> !Classify(c, ctx, k, action(k)).ActionRetry?
  {
    if i == c.maxAttempts || !Classify(c, ctx, i, action(i)).ActionRetry? then i
    else FirstStop(c, ctx, action, i + 1)
  }

  /** Attempts `i` to `k - 1` all retried: the loop from `i` ends as the loop
      from `k` does, after `k - i` more invocations, errors and attempts. */
  lemma {:induction false} RetriedAttempts(c: Config, ctx: Context, action: ActionFunc, i: nat, k: nat, lastErr: Option<Error>)
    requires i <= k <= c.maxAttempts
    requires forall j :: i <= j < k ==> Classify(c, ctx, j, action(j)).ActionRetry?
    decreases k - i
    ensures var t, r := Loop(c, ctx, action, i, lastErr),
                        Loop(c, ctx, action, k, if i < k then action(k - 1).err else lastErr);
      && t.exit == r.exit && t.result == r.result
      && t.invocations == (k - i) + r.invocations
      && |t.errors| == (k - i) + |r.errors|
      && |t.attempts| == (k - i) + |r.attempts|
  {
    if i < k {
      RetriedAttempts(c, ctx, action, i + 1, k, action(i).err);
    }
  }

  /** The whole behaviour of `Do`: it stops at the first attempt that does not
      end in a retry, or after the whole budget; the exit is that attempt's
      classification; the backoff is consulted once per attempt made, and the
      action invoked in every one of them except an attempt stopped by the
      cancellation poll. */
  lemma RunStopsAtFirstStop(c: Config, ctx: Context, action: ActionFunc)
    ensures var t, k := Run(c, ctx, action), FirstStop(c, ctx, action, 0);
      && t.exit == (if k == c.maxAttempts then Exhausted else ExitOf(Classify(c, ctx, k, action(k))))
      && |t.attempts| == (if k == c.maxAttempts then k else k + 1)
      && t.invocations == (if k < c.maxAttempts && Classify(c, ctx, k, action(k)).ContextDone? then k
                           else |t.attempts|)
  {
    var k := FirstStop(c, ctx, action, 0);
    RetriedAttempts(c, ctx, action, 0, k, None);
  }

  /** The first stop is the attempt the caller's script says: if every attempt
      before `k` retries and `k` does not (or is the budget), `k` is it. */
  lemma FirstStopIs(c: Config, ctx: Context, action: ActionFunc, k: nat)
    requires k <= c.maxAttempts && RetriesBefore(c, ctx, action, k)
    requires k < c.maxAttempts ==> !Classify(c, ctx, k, action(k)).ActionRetry?
    ensures FirstStop(c, ctx, action, 0) == k
  {
  }

  /** The bookkeeping of a whole call: the action is invoked at most
      `maxAttempts` times; the backoff is asked for attempts 0, 1, 2, ... and
      its answers are the delays; `onError` receives the error of every failed
      invocation in order and is never called for a success. */
  lemma RunBookkeeping(c: Config, ctx: Context, action: ActionFunc)
    ensures var t := Run(c, ctx, action);
      && t.invocations <= |t.attempts| <= c.maxAttempts
      && |t.delays| == |t.attempts|
      && (forall j :: 0 <= j < |t.attempts| ==> t.attempts[j] == j && t.delays[j] == c.backoff(ctx, j))
      && (forall j :: 0 <= j < |t.errors| ==> action(j).err == Some(t.errors[j]))
      && t.invocations == |t.errors| + (if t.exit == Succeeded then 1 else 0)
  {
    LoopAttempts(c, ctx, action, 0, None);
    LoopInvocations(c, ctx, action, 0, None);
  }

  /** With a budget of 0 the action is never invoked, nothing is slept and the
      result is the error handler applied to ErrNotSuccessful and nil. */
  lemma ZeroAttemptsNeverInvokes(c: Config, ctx: Context, action: ActionFunc)
    requires c.maxAttempts == 0
    ensures Run(c, ctx, action) == Trace(Exhausted, c.errorHandler(ErrNotSuccessful, None), 0, [], [], [])
  {
  }

  /** The first attempt whose error is nil returns nil at once: after `k`
      retried failures, success in attempt `k` means `k + 1` invocations and
      `k` calls of `onError`. */
  lemma SucceedsAt(c: Config, ctx: Context, action: ActionFunc, k: nat)
    requires k < c.maxAttempts && RetriesBefore(c, ctx, action, k)
    requires Classify(c, ctx, k, action(k)) == ActionSucceeded
    ensures var t := Run(c, ctx, action);
      t.exit == Succeeded && t.result == None && t.invocations == k + 1 && |t.errors| == k
  {
    FirstStopIs(c, ctx, action, k);
    RunStopsAtFirstStop(c, ctx, action);
    RunBookkeeping(c, ctx, action);
    LoopResults(c, ctx, action, 0, None);
  }

  /** A non-retriable error in attempt `k` (not cancellation text, or with
      cancellation ignored) stops the loop with the handler applied to
      ErrRequestNotRetriable and that error, after `k + 1` invocations and as
      many `onError` calls. */
  lemma NotRetriableAt(c: Config, ctx: Context, action: ActionFunc, k: nat, e: Error)
    requires k < c.maxAttempts && RetriesBefore(c, ctx, action, k)
    requires Classify(c, ctx, k, action(k)) == ActionNotRetriable(e)
    ensures var t := Run(c, ctx, action);
      && t.exit == NotRetriable && t.result == c.errorHandler(ErrRequestNotRetriable, Some(e))
      && t.invocations == k + 1 && |t.errors| == k + 1
  {
    FirstStopIs(c, ctx, action, k);
    RunStopsAtFirstStop(c, ctx, action);
    RunBookkeeping(c, ctx, action);
    LoopResults(c, ctx, action, 0, None);
    assert Run(c, ctx, action).errors[k] == e;
  }

  /** A context found done at the poll of attempt `k`, with cancellation not
      ignored, returns ErrContextCanceled itself, bypassing the handler, and
      the action is not invoked in that attempt. */
  lemma CancelledAtPoll(c: Config, ctx: Context, action: ActionFunc, k: nat)
    requires k < c.maxAttempts && RetriesBefore(c, ctx, action, k)
    requires IsContextDone(ctx, k) && !c.ignoreCtx
    ensures var t := Run(c, ctx, action);
      && t.exit == Cancelled && t.result == Some(ErrContextCanceled)
      && t.invocations == k && |t.errors| == k && |t.attempts| == k + 1
  {
    FirstStopIs(c, ctx, action, k);
    RunStopsAtFirstStop(c, ctx, action);
    RunBookkeeping(c, ctx, action);
    LoopInvocations(c, ctx, action, 0, None);
  }

  /** An error whose text reports cancellation stops the loop with the
      handler applied to ErrContextCanceled and that error, whether or not the
      action called it retriable: that test comes before the retriable one. */
  lemma CancelledByErrorText(c: Config, ctx: Context, action: ActionFunc, k: nat, e: Error)
    requires k < c.maxAttempts && RetriesBefore(c, ctx, action, k)
    requires !IsContextDone(ctx, k) && !c.ignoreCtx
    requires action(k).err == Some(e) && IsCanceledContextError(e)
    ensures var t := Run(c, ctx, action);
      && t.exit == Cancelled && t.result == c.errorHandler(ErrContextCanceled, Some(e))
      && t.invocations == k + 1 && |t.errors| == k + 1
  {
    assert Classify(c, ctx, k, action(k)) == ActionCanceled(e);
    FirstStopIs(c, ctx, action, k);
    RunStopsAtFirstStop(c, ctx, action);
    RunBookkeeping(c, ctx, action);
    LoopResults(c, ctx, action, 0, None);
    assert Run(c, ctx, action).errors[k] == e;
  }

  /** If every attempt fails retriably, the action is invoked exactly
      `maxAttempts` times, `onError` as often, and the result is the handler
      applied to ErrNotSuccessful and the error of the final attempt. */
  lemma ExhaustedAfterRetries(c: Config, ctx: Context, action: ActionFunc)
    requires RetriesBefore(c, ctx, action, c.maxAttempts)
    ensures var t := Run(c, ctx, action);
      && t.exit == Exhausted
      && t.invocations == c.maxAttempts && |t.errors| == c.maxAttempts
      && t.result == c.errorHandler(ErrNotSuccessful,
                                    if c.maxAttempts == 0 then None else action(c.maxAttempts - 1).err)
  {
    FirstStopIs(c, ctx, action, c.maxAttempts);
    RunStopsAtFirstStop(c, ctx, action);
    RunBookkeeping(c, ctx, action);
    LoopResults(c, ctx, action, 0, None);
  }

  /** With `ignoreCtx` set, neither cancellation exit can be taken. */
  lemma IgnoreCtxNeverCancels(c: Config, ctx: Context, action: ActionFunc)
    requires c.ignoreCtx
    ensures Run(c, ctx, action).exit != Cancelled
  {
    RunStopsAtFirstStop(c, ctx, action);
  }

  /** With the default error handler, `Do` returns nil or the bare sentinel of
      its exit. */
  lemma DefaultHandlerReturnsSentinels(c: Config, ctx: Context, action: ActionFunc)
    requires c.errorHandler == DefaultErrorHandler
    ensures var t := Run(c, ctx, action);
      t.result == match t.exit
        case Succeeded => None
        case Cancelled => Some(ErrContextCanceled)
        case NotRetriable => Some(ErrRequestNotRetriable)
        case Exhausted => Some(ErrNotSuccessful)
  {
    LoopInvocations(c, ctx, action, 0, None);
    LoopResults(c, ctx, action, 0, None);
  }

  /** Under the default backoff the first attempt is made without delay. */
  lemma FirstAttemptImmediate(c: Config, ctx: Context, action: ActionFunc)
    requires c.backoff == ExponentialBackoff && c.maxAttempts > 0
    ensures Run(c, ctx, action).delays[..1] == [0]
  {
    RunBookkeeping(c, ctx, action);
    RunStopsAtFirstStop(c, ctx, action);
  }

  /** The retrier's own cancellation sentinel ("context cancelled", two l's)
      is not cancellation text to the classifier, which looks for Go's
      "context canceled". */
  lemma CancelledSentinelIsNotCancellationText()
    ensures !IsCanceledContextError(ErrContextCanceled)
  {
    var text := ErrContextCanceled.text;
    assert forall i :: 0 <= i < |text| ==> LowerChar(text[i]) == text[i];
    assert ToLower(text) == text;
    forall i: nat
      ensures !OccursAt(text, CanceledText, i)
    {
      if i == 0 {
        assert text[..16][14] != CanceledText[14];
      } else if i == 1 {
        assert text[1..17][0] != CanceledText[0];
      }
    }
    IsCanceledContextErrorIff(ErrContextCanceled);
  }
}
