/** The retrier (retrier.go): its sentinel errors, the Retrier object that
    options configure in place, and the `Do` loop that invokes an action until
    it succeeds, fails for good, is cancelled or runs out of attempts.

    The action and the context are given as data: the action as the script of
    what each of its invocations returns, the context as the poll at which it
    is found cancelled. Sleeping is not modelled; the loop records the attempt
    numbers it passes to the backoff and the delays it would sleep. */
module RetryLoop {
  import opened ErrorValues
  import opened CancelContext
  import opened BackoffPolicy
  import opened RetrierOptions

  /** The three sentinel errors (retrier.go:9-16). */
  const ErrContextCanceled := Error("context cancelled")
  const ErrRequestNotRetriable := Error("request is not retriable")
  const ErrNotSuccessful := Error("request not successful")

  /** What one invocation of the action returns (retrier.go:21-22). */
  datatype Outcome = Outcome(err: Option<Error>, retriable: bool)

  /** The action, as the outcome of its n-th invocation (counted from 0) in
      one call of `Do`. */
  type ActionFunc = nat -> Outcome

  /** The ways a call of `Do` ends. */
  datatype Exit = Succeeded | Cancelled | NotRetriable | Exhausted

  /** What one call of `Do` does: how it ends, the error it returns, how many
      times it invoked the action, the errors it passed to `onError` in order,
      the attempt numbers it passed to the backoff and the delays it slept. */
  datatype Trace = Trace(
    exit: Exit,
    result: Option<Error>,
    invocations: nat,
    errors: seq<Error>,
    attempts: seq<nat>,
    delays: seq<Duration>)

  /** How one attempt is classified, in the order the loop tests
      (retrier.go:55-74). */
  datatype Step =
    | ContextDone
    | ActionSucceeded
    | ActionCanceled(err: Error)
    | ActionNotRetriable(err: Error)
    | ActionRetry(err: Error)

  /** Attempt `attempt`: the context poll first, then the action's outcome `o`. */
  function Classify(c: Config, ctx: Context, attempt: nat, o: Outcome): Step {
    if IsContextDone(ctx, attempt) && !c.ignoreCtx then ContextDone
    else match o.err
      case None => ActionSucceeded
      case Some(e) =>
        if IsCanceledContextError(e) && !c.ignoreCtx then ActionCanceled(e)
        else if !o.retriable then ActionNotRetriable(e)
        else ActionRetry(e)
  }

  /** `t` preceded by invocations that failed with `errors`, made in attempts
      `attempts` after sleeping `delays`. */
  function Extend(errors: seq<Error>, attempts: seq<nat>, delays: seq<Duration>, t: Trace): Trace {
    t.(invocations := |errors| + t.invocations,
       errors := errors + t.errors,
       attempts := attempts + t.attempts,
       delays := delays + t.delays)
  }

  /** The loop of `Do` from attempt `i` on, when `lastErr` is the error of the
      attempt before `i` (nil before the first). */
  function Loop(c: Config, ctx: Context, action: ActionFunc, i: nat, lastErr: Option<Error>): (t: Trace)
    requires i <= c.maxAttempts
    decreases c.maxAttempts - i
  {
    if i == c.maxAttempts then
      Trace(Exhausted, c.errorHandler(ErrNotSuccessful, lastErr), 0, [], [], [])
    else
      var delay := c.backoff(ctx, i);
      match Classify(c, ctx, i, action(i))
      case ContextDone =>
        Trace(Cancelled, Some(ErrContextCanceled), 0, [], [i], [delay])
      case ActionSucceeded =>
        Trace(Succeeded, None, 1, [], [i], [delay])
      case ActionCanceled(e) =>
        Trace(Cancelled, c.errorHandler(ErrContextCanceled, Some(e)), 1, [e], [i], [delay])
      case ActionNotRetriable(e) =>
        Trace(NotRetriable, c.errorHandler(ErrRequestNotRetriable, Some(e)), 1, [e], [i], [delay])
      case ActionRetry(e) =>
        Extend([e], [i], [delay], Loop(c, ctx, action, i + 1, Some(e)))
  }

  /** The loop from attempt `i` on calls the backoff once per attempt it
      starts, with the attempt numbers i, i+1, ..., and sleeps what it
      returns; it starts no attempt past the budget. */
  lemma {:induction false} LoopAttempts(c: Config, ctx: Context, action: ActionFunc, i: nat, lastErr: Option<Error>)
    requires i <= c.maxAttempts
    decreases c.maxAttempts - i
    ensures var t := Loop(c, ctx, action, i, lastErr);
      && |t.delays| == |t.attempts| && i + |t.attempts| <= c.maxAttempts
      && (forall j :: 0 <= j < |t.attempts| ==> t.attempts[j] == i + j)
      && (forall j :: 0 <= j < |t.delays| ==> t.delays[j] == c.backoff(ctx, i + j))
  {
    if i < c.maxAttempts {
      match Classify(c, ctx, i, action(i))
      case ActionRetry(e) =>
        LoopAttempts(c, ctx, action, i + 1, Some(e));
      case _ =>
    }
  }

  /** From attempt `i` on, `onError` sees the error of every failed
      invocation, in order, and nothing else; every attempt invokes the action
      except one stopped by the cancellation poll, whose error bypasses the
      handler. */
  lemma {:induction false} LoopInvocations(c: Config, ctx: Context, action: ActionFunc, i: nat, lastErr: Option<Error>)
    requires i <= c.maxAttempts
    decreases c.maxAttempts - i
    ensures var t := Loop(c, ctx, action, i, lastErr);
      && (forall j :: 0 <= j < |t.errors| ==> action(i + j).err == Some(t.errors[j]))
      && t.invocations == |t.errors| + (if t.exit == Succeeded then 1 else 0)
      && t.invocations <= |t.attempts|
      && (t.invocations < |t.attempts| ==>
            t.exit == Cancelled && t.result == Some(ErrContextCanceled) && t.invocations + 1 == |t.attempts|)
  {
    if i < c.maxAttempts {
      match Classify(c, ctx, i, action(i))
      case ActionRetry(e) =>
        LoopInvocations(c, ctx, action, i + 1, Some(e));
      case _ =>
    }
  }

  /** How each exit's error is made: nil on success; the bare sentinel when the
      cancellation poll stops the loop; otherwise the error handler applied to
      the sentinel and the last error the action returned (nil if it never
      ran). */
  lemma {:induction false} LoopResults(c: Config, ctx: Context, action: ActionFunc, i: nat, lastErr: Option<Error>)
    requires i <= c.maxAttempts
    decreases c.maxAttempts - i
    ensures var t := Loop(c, ctx, action, i, lastErr);
      && (t.exit == Succeeded ==> t.result == None)
      && (t.exit == Cancelled && t.invocations == |t.attempts| ==>
            t.errors != [] && t.result == c.errorHandler(ErrContextCanceled, Some(Last(t.errors))))
      && (t.exit == NotRetriable ==>
            t.errors != [] && t.result == c.errorHandler(ErrRequestNotRetriable, Some(Last(t.errors))))
      && (t.exit == Exhausted ==>
            i + |t.attempts| == c.maxAttempts && t.invocations == |t.attempts| &&
            t.result == c.errorHandler(ErrNotSuccessful, if t.errors == [] then lastErr else Some(Last(t.errors))))
  {
    if i < c.maxAttempts {
      match Classify(c, ctx, i, action(i))
      case ActionRetry(e) =>
        LoopResults(c, ctx, action, i + 1, Some(e));
        var rest := Loop(c, ctx, action, i + 1, Some(e));
        assert rest.errors != [] ==> Last([e] + rest.errors) == Last(rest.errors);
      case _ =>
    }
  }

  /** The last element of a non-empty sequence. */
  function Last<T>(s: seq<T>): T
    requires s != []
  {
    s[|s| - 1]
  }

  /** Retrier.Do (retrier.go:47-80) on configuration `c`. */
  function Run(c: Config, ctx: Context, action: ActionFunc): Trace {
    Loop(c, ctx, action, 0, None)
  }

  /** Extending twice is extending once by the concatenations. */
  lemma ExtendTwice(e1: seq<Error>, a1: seq<nat>, d1: seq<Duration>,
                    e2: seq<Error>, a2: seq<nat>, d2: seq<Duration>, t: Trace)
    ensures Extend(e1, a1, d1, Extend(e2, a2, d2, t)) == Extend(e1 + e2, a1 + a2, d1 + d2, t)
  {
    assert e1 + (e2 + t.errors) == (e1 + e2) + t.errors;
    assert a1 + (a2 + t.attempts) == (a1 + a2) + t.attempts;
    assert d1 + (d2 + t.delays) == (d1 + d2) + t.delays;
  }

  /** Retrier (retrier.go:27-34). Options assign its fields in place. */
  class Retrier {
    var maxAttempts: nat
    var backoff: BackoffFunc
    var onError: OnErrorFunc
    var ignoreCtx: bool
    var errorHandler: ErrorHandler

    /** The configuration this retrier holds. */
    function View(): Config
      reads this
    {
      Config(maxAttempts, backoff, onError, ignoreCtx, errorHandler)
    }

    /** defaultRetrier (options.go:13-20), with the error handler that returns
        the sentinel. */
    constructor ()
      ensures View() == DefaultRetrier()
      ensures maxAttempts == 3 && backoff == ExponentialBackoff && !ignoreCtx
      ensures onError == DefaultOnError && errorHandler == DefaultErrorHandler
    {
      maxAttempts := DefaultMaxAttempts;
      backoff := DefaultBackoff;
      onError := DefaultOnError;
      ignoreCtx := DefaultIgnoreCtx;
      errorHandler := DefaultErrorHandler;
    }

    /** Calling the closure an option stands for (options.go:22-48): it
        assigns the option's field and nothing else. */
    method Apply(opt: RetrierOption)
      modifies this
      ensures View() == ApplyOption(old(View()), opt)
    {
      match opt
      case WithMaxAttempts(n) => maxAttempts := n;
      case WithBackoff(b) => backoff := b;
      case WithOnError(f) => onError := f;
      case WithIgnoreCtx(v) => ignoreCtx := v;
    }

    /** Do (retrier.go:47-80): the retry loop. It changes nothing; what it
        does is the trace it returns. */
    method Do(ctx: Context, action: ActionFunc) returns (t: Trace)
      ensures t == Run(View(), ctx, action)
    {
      ghost var cfg := View();
      var errors: seq<Error> := [];
      var tried: seq<nat> := [];
      var delays: seq<Duration> := [];
      var actionErr: Option<Error> := None;
      var attempts: nat := 0;
      while attempts < maxAttempts
        invariant attempts <= maxAttempts
        invariant |errors| == attempts
        invariant Extend(errors, tried, delays, Loop(cfg, ctx, action, attempts, actionErr))
                  == Run(cfg, ctx, action)
      {
        ghost var errors0, tried0, delays0 := errors, tried, delays;
        ghost var rest := Loop(cfg, ctx, action, attempts, actionErr);

        // the backoff before this attempt; sleeping is left out
        var delay := backoff(ctx, attempts);
        tried := tried + [attempts];
        delays := delays + [delay];

        if IsContextDone(ctx, attempts) && !ignoreCtx {
          assert rest == Trace(Cancelled, Some(ErrContextCanceled), 0, [], [attempts], [delay]);
          return Trace(Cancelled, Some(ErrContextCanceled), |errors|, errors, tried, delays);
        }

        var outcome := action(attempts);
        if outcome.err == None {
          assert rest == Trace(Succeeded, None, 1, [], [attempts], [delay]);
          return Trace(Succeeded, None, |errors| + 1, errors, tried, delays);
        }
        var err := outcome.err.value;

        // onError(err)
        errors := errors + [err];

        if IsCanceledContextError(err) && !ignoreCtx {
          assert rest == Trace(Cancelled, errorHandler(ErrContextCanceled, Some(err)), 1, [err], [attempts], [delay]);
          return Trace(Cancelled, errorHandler(ErrContextCanceled, Some(err)), |errors|, errors, tried, delays);
        }
        if !outcome.retriable {
          assert rest == Trace(NotRetriable, errorHandler(ErrRequestNotRetriable, Some(err)), 1, [err], [attempts], [delay]);
          return Trace(NotRetriable, errorHandler(ErrRequestNotRetriable, Some(err)), |errors|, errors, tried, delays);
        }

        actionErr := Some(err);
        assert rest == Extend([err], [attempts], [delay], Loop(cfg, ctx, action, attempts + 1, actionErr));
        ExtendTwice(errors0, tried0, delays0, [err], [attempts], [delay],
                    Loop(cfg, ctx, action, attempts + 1, actionErr));
        attempts := attempts + 1;
      }
      assert Loop(cfg, ctx, action, attempts, actionErr)
             == Trace(Exhausted, errorHandler(ErrNotSuccessful, actionErr), 0, [], [], []);
      t := Trace(Exhausted, errorHandler(ErrNotSuccessful, actionErr), |errors|, errors, tried, delays);
    }
  }

  /** NewRetrier (retrier.go:36-45): the defaults, then each option in order. */
  method NewRetrier(options: seq<RetrierOption>) returns (t: Retrier)
    ensures fresh(t)
    ensures t.View() == Configure(options)
  {
    t := new Retrier();
    for i := 0 to |options|
      invariant t.View() == ApplyAll(DefaultRetrier(), options[..i])
    {
      t.Apply(options[i]);
      assert options[..i + 1][..i] == options[..i];
    }
    assert options[..|options|] == options;
  }
}
