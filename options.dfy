/** The configuration of a retrier (retrier.go:18-34) and the options that
    set it (options.go), as values. The class `RetryLoop.Retrier` holds the
    same fields as mutable state; `Config` is its value, and `ApplyOption`
    says what each option does to it. */
module RetrierOptions {
  import opened ErrorValues
  import opened CancelContext
  import opened BackoffPolicy

  /** OnErrorFunc (retrier.go:19-20): called with the error of every failed
      attempt. What it does is outside the model, which records its calls. */
  type OnErrorFunc = Error -> ()

  /** ErrorHandler (retrier.go:23-24): turns the retrier's sentinel error and
      the action's error (nil when there is none) into the error `Do` returns. */
  type ErrorHandler = (Error, Option<Error>) -> Option<Error>

  /** The fields of a Retrier (retrier.go:28-34). */
  datatype Config = Config(
    maxAttempts: nat,
    backoff: BackoffFunc,
    onError: OnErrorFunc,
    ignoreCtx: bool,
    errorHandler: ErrorHandler)

  /** The defaults (options.go:3-8). */
  const DefaultMaxAttempts: nat := 3
  const DefaultBackoff: BackoffFunc := ExponentialBackoff
  const DefaultOnError: OnErrorFunc := (err: Error) => ()
  const DefaultIgnoreCtx := false

  /** The error handler every retrier has: it returns the retrier's sentinel
      and drops the action's error. options.go never assigns the field; see
      the model's notes on this. */
  const DefaultErrorHandler: ErrorHandler :=
    (retrierErr: Error, actionErr: Option<Error>) => Some(retrierErr)

  /** defaultRetrier (options.go:13-20). */
  function DefaultRetrier(): Config {
    Config(DefaultMaxAttempts, DefaultBackoff, DefaultOnError, DefaultIgnoreCtx, DefaultErrorHandler)
  }

  /** RetrierOption (options.go:10-11) and its four constructors
      WithMaxAttempts, WithBackoff, WithOnError and WithIgnoreCtx
      (options.go:22-48). None of them checks its argument. */
  datatype RetrierOption =
    | WithMaxAttempts(maxAttempts: nat)
    | WithBackoff(backoff: BackoffFunc)
    | WithOnError(onError: OnErrorFunc)
    | WithIgnoreCtx(ignoreCtx: bool)

  /** What applying an option does to a configuration: it assigns one field. */
  function ApplyOption(c: Config, opt: RetrierOption): Config {
    match opt
    case WithMaxAttempts(n) => c.(maxAttempts := n)
    case WithBackoff(b) => c.(backoff := b)
    case WithOnError(f) => c.(onError := f)
    case WithIgnoreCtx(v) => c.(ignoreCtx := v)
  }

  /** The options applied to `c` in order, first to last. */
  function ApplyAll(c: Config, opts: seq<RetrierOption>): Config
    decreases |opts|
  {
    if opts == [] then c else ApplyOption(ApplyAll(c, opts[..|opts| - 1]), opts[|opts| - 1])
  }

  /** The configuration NewRetrier builds (retrier.go:37-45). */
  function Configure(opts: seq<RetrierOption>): Config {
    ApplyAll(DefaultRetrier(), opts)
  }

  /** The fields of a configuration, to talk about one of them at a time. */
  datatype Field = MaxAttemptsField | BackoffField | OnErrorField | IgnoreCtxField | ErrorHandlerField

  /** The field an option assigns. */
  function FieldOf(opt: RetrierOption): (f: Field)
    ensures f != ErrorHandlerField
  {
    match opt
    case WithMaxAttempts(_) => MaxAttemptsField
    case WithBackoff(_) => BackoffField
    case WithOnError(_) => OnErrorField
    case WithIgnoreCtx(_) => IgnoreCtxField
  }

  /** `a` and `b` agree on field `f`. */
  ghost predicate SameOn(a: Config, b: Config, f: Field) {
    match f
    case MaxAttemptsField => a.maxAttempts == b.maxAttempts
    case BackoffField => a.backoff == b.backoff
    case OnErrorField => a.onError == b.onError
    case IgnoreCtxField => a.ignoreCtx == b.ignoreCtx
    case ErrorHandlerField => a.errorHandler == b.errorHandler
  }

  /** An option changes its own field and no other, and what it puts there
      does not depend on the configuration it is applied to. */
  lemma ApplyOptionSetsOneField(c: Config, d: Config, opt: RetrierOption, f: Field)
    ensures f != FieldOf(opt) ==> SameOn(ApplyOption(c, opt), c, f)
    ensures SameOn(ApplyOption(c, opt), ApplyOption(d, opt), FieldOf(opt))
  {
  }

  /** The value an option puts in its field is its argument, unchanged. */
  lemma ApplyOptionStoresArgument(c: Config, opt: RetrierOption)
    ensures opt.WithMaxAttempts? ==> ApplyOption(c, opt).maxAttempts == opt.maxAttempts
    ensures opt.WithBackoff? ==> ApplyOption(c, opt).backoff == opt.backoff
    ensures opt.WithOnError? ==> ApplyOption(c, opt).onError == opt.onError
    ensures opt.WithIgnoreCtx? ==> ApplyOption(c, opt).ignoreCtx == opt.ignoreCtx
  {
  }

  /** A field no option in the list assigns keeps its value. */
  lemma {:induction false} UntouchedFieldKept(c: Config, opts: seq<RetrierOption>, f: Field)
    requires forall j :: 0 <= j < |opts| ==> FieldOf(opts[j]) != f
    ensures SameOn(ApplyAll(c, opts), c, f)
    decreases |opts|
  {
    if opts != [] {
      var init := opts[..|opts| - 1];
      UntouchedFieldKept(c, init, f);
      ApplyOptionSetsOneField(ApplyAll(c, init), c, opts[|opts| - 1], f);
    }
  }

  /** Last writer wins: when no later option assigns the same field as
      `opts[i]`, the field ends with the value `opts[i]` gives it. */
  lemma {:induction false} LastWriterWins(c: Config, opts: seq<RetrierOption>, i: nat)
    requires i < |opts|
    requires forall j :: i < j < |opts| ==> FieldOf(opts[j]) != FieldOf(opts[i])
    ensures SameOn(ApplyAll(c, opts), ApplyOption(c, opts[i]), FieldOf(opts[i]))
    decreases |opts|
  {
    var n := |opts| - 1;
    var init := opts[..n];
    if i == n {
      ApplyOptionSetsOneField(ApplyAll(c, init), c, opts[i], FieldOf(opts[i]));
    } else {
      LastWriterWins(c, init, i);
      ApplyOptionSetsOneField(ApplyAll(c, init), c, opts[n], FieldOf(opts[i]));
    }
  }

  /** With no options, NewRetrier yields the defaults: three attempts,
      exponential backoff, a no-op error callback, cancellation observed. */
  lemma NoOptionsGivesDefaults()
    ensures Configure([]) == DefaultRetrier()
    ensures Configure([]).maxAttempts == 3
    ensures Configure([]).backoff == ExponentialBackoff
    ensures !Configure([]).ignoreCtx
  {
  }

  /** No option assigns the error handler, so every retrier keeps the default
      one, whatever options it is built with. */
  lemma ErrorHandlerNeverAssigned(opts: seq<RetrierOption>)
    ensures Configure(opts).errorHandler == DefaultErrorHandler
  {
    UntouchedFieldKept(DefaultRetrier(), opts, ErrorHandlerField);
  }

  /** Options are not validated: WithMaxAttempts(n), as the last option that
      sets the attempt budget, leaves exactly `n` attempts, 0 included. */
  lemma MaxAttemptsNotValidated(opts: seq<RetrierOption>, n: nat)
    ensures Configure(opts + [WithMaxAttempts(n)]).maxAttempts == n
  {
    var all := opts + [WithMaxAttempts(n)];
    assert all[..|all| - 1] == opts;
  }
}
