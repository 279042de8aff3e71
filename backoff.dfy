/** The backoff strategy (backoff.go): how long to wait before each attempt. */
module BackoffPolicy {
  import opened CancelContext

  /** A `time.Duration`: a number of nanoseconds. */
  type Duration = int

  const Millisecond: Duration := 1_000_000

  /** BackoffFunc (backoff.go:9-10): given the context and the number of
      attempts already made, the time to wait before the next one. */
  type BackoffFunc = (Context, nat) -> Duration

  /** 10 to the power `k`. */
  function Pow10(k: nat): (r: nat)
    ensures r >= 1
  {
    if k == 0 then 1 else 10 * Pow10(k - 1)
  }

  /** exponentialBackoff (backoff.go:12-18): no wait before the first attempt,
      then 10^k milliseconds before attempt `k`. The context is not used. */
  function ExponentialBackoff(ctx: Context, attempts: nat): (d: Duration)
    ensures d >= 0
  {
    if attempts == 0 then 0 else Pow10(attempts) * Millisecond
  }

  /** The first attempt fires without delay, whatever the context. */
  lemma FirstAttemptHasNoDelay(ctx: Context)
    ensures ExponentialBackoff(ctx, 0) == 0
  {
  }

  /** The delays before attempts 1, 2 and 3 are 10ms, 100ms and 1000ms. */
  lemma FirstDelays(ctx: Context)
    ensures ExponentialBackoff(ctx, 1) == 10 * Millisecond
    ensures ExponentialBackoff(ctx, 2) == 100 * Millisecond
    ensures ExponentialBackoff(ctx, 3) == 1000 * Millisecond
  {
  }

  /** From attempt 1 on, each delay is ten times the one before. */
  lemma DelayGrowsTenfold(ctx: Context, k: nat)
    requires k >= 1
    ensures ExponentialBackoff(ctx, k + 1) == 10 * ExponentialBackoff(ctx, k)
  {
  }

  /** From attempt 1 on, the delay is strictly increasing. */
  lemma {:induction false} DelayStrictlyIncreasing(ctx: Context, j: nat, k: nat)
    requires 1 <= j < k
    ensures ExponentialBackoff(ctx, j) < ExponentialBackoff(ctx, k)
    decreases k - j
  {
    DelayGrowsTenfold(ctx, k - 1);
    if j < k - 1 {
      DelayStrictlyIncreasing(ctx, j, k - 1);
    }
  }

  /** The context argument is ignored: the same attempt count gives the same
      delay under any two contexts. */
  lemma DelayIgnoresContext(ctx1: Context, ctx2: Context, attempts: nat)
    ensures ExponentialBackoff(ctx1, attempts) == ExponentialBackoff(ctx2, attempts)
  {
  }
}
