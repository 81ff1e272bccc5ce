/** The retry policy of the mature worker (PaymentProcessor.Api): the envelope a failed
    payment waits in, and the capped, jittered exponential backoff between its attempts.
    Instants and delays are integer milliseconds. */
module ApiRetry {
  import opened Payments

  /** Delay before the first retry of a payment whose main-path forward failed. */
  const FirstRetryDelayMs: int := 500
  /** The backoff before attempt n is min(BackoffUnitMs * 2^n, BackoffCapMs). */
  const BackoffUnitMs: int := 1000
  const BackoffCapMs: int := 30000

  /** A payment waiting for another forward: how many retries it has had and the
      instant before which it must not be forwarded again. */
  datatype RetryPayment = RetryPayment(payment: Payment, attempt: int, retryAt: int)

  /** The envelope created when the main-path forward of `p` fails at `now`. */
  function FirstRetry(p: Payment, now: int): (e: RetryPayment)
    ensures e.payment == p && e.attempt == 0
    ensures e.retryAt - now == FirstRetryDelayMs
  {
    RetryPayment(p, 0, now + FirstRetryDelayMs)
  }

  function Pow2(n: nat): (r: nat)
    ensures r >= 1
  {
    if n == 0 then 1 else 2 * Pow2(n - 1)
  }

  lemma {:induction false} Pow2Monotone(m: nat, n: nat)
    requires m <= n
    ensures Pow2(m) <= Pow2(n)
    decreases n - m
  {
    if m < n {
      Pow2Monotone(m, n - 1);
    }
  }

  /** The delay before attempt `nextAttempt`, before jitter. */
  function BaseDelay(nextAttempt: nat): (d: int)
    ensures BackoffUnitMs <= d <= BackoffCapMs
    ensures nextAttempt >= 1 ==> 2 * BackoffUnitMs <= d
  {
    var exponential := BackoffUnitMs * Pow2(nextAttempt);
    if exponential < BackoffCapMs then exponential else BackoffCapMs
  }

  /** The backoff never shrinks as the attempt number grows. */
  lemma BaseDelayMonotone(m: nat, n: nat)
    requires m <= n
    ensures BaseDelay(m) <= BaseDelay(n)
  {
    Pow2Monotone(m, n);
  }

  /** From the fifth attempt on the backoff sits at its cap. */
  lemma BaseDelayReachesCap(n: nat)
    requires n >= 5
    ensures BaseDelay(n) == BackoffCapMs
  {
    Pow2Monotone(5, n);
  }

  /** The exclusive upper bound the random jitter is drawn below: a tenth of the base
      delay, truncated to an integer. */
  function JitterBound(baseDelay: int): int {
    baseDelay / 10
  }

  /** `jitter` is a value the random source can return for attempt `nextAttempt`. */
  predicate ValidJitter(nextAttempt: nat, jitter: int) {
    0 <= jitter < JitterBound(BaseDelay(nextAttempt))
  }

  /** What a failed retry forward of `env` leaves behind, observed at `now`: a copy of
      the envelope with the next attempt number and a new eligible instant, or nothing
      once the attempt budget is spent. */
  function NextRetry(env: RetryPayment, maxRetryAttempts: int, now: int, jitter: int)
    : (r: Option<RetryPayment>)
    requires env.attempt >= 0
    requires env.attempt < maxRetryAttempts ==> ValidJitter(env.attempt + 1, jitter)
    ensures r.Some? <==> env.attempt < maxRetryAttempts
    ensures r.Some? ==> r.value.payment == env.payment && r.value.attempt == env.attempt + 1
    ensures r.Some? ==>
              BaseDelay(r.value.attempt) <= r.value.retryAt - now
              < BaseDelay(r.value.attempt) + BaseDelay(r.value.attempt) / 10
    ensures r.Some? ==> 2 * BackoffUnitMs <= r.value.retryAt - now < BackoffCapMs + BackoffCapMs / 10
  {
    if env.attempt < maxRetryAttempts then
      var nextAttempt := env.attempt + 1;
      var baseDelay := BaseDelay(nextAttempt);
      Some(env.(attempt := nextAttempt, retryAt := now + baseDelay + jitter))
    else
      None
  }

  /** How long a retry worker that dequeued an envelope eligible at `retryAt` sleeps
      when the clock reads `now`. */
  function RetryWait(retryAt: int, now: int): (d: int)
    ensures d >= 0
    ensures d > 0 <==> retryAt > now
    ensures now + d >= retryAt
    ensures d > 0 ==> now + d == retryAt
  {
    if retryAt > now then retryAt - now else 0
  }

  // ---------------------------------------------------------------------------
  // A payment whose retry forwards all fail.

  /** What the environment supplies at one failed retry: the clock and the random jitter. */
  datatype Draw = Draw(now: int, jitter: int)

  predicate ValidDraws(attempt: nat, draws: seq<Draw>) {
    forall k :: 0 <= k < |draws| ==> ValidJitter(attempt + k + 1, draws[k].jitter)
  }

  lemma ValidDrawsTail(attempt: nat, draws: seq<Draw>)
    requires |draws| > 0 && ValidDraws(attempt, draws)
    ensures ValidDraws(attempt + 1, draws[1..])
  {
    forall k | 0 <= k < |draws| - 1
      ensures ValidJitter(attempt + 1 + k + 1, draws[1..][k].jitter)
    {
      assert draws[1..][k] == draws[k + 1];
    }
  }

  /** The envelopes a payment passes through while every retry forward fails: `env`
      first, then one per failure, until the attempt budget or the draws run out. */
  function RetryChain(env: RetryPayment, maxRetryAttempts: int, draws: seq<Draw>)
    : seq<RetryPayment>
    requires env.attempt >= 0 && ValidDraws(env.attempt, draws)
    decreases |draws|
  {
    if draws == [] then [env]
    else
      match NextRetry(env, maxRetryAttempts, draws[0].now, draws[0].jitter)
      case None => [env]
      case Some(next) =>
        ValidDrawsTail(env.attempt, draws);
        [env] + RetryChain(next, maxRetryAttempts, draws[1..])
  }

  /** Along a chain of failures the payment never changes and the attempt number grows
      by exactly one per failure. */
  lemma {:induction false} RetryChainShape(env: RetryPayment, maxRetryAttempts: int, draws: seq<Draw>)
    requires env.attempt >= 0 && ValidDraws(env.attempt, draws)
    ensures var chain := RetryChain(env, maxRetryAttempts, draws);
            |chain| >= 1 && chain[0] == env && |chain| <= |draws| + 1 &&
            forall k :: 0 <= k < |chain| ==>
              chain[k].payment == env.payment && chain[k].attempt == env.attempt + k
    decreases |draws|
  {
    if draws != [] {
      match NextRetry(env, maxRetryAttempts, draws[0].now, draws[0].jitter)
      case None =>
      case Some(next) =>
        ValidDrawsTail(env.attempt, draws);
        RetryChainShape(next, maxRetryAttempts, draws[1..]);
        var rest := RetryChain(next, maxRetryAttempts, draws[1..]);
        var chain := RetryChain(env, maxRetryAttempts, draws);
        assert chain == [env] + rest;
        forall k | 1 <= k < |chain|
          ensures chain[k].payment == env.payment && chain[k].attempt == env.attempt + k
        {
          assert chain[k] == rest[k - 1];
        }
    }
  }

  /** `e` became eligible between the base delay and 1.1 times the base delay of its
      attempt after `failedAt`, the instant of the failure that produced it. */
  predicate BackedOff(e: RetryPayment, failedAt: int) {
    e.attempt >= 0 &&
    BaseDelay(e.attempt) <= e.retryAt - failedAt < BaseDelay(e.attempt) + BaseDelay(e.attempt) / 10
  }

  /** Every envelope after the first is backed off from the failure that produced it. */
  lemma {:induction false} RetryChainDelays(env: RetryPayment, maxRetryAttempts: int, draws: seq<Draw>)
    requires env.attempt >= 0 && ValidDraws(env.attempt, draws)
    ensures var chain := RetryChain(env, maxRetryAttempts, draws);
            |chain| <= |draws| + 1 &&
            forall k :: 1 <= k < |chain| ==> BackedOff(chain[k], draws[k - 1].now)
    decreases |draws|
  {
    if draws != [] {
      match NextRetry(env, maxRetryAttempts, draws[0].now, draws[0].jitter)
      case None =>
      case Some(next) =>
        ValidDrawsTail(env.attempt, draws);
        RetryChainDelays(next, maxRetryAttempts, draws[1..]);
        var rest := RetryChain(next, maxRetryAttempts, draws[1..]);
        var chain := RetryChain(env, maxRetryAttempts, draws);
        assert chain == [env] + rest;
        assert BackedOff(chain[1], draws[0].now);
        forall k | 2 <= k < |chain|
          ensures BackedOff(chain[k], draws[k - 1].now)
        {
          assert chain[k] == rest[k - 1];
          assert draws[1..][k - 2] == draws[k - 1];
        }
    }
  }

  /** The number of envelopes a failing payment passes through: one more than the
      failures it is allowed, so it is abandoned after its budget and not before. */
  lemma {:induction false} RetryChainLength(env: RetryPayment, maxRetryAttempts: int, draws: seq<Draw>)
    requires 0 <= env.attempt <= maxRetryAttempts && ValidDraws(env.attempt, draws)
    ensures |RetryChain(env, maxRetryAttempts, draws)| ==
            1 + (if |draws| < maxRetryAttempts - env.attempt then |draws| else maxRetryAttempts - env.attempt)
    decreases |draws|
  {
    if draws != [] {
      match NextRetry(env, maxRetryAttempts, draws[0].now, draws[0].jitter)
      case None =>
      case Some(next) =>
        ValidDrawsTail(env.attempt, draws);
        RetryChainLength(next, maxRetryAttempts, draws[1..]);
    }
  }

  /** A payment whose main-path forward failed at `now` is retried at most
      maxRetryAttempts + 1 times (attempts 0 to maxRetryAttempts), exactly that many
      when every retry fails; its envelopes keep the payment, each is backed off from
      the failure before it, and their nominal backoff never decreases. */
  lemma RetryBudget(p: Payment, now: int, maxRetryAttempts: int, draws: seq<Draw>)
    requires maxRetryAttempts >= 0 && ValidDraws(0, draws)
    ensures var chain := RetryChain(FirstRetry(p, now), maxRetryAttempts, draws);
            |chain| <= maxRetryAttempts + 1 && |chain| <= |draws| + 1 &&
            (|draws| >= maxRetryAttempts ==> |chain| == maxRetryAttempts + 1) &&
            (forall k :: 0 <= k < |chain| ==>
               chain[k].payment == p && 0 <= chain[k].attempt <= maxRetryAttempts) &&
            (forall k :: 1 <= k < |chain| ==> BackedOff(chain[k], draws[k - 1].now)) &&
            (forall j, k :: 0 <= j <= k < |chain| ==>
               0 <= chain[j].attempt <= chain[k].attempt &&
               BaseDelay(chain[j].attempt) <= BaseDelay(chain[k].attempt))
  {
    var env := FirstRetry(p, now);
    RetryChainShape(env, maxRetryAttempts, draws);
    RetryChainLength(env, maxRetryAttempts, draws);
    RetryChainDelays(env, maxRetryAttempts, draws);
    forall j: nat, k: nat | j <= k {
      BaseDelayMonotone(j, k);
    }
  }
}
