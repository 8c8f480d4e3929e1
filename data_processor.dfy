/** The bounded retry loop of `DataProcessor.ProcessAsync` and its synchronous
    twin `DataProcessor.Process`.

    The work of one attempt, the cancellation token and the delays are outside
    this model; the environment says, for the pass that begins with the attempt
    counter at `k`, whether cancellation was requested at the top of the pass,
    how the attempt's work ended, and whether the back-off delay after a caught
    failure was cancelled. */
module DataProcessor {

  /** `AppSettings.MaxRetryAttempts` when the configuration does not set it. */
  const DefaultMaxRetryAttempts: int := 3

  /** An exception the work of one attempt can raise. */
  datatype Exception = OperationCanceled | Fault(code: nat)

  /** How the work of one attempt ends. */
  datatype WorkOutcome = Done | Throws(ex: Exception)

  /** The environment of the pass that starts with `attempt == k`. The three
      fields are independent inputs: the model does not tie them to one
      token that, once cancelled, stays cancelled (so a back-off after work
      that threw `OperationCanceled` on that token would in fact be
      cancelled too). No property below depends on that link. */
  datatype PassInput = PassInput(cancelledBeforeAttempt: bool, work: WorkOutcome, backoffCancelled: bool)

  /** How the processing call ends: it returns, it lets an exception escape,
      or, having left the loop, it throws the "Processing failed after N
      attempts" `InvalidOperationException`. */
  datatype Outcome = Succeeded | Propagated(ex: Exception) | GaveUp(maxAttempts: int)

  /** The outcome together with the final value of the attempt counter, which
      is the number of times the work was started. */
  datatype Run = Run(outcome: Outcome, attempts: nat)

  /** The loop, from the top of the pass where the counter is `attempt`. */
  function Retry(maxRetryAttempts: int, attempt: nat, env: nat -> PassInput): (r: Run)
    ensures attempt <= r.attempts
    ensures attempt < maxRetryAttempts ==> r.attempts <= maxRetryAttempts
    ensures r.outcome.GaveUp? <==> maxRetryAttempts <= attempt
    ensures r.outcome.GaveUp? ==> r.attempts == attempt && r.outcome.maxAttempts == maxRetryAttempts
    decreases maxRetryAttempts - attempt
  {
    if maxRetryAttempts <= attempt then Run(GaveUp(maxRetryAttempts), attempt)
    else if env(attempt).cancelledBeforeAttempt then Run(Propagated(OperationCanceled), attempt)
    else
      var next := attempt + 1;
      match env(attempt).work
      case Done => Run(Succeeded, next)
      case Throws(e) =>
        if next < maxRetryAttempts then
          if env(attempt).backoffCancelled then Run(Propagated(OperationCanceled), next)
          else Retry(maxRetryAttempts, next, env)
        else Run(Propagated(e), next)
  }

  /** The whole processing call: the loop from a counter of zero. */
  function Processing(maxRetryAttempts: int, env: nat -> PassInput): Run {
    Retry(maxRetryAttempts, 0, env)
  }

  /** The synchronous variant has no cancellation token and `Thread.Sleep`
      cannot be cancelled: its environment never cancels. */
  function NoCancellation(work: nat -> WorkOutcome): nat -> PassInput {
    (k: nat) => PassInput(false, work(k), false)
  }

  /** Pass `k` is a caught failure that leads to another pass: not cancelled
      at the top, the work threw while `k + 1 < maxRetryAttempts` (so the
      exception filter holds), and the back-off delay was not cancelled. */
  ghost predicate Retries(maxRetryAttempts: int, env: nat -> PassInput, k: nat) {
    && k + 1 < maxRetryAttempts
    && !env(k).cancelledBeforeAttempt
    && env(k).work.Throws?
    && !env(k).backoffCancelled
  }

  /** Passes that retry change nothing but the counter: after `j` of them the
      call behaves as the loop started at `j`. */
  lemma {:induction false} SkipRetries(maxRetryAttempts: int, env: nat -> PassInput, j: nat)
    requires forall i: nat :: i < j ==> Retries(maxRetryAttempts, env, i)
    ensures Processing(maxRetryAttempts, env) == Retry(maxRetryAttempts, j, env)
  {
    if j > 0 {
      SkipRetries(maxRetryAttempts, env, j - 1);
      assert Retries(maxRetryAttempts, env, j - 1);
    }
  }

  /** The first successful attempt returns at once: attempts made is its
      index plus one, and each earlier failure was followed by a retry. */
  lemma FirstSuccessReturns(maxRetryAttempts: int, env: nat -> PassInput, j: nat)
    requires forall i: nat :: i < j ==> Retries(maxRetryAttempts, env, i)
    requires j < maxRetryAttempts && !env(j).cancelledBeforeAttempt && env(j).work == Done
    ensures Processing(maxRetryAttempts, env) == Run(Succeeded, j + 1)
  {
    SkipRetries(maxRetryAttempts, env, j);
  }

  /** A failure on the last attempt fails the exception filter and escapes
      unchanged, after exactly `maxRetryAttempts` attempts. */
  lemma LastFailurePropagates(maxRetryAttempts: int, env: nat -> PassInput, e: Exception)
    requires 0 < maxRetryAttempts
    requires forall i: nat :: i < maxRetryAttempts - 1 ==> Retries(maxRetryAttempts, env, i)
    requires !env(maxRetryAttempts - 1).cancelledBeforeAttempt && env(maxRetryAttempts - 1).work == Throws(e)
    ensures Processing(maxRetryAttempts, env) == Run(Propagated(e), maxRetryAttempts)
  {
    SkipRetries(maxRetryAttempts, env, maxRetryAttempts - 1);
  }

  /** Cancellation seen at the top of a pass throws before the counter is
      incremented, so the attempt of that pass is never started. */
  lemma CancellationBeforeAttempt(maxRetryAttempts: int, env: nat -> PassInput, j: nat)
    requires forall i: nat :: i < j ==> Retries(maxRetryAttempts, env, i)
    requires j < maxRetryAttempts && env(j).cancelledBeforeAttempt
    ensures Processing(maxRetryAttempts, env) == Run(Propagated(OperationCanceled), j)
  {
    SkipRetries(maxRetryAttempts, env, j);
  }

  /** Conversely, a call that succeeds did so on its last attempt, and every
      earlier attempt failed and was retried. */
  lemma {:induction false} SuccessIsFirstSuccess(maxRetryAttempts: int, env: nat -> PassInput, k: nat)
    requires Retry(maxRetryAttempts, k, env).outcome == Succeeded
    ensures var n := Retry(maxRetryAttempts, k, env).attempts;
      && k < n <= maxRetryAttempts
      && !env(n - 1).cancelledBeforeAttempt && env(n - 1).work == Done
      && forall i: nat :: k <= i < n - 1 ==> Retries(maxRetryAttempts, env, i)
    decreases maxRetryAttempts - k
  {
    if k < maxRetryAttempts && !env(k).cancelledBeforeAttempt && env(k).work.Throws? {
      SuccessIsFirstSuccess(maxRetryAttempts, env, k + 1);
    }
  }

  /** `ProcessAsync`: the counter-driven loop with its cancellation check,
      early return and exception filter. */
  method ProcessAsync(maxRetryAttempts: int, env: nat -> PassInput) returns (r: Run)
    ensures r == Processing(maxRetryAttempts, env)
  {
    var attempt: nat := 0;
    while attempt < maxRetryAttempts
      invariant Retry(maxRetryAttempts, attempt, env) == Processing(maxRetryAttempts, env)
      decreases maxRetryAttempts - attempt
    {
      var pass := env(attempt);
      if pass.cancelledBeforeAttempt {
        return Run(Propagated(OperationCanceled), attempt);
      }
      attempt := attempt + 1;
      match pass.work
      case Done =>
        return Run(Succeeded, attempt);
      case Throws(e) =>
        if !(attempt < maxRetryAttempts) {
          return Run(Propagated(e), attempt);
        }
        if pass.backoffCancelled {
          return Run(Propagated(OperationCanceled), attempt);
        }
    }
    r := Run(GaveUp(maxRetryAttempts), attempt);
  }

  /** `Process`: the same loop without cancellation; it behaves as
      `ProcessAsync` under a token that is never cancelled. */
  method Process(maxRetryAttempts: int, work: nat -> WorkOutcome) returns (r: Run)
    ensures r == Processing(maxRetryAttempts, NoCancellation(work))
  {
    var attempt: nat := 0;
    while attempt < maxRetryAttempts
      invariant Retry(maxRetryAttempts, attempt, NoCancellation(work)) == Processing(maxRetryAttempts, NoCancellation(work))
      decreases maxRetryAttempts - attempt
    {
      var outcome := work(attempt);
      attempt := attempt + 1;
      match outcome
      case Done =>
        return Run(Succeeded, attempt);
      case Throws(e) =>
        if !(attempt < maxRetryAttempts) {
          return Run(Propagated(e), attempt);
        }
    }
    r := Run(GaveUp(maxRetryAttempts), attempt);
  }
}
