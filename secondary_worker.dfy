/** The iteration loop of `SecondaryWorker.ExecuteAsync`: an enabled flag, an
    iteration counter, a `MaxIterations` limit where 0 means unlimited,
    stop on cancellation, continue after any other error.

    The loop may run forever, so it is observed over a finite sequence of
    passes: pass `k` says whether the stopping token was cancelled when the
    loop condition was tested, and how the body of iteration `k + 1` ended.
    When the observations run out before the worker stops, the result says
    that the worker is still running. */
module SecondaryWorker {

  /** `WorkerSettings`. The interval is the argument of the per-iteration
      `Task.Delay`; its effect reaches the model only through the observed
      outcome of each pass: a positive interval completes unless cancelled,
      -1 waits until cancellation, and anything below -1 makes the delay
      throw, so every iteration faults. */
  datatype WorkerSettings = WorkerSettings(executionIntervalMs: int, continuousExecution: bool, maxIterations: int)

  /** A freshly constructed `WorkerSettings`. */
  const DefaultWorkerSettings := WorkerSettings(5000, false, 0)

  /** How the body of one iteration ends: the delay elapses, it throws an
      `OperationCanceledException`, or it throws any other exception. */
  datatype IterationOutcome = Completed | Canceled | Faulted(code: nat)

  /** One observed pass of the loop. */
  datatype Pass = Pass(cancellationRequested: bool, outcome: IterationOutcome)

  /** Why the worker returned. None of them is an exception: the worker
      itself never throws. */
  datatype StopReason = Disabled | CancelledBeforeIteration | CancelledDuringIteration | LimitReached

  /** The worker after the observed passes; `iterations` is the final value
      of the `iteration` counter. */
  datatype WorkerState = Running(iterations: nat) | Stopped(iterations: nat, reason: StopReason)

  /** The check after the delay: a positive limit that the counter has
      reached. */
  predicate LimitHit(settings: WorkerSettings, iteration: nat) {
    settings.maxIterations > 0 && iteration >= settings.maxIterations
  }

  /** The loop from the test of its condition with `iteration == k`; the
      counter always equals the number of passes made. */
  function Loop(settings: WorkerSettings, passes: seq<Pass>, k: nat): (r: WorkerState)
    requires k <= |passes|
    ensures k <= r.iterations <= |passes|
    ensures r.Running? ==> r.iterations == |passes|
    ensures r.Stopped? ==> r.reason != Disabled
    decreases |passes| - k
  {
    if k == |passes| then Running(k)
    else if passes[k].cancellationRequested then Stopped(k, CancelledBeforeIteration)
    else
      match passes[k].outcome
      case Completed =>
        if LimitHit(settings, k + 1) then Stopped(k + 1, LimitReached)
        else Loop(settings, passes, k + 1)
      case Canceled => Stopped(k + 1, CancelledDuringIteration)
      case Faulted(_) => Loop(settings, passes, k + 1)
  }

  /** What `ExecuteAsync` does with the observed passes. */
  function Execute(settings: WorkerSettings, passes: seq<Pass>): (r: WorkerState)
    ensures r == Stopped(0, Disabled) <==> !settings.continuousExecution
  {
    if !settings.continuousExecution then Stopped(0, Disabled)
    else Loop(settings, passes, 0)
  }

  /** An `OperationCanceledException` in an iteration is caught and ends the
      loop normally, after that iteration has been counted. */
  lemma CancellationDuringIteration(settings: WorkerSettings, passes: seq<Pass>, k: nat)
    requires k < |passes| && !passes[k].cancellationRequested && passes[k].outcome == Canceled
    ensures Loop(settings, passes, k) == Stopped(k + 1, CancelledDuringIteration)
  {
  }

  /** Any other exception is logged and the loop goes on: the iteration
      counts, but the limit check after the delay is skipped for it, even
      when the limit has been reached. */
  lemma FaultContinues(settings: WorkerSettings, passes: seq<Pass>, k: nat)
    requires k < |passes| && !passes[k].cancellationRequested && passes[k].outcome.Faulted?
    ensures Loop(settings, passes, k) == Loop(settings, passes, k + 1)
  {
  }

  /** No iteration starts once cancellation has been seen at the loop test:
      the counter stays at or below the index of that pass. */
  lemma {:induction false} LoopStopsAtCancellation(settings: WorkerSettings, passes: seq<Pass>, k: nat, c: nat)
    requires k <= c < |passes| && passes[c].cancellationRequested
    ensures Loop(settings, passes, k).Stopped? && Loop(settings, passes, k).iterations <= c
    decreases c - k
  {
    if k < c && !passes[k].cancellationRequested
      && (passes[k].outcome.Faulted? || (passes[k].outcome.Completed? && !LimitHit(settings, k + 1))) {
      LoopStopsAtCancellation(settings, passes, k + 1, c);
    }
  }

  lemma NoIterationAfterCancellation(settings: WorkerSettings, passes: seq<Pass>, c: nat)
    requires c < |passes| && passes[c].cancellationRequested
    ensures Execute(settings, passes).Stopped? && Execute(settings, passes).iterations <= c
  {
    if settings.continuousExecution {
      LoopStopsAtCancellation(settings, passes, 0, c);
    }
  }

  /** With a positive limit and every iteration completing, the worker stops
      after exactly `MaxIterations` iterations. */
  lemma {:induction false} LoopStopsAtLimit(settings: WorkerSettings, passes: seq<Pass>, k: nat)
    requires 0 < settings.maxIterations <= |passes| && k < settings.maxIterations
    requires forall i :: k <= i < settings.maxIterations ==> passes[i] == Pass(false, Completed)
    ensures Loop(settings, passes, k) == Stopped(settings.maxIterations, LimitReached)
    decreases settings.maxIterations - k
  {
    if k + 1 < settings.maxIterations {
      LoopStopsAtLimit(settings, passes, k + 1);
    }
  }

  lemma StopsExactlyAtLimit(settings: WorkerSettings, passes: seq<Pass>)
    requires settings.continuousExecution
    requires 0 < settings.maxIterations <= |passes|
    requires forall i :: 0 <= i < settings.maxIterations ==> passes[i] == Pass(false, Completed)
    ensures Execute(settings, passes) == Stopped(settings.maxIterations, LimitReached)
  {
    LoopStopsAtLimit(settings, passes, 0);
  }

  /** A limit of zero (or below) never fires: without cancellation the worker
      runs through every observed pass, errors included. */
  lemma {:induction false} LoopUnlimited(settings: WorkerSettings, passes: seq<Pass>, k: nat)
    requires settings.maxIterations <= 0 && k <= |passes|
    requires forall i :: k <= i < |passes| ==> !passes[i].cancellationRequested && !passes[i].outcome.Canceled?
    ensures Loop(settings, passes, k) == Running(|passes|)
    decreases |passes| - k
  {
    if k < |passes| {
      LoopUnlimited(settings, passes, k + 1);
    }
  }

  lemma UnlimitedRunsUntilCancelled(settings: WorkerSettings, passes: seq<Pass>)
    requires settings.continuousExecution && settings.maxIterations <= 0
    requires forall i :: 0 <= i < |passes| ==> !passes[i].cancellationRequested && !passes[i].outcome.Canceled?
    ensures Execute(settings, passes) == Running(|passes|)
  {
    LoopUnlimited(settings, passes, 0);
  }

  /** A stop at the limit happens only after an iteration that completed at
      or beyond `MaxIterations`, and every iteration between the limit and
      that one faulted: a faulted iteration counts but skips the limit check. */
  lemma {:induction false} LimitStopFollowsCompletion(settings: WorkerSettings, passes: seq<Pass>, k: nat)
    requires k <= |passes|
    requires Loop(settings, passes, k).Stopped? && Loop(settings, passes, k).reason == LimitReached
    ensures var t := Loop(settings, passes, k).iterations;
      && 0 < settings.maxIterations <= t
      && k < t && passes[t - 1].outcome == Completed
      && forall i :: k <= i < t - 1 && settings.maxIterations <= i + 1 ==> passes[i].outcome.Faulted?
    decreases |passes| - k
  {
    if !LimitHit(settings, k + 1) || !passes[k].outcome.Completed? {
      LimitStopFollowsCompletion(settings, passes, k + 1);
    }
  }

  /** `ExecuteAsync`. */
  method ExecuteAsync(settings: WorkerSettings, passes: seq<Pass>) returns (r: WorkerState)
    ensures r == Execute(settings, passes)
  {
    if !settings.continuousExecution {
      return Stopped(0, Disabled);
    }
    var iteration: nat := 0;
    while iteration < |passes|
      invariant iteration <= |passes|
      invariant Loop(settings, passes, iteration) == Execute(settings, passes)
      decreases |passes| - iteration
    {
      var pass := passes[iteration];
      if pass.cancellationRequested {
        return Stopped(iteration, CancelledBeforeIteration);
      }
      iteration := iteration + 1;
      match pass.outcome
      case Completed =>
        if settings.maxIterations > 0 && iteration >= settings.maxIterations {
          return Stopped(iteration, LimitReached);
        }
      case Canceled =>
        return Stopped(iteration, CancelledDuringIteration);
      case Faulted(_) =>
    }
    r := Running(iteration);
  }
}
