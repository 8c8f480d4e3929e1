/** `KafkaConsumer.ConsumeAsync`: a poll loop that runs while cancellation
    has not been requested, commits a result only after the handler has
    completed for a non-null message, logs and skips `ConsumeException`s, and
    on `OperationCanceledException` closes the consumer and returns.

    The loop may run forever, so it is observed over a finite sequence of
    passes: pass `k` says whether cancellation was requested when the loop
    condition was tested, and what the `Consume` call of that pass did. When
    the observations run out the consumer is still running. */
module KafkaConsumer {
  import opened Configuration
  import opened Messages
  import opened Sequences

  /** The three configuration entries the consumer reads. */
  datatype KafkaSettings = KafkaSettings(bootstrapServers: Option<string>, groupId: Option<string>, topic: Option<string>)

  datatype AutoOffsetReset = Latest | Earliest | Error

  /** The `ConsumerConfig` built from the settings. */
  datatype ConsumerConfig = ConsumerConfig(bootstrapServers: string, groupId: string, autoOffsetReset: AutoOffsetReset)

  /** What one `Consume` call does: it returns a result at some offset whose
      value decodes and is handled in the given ways, or it throws. */
  datatype PollResult =
    | Received(offset: nat, body: Decoded, handler: HandlerOutcome)
    | PollThrew(ex: ExceptionKind)

  /** One observed pass of the loop. */
  datatype Pass = Pass(cancellationRequested: bool, poll: PollResult)

  /** One entry of the consumer's log. */
  datatype Event =
    | Subscribed(topic: string)
    | HandlerInvoked(messageId: nat)
    | Committed(offset: nat)
    | ConsumeErrorLogged
    | Closed
    | Disposed

  /** How the method ends, if it has ended. */
  datatype Exit = StillRunning | Returned | Threw(ex: ExceptionKind)

  /** The log, the exit, and how many passes were begun. */
  datatype Run = Run(log: seq<Event>, exit: Exit, passesUsed: nat)

  /** What one pass adds to the log, and the exception its inner `try` body
      raised, if any. */
  datatype PassEffect = PassEffect(log: seq<Event>, raised: Option<ExceptionKind>)

  function BuildConfig(settings: KafkaSettings): (config: ConsumerConfig)
    ensures settings.bootstrapServers.None? ==> config.bootstrapServers == "localhost:9092"
    ensures settings.groupId.None? ==> config.groupId == "default-group"
    ensures settings.bootstrapServers.Some? ==> config.bootstrapServers == settings.bootstrapServers.value
    ensures settings.groupId.Some? ==> config.groupId == settings.groupId.value
    ensures config.autoOffsetReset == Earliest
  {
    ConsumerConfig(settings.bootstrapServers.OrElse("localhost:9092"), settings.groupId.OrElse("default-group"), Earliest)
  }

  /** The topic subscribed to, with its fallback. */
  function Topic(settings: KafkaSettings): string {
    settings.topic.OrElse("default-topic")
  }

  /** A configured topic is used as given; a missing one falls back to
      `"default-topic"`. */
  lemma TopicDefault(settings: KafkaSettings)
    ensures Topic(settings) == if settings.topic.Some? then settings.topic.value else "default-topic"
  {
  }

  /** The body of the inner `try`: consume, decode, and for a non-null
      message call the handler and then commit. A decode failure is a
      `JsonException`, which is neither a `ConsumeException` nor a
      cancellation. */
  function PollEffect(poll: PollResult): (e: PassEffect)
    ensures |e.log| <= 2
    ensures 0 < |e.log| ==> e.log[0].HandlerInvoked? && poll.Received? && poll.body.Message?
    ensures |e.log| == 2 <==> e.raised.None? && poll.Received? && poll.body.Message?
    ensures |e.log| == 2 ==> e.log[1] == Committed(poll.offset)
    ensures e.raised == Some(ConsumeError) ==> poll == PollThrew(ConsumeError) || (poll.Received? && poll.body.Message? && poll.handler == HandlerThrew(ConsumeError))
  {
    match poll
    case PollThrew(ex) => PassEffect([], Some(ex))
    case Received(offset, body, handler) =>
      match body
      case DecodeThrew => PassEffect([], Some(OtherException))
      case NullMessage => PassEffect([], None)
      case Message(m) =>
        match handler
        case HandlerThrew(ex) => PassEffect([HandlerInvoked(m.id)], Some(ex))
        case HandlerCompleted => PassEffect([HandlerInvoked(m.id), Committed(offset)], None)
  }

  /** The loop from the test of its condition before pass `k`. An exception
      other than `ConsumeException` leaves the loop: a cancellation is caught
      by the outer `catch`, which closes the consumer; anything else escapes. */
  function Loop(passes: seq<Pass>, k: nat): (r: Run)
    requires k <= |passes|
    ensures k <= r.passesUsed <= |passes|
    ensures r.exit == StillRunning ==> r.passesUsed == |passes|
    decreases |passes| - k
  {
    if k == |passes| then Run([], StillRunning, k)
    else if passes[k].cancellationRequested then Run([], Returned, k)
    else
      var effect := PollEffect(passes[k].poll);
      match effect.raised
      case None =>
        var rest := Loop(passes, k + 1);
        Run(effect.log + rest.log, rest.exit, rest.passesUsed)
      case Some(ex) =>
        if ex == ConsumeError then
          var rest := Loop(passes, k + 1);
          Run(effect.log + [ConsumeErrorLogged] + rest.log, rest.exit, rest.passesUsed)
        else if ex == OperationCanceled then Run(effect.log + [Closed], Returned, k + 1)
        else Run(effect.log, Threw(ex), k + 1)
  }

  /** The whole method: subscribe, run the loop, and, when the method has
      ended by either path, dispose of the consumer (`using`). */
  function Consume(settings: KafkaSettings, passes: seq<Pass>): Run {
    var loop := Loop(passes, 0);
    Run([Subscribed(Topic(settings))] + loop.log + (if loop.exit == StillRunning then [] else [Disposed]),
        loop.exit, loop.passesUsed)
  }

  /** The offset one log entry commits, if it is a commit. */
  function CommitOf(e: Event): seq<nat> {
    if e.Committed? then [e.offset] else []
  }

  /** The offsets committed in a log, in order. */
  function Commits(log: seq<Event>): seq<nat> {
    FlatMap(CommitOf, log)
  }

  /** An independent account of what should be committed: the offsets of the
      passes in `[from, to)` that received a non-null message whose handler
      completed. */
  function CompletedOffsets(passes: seq<Pass>, from: nat, to: nat): seq<nat>
    requires from <= to <= |passes|
    decreases (to as int) - (from as int)
  {
    if from == to then []
    else
      var p := passes[from].poll;
      (if p.Received? && p.body.Message? && p.handler == HandlerCompleted then [p.offset] else [])
        + CompletedOffsets(passes, from + 1, to)
  }

  /** What one pass commits is its offset exactly when the handler completed
      for a non-null message. */
  lemma PassCommits(poll: PollResult)
    ensures Commits(PollEffect(poll).log) ==
      if poll.Received? && poll.body.Message? && poll.handler == HandlerCompleted then [poll.offset] else []
  {
    var log := PollEffect(poll).log;
    if |log| == 2 {
      assert log == [log[0]] + [log[1]];
      FlatMapAppend(CommitOf, [log[0]], [log[1]]);
      FlatMapSingle(CommitOf, log[0]);
      FlatMapSingle(CommitOf, log[1]);
    } else if |log| == 1 {
      assert log == [log[0]];
      FlatMapSingle(CommitOf, log[0]);
    }
  }

  /** Exactly the completed messages of the passes begun are committed, in
      poll order: nothing for a null message, a failed handler, a decode
      failure or a `ConsumeException`. */
  lemma {:induction false} LoopCommitsCompleted(passes: seq<Pass>, k: nat)
    requires k <= |passes|
    ensures Commits(Loop(passes, k).log) == CompletedOffsets(passes, k, Loop(passes, k).passesUsed)
    decreases |passes| - k
  {
    if k < |passes| && !passes[k].cancellationRequested {
      var effect := PollEffect(passes[k].poll);
      PassCommits(passes[k].poll);
      if effect.raised.None? {
        LoopCommitsCompleted(passes, k + 1);
        FlatMapAppend(CommitOf, effect.log, Loop(passes, k + 1).log);
      } else if effect.raised == Some(ConsumeError) {
        LoopCommitsCompleted(passes, k + 1);
        var rest := Loop(passes, k + 1).log;
        FlatMapAppend(CommitOf, effect.log + [ConsumeErrorLogged], rest);
        FlatMapAppend(CommitOf, effect.log, [ConsumeErrorLogged]);
        FlatMapSingle(CommitOf, ConsumeErrorLogged);
      } else if effect.raised == Some(OperationCanceled) {
        FlatMapAppend(CommitOf, effect.log, [Closed]);
        FlatMapSingle(CommitOf, Closed);
      }
    }
  }

  lemma ConsumeCommitsCompleted(settings: KafkaSettings, passes: seq<Pass>)
    ensures Commits(Consume(settings, passes).log) == CompletedOffsets(passes, 0, Consume(settings, passes).passesUsed)
  {
    var loop := Loop(passes, 0);
    LoopCommitsCompleted(passes, 0);
    var tail := if loop.exit == StillRunning then [] else [Disposed];
    FlatMapAppend(CommitOf, [Subscribed(Topic(settings))], loop.log);
    FlatMapAppend(CommitOf, [Subscribed(Topic(settings))] + loop.log, tail);
    FlatMapSingle(CommitOf, Subscribed(Topic(settings)));
    FlatMapSingle(CommitOf, Disposed);
  }

  /** Every commit in the loop's log comes directly after the handler call
      for the same pass. */
  predicate CommitsFollowHandler(log: seq<Event>) {
    forall i :: 0 <= i < |log| && log[i].Committed? ==> 0 < i && log[i - 1].HandlerInvoked?
  }

  lemma {:induction false} LoopCommitFollowsHandler(passes: seq<Pass>, k: nat)
    requires k <= |passes|
    ensures CommitsFollowHandler(Loop(passes, k).log)
    decreases |passes| - k
  {
    if k < |passes| && !passes[k].cancellationRequested {
      var effect := PollEffect(passes[k].poll);
      if effect.raised.None? || effect.raised == Some(ConsumeError) {
        LoopCommitFollowsHandler(passes, k + 1);
        var rest := Loop(passes, k + 1).log;
        assert CommitsFollowHandler(rest);
        var front := if effect.raised.None? then effect.log else effect.log + [ConsumeErrorLogged];
        var log: seq<Event> := front + rest;
        assert Loop(passes, k).log == log;
        forall i | 0 <= i < |log| && log[i].Committed?
          ensures 0 < i && log[i - 1].HandlerInvoked?
        {
          if i < |front| {
            assert log[i] == front[i];
            if i < |effect.log| {
              assert log[i - 1] == effect.log[i - 1];
            }
          } else {
            assert log[i] == rest[i - |front|];
            assert rest[i - |front|].Committed?;
            assert log[i - 1] == rest[i - |front| - 1];
          }
        }
      }
    }
  }

  /** Pass `i` was begun and its inner `try` body raised `ex`. */
  predicate Raised(passes: seq<Pass>, i: int, ex: ExceptionKind) {
    0 <= i < |passes| && !passes[i].cancellationRequested && PollEffect(passes[i].poll).raised == Some(ex)
  }

  /** `Loop` unfolded by one begun pass, its cases spelled out as a helper
      for the lemmas below: a `ConsumeException` is logged and the loop goes
      on with the next poll, as it does when nothing was raised; a
      cancellation closes the consumer and ends the loop normally; anything
      else ends it with that exception. */
  lemma LoopStep(passes: seq<Pass>, k: nat)
    requires k < |passes| && !passes[k].cancellationRequested
    ensures var effect := PollEffect(passes[k].poll);
      && (effect.raised.None? ==>
            Loop(passes, k).log == effect.log + Loop(passes, k + 1).log && Loop(passes, k).exit == Loop(passes, k + 1).exit)
      && (effect.raised == Some(ConsumeError) ==>
            Loop(passes, k).log == effect.log + [ConsumeErrorLogged] + Loop(passes, k + 1).log
            && Loop(passes, k).exit == Loop(passes, k + 1).exit)
      && (effect.raised == Some(OperationCanceled) ==> Loop(passes, k) == Run(effect.log + [Closed], Returned, k + 1))
      && (effect.raised.Some? && effect.raised.value != ConsumeError && effect.raised.value != OperationCanceled ==>
            Loop(passes, k) == Run(effect.log, Threw(effect.raised.value), k + 1))
  {
  }

  /** A null message is skipped: no handler call, no commit, and the loop
      goes on with the next poll. */
  lemma NullMessageSkipped(passes: seq<Pass>, k: nat)
    requires k < |passes| && !passes[k].cancellationRequested
    requires passes[k].poll.Received? && passes[k].poll.body.NullMessage?
    ensures Loop(passes, k) == Loop(passes, k + 1)
  {
  }

  /** `Close()` appears only as the last entry, when the method returns
      normally after pass `r.passesUsed - 1` raised a cancellation. */
  predicate ClosesOnlyOnCancellation(passes: seq<Pass>, r: Run) {
    forall i :: 0 <= i < |r.log| && r.log[i] == Closed ==>
      i == |r.log| - 1 && r.exit == Returned && Raised(passes, r.passesUsed - 1, OperationCanceled)
  }

  /** A normal return comes from cancellation seen at the loop test, without
      closing, or from the outer `catch`, which closes last. */
  predicate ReturnsOnCancellation(passes: seq<Pass>, r: Run) {
    r.exit == Returned ==>
      (r.passesUsed < |passes| && passes[r.passesUsed].cancellationRequested && Closed !in r.log)
      || (r.log != [] && r.log[|r.log| - 1] == Closed)
  }

  /** An exception escapes only from the pass that raised it, is neither a
      `ConsumeException` nor a cancellation, and the consumer is not closed. */
  predicate ThrowsUncaught(passes: seq<Pass>, r: Run) {
    r.exit.Threw? ==>
      Closed !in r.log && Raised(passes, r.passesUsed - 1, r.exit.ex)
      && r.exit.ex != ConsumeError && r.exit.ex != OperationCanceled
  }

  /** Entries without `Close()` put in front of a run keep its `Close()`
      last. */
  lemma ClosesWithFront(passes: seq<Pass>, front: seq<Event>, rest: Run)
    requires Closed !in front && ClosesOnlyOnCancellation(passes, rest)
    ensures ClosesOnlyOnCancellation(passes, Run(front + rest.log, rest.exit, rest.passesUsed))
  {
    var log := front + rest.log;
    forall i | 0 <= i < |log| && log[i] == Closed
      ensures i == |log| - 1
    {
      assert rest.log[i - |front|] == Closed;
    }
  }

  lemma {:induction false} LoopClosesOnlyOnCancellation(passes: seq<Pass>, k: nat)
    requires k <= |passes|
    ensures ClosesOnlyOnCancellation(passes, Loop(passes, k))
    decreases |passes| - k
  {
    if k < |passes| && !passes[k].cancellationRequested {
      LoopStep(passes, k);
      var effect := PollEffect(passes[k].poll);
      if effect.raised.None? || effect.raised == Some(ConsumeError) {
        LoopClosesOnlyOnCancellation(passes, k + 1);
        var rest := Loop(passes, k + 1);
        var front := if effect.raised.None? then effect.log else effect.log + [ConsumeErrorLogged];
        ClosesWithFront(passes, front, rest);
        assert Loop(passes, k) == Run(front + rest.log, rest.exit, rest.passesUsed);
      }
    }
  }

  lemma {:induction false} LoopReturnsOnCancellation(passes: seq<Pass>, k: nat)
    requires k <= |passes|
    ensures ReturnsOnCancellation(passes, Loop(passes, k))
    decreases |passes| - k
  {
    if k < |passes| && !passes[k].cancellationRequested {
      var effect := PollEffect(passes[k].poll);
      assert Closed !in effect.log;
      if effect.raised.None? || effect.raised == Some(ConsumeError) {
        LoopReturnsOnCancellation(passes, k + 1);
        var rest := Loop(passes, k + 1);
        assert ReturnsOnCancellation(passes, rest);
        var front := if effect.raised.None? then effect.log else effect.log + [ConsumeErrorLogged];
        assert Closed !in front;
        assert Loop(passes, k).log == front + rest.log;
      }
    }
  }

  lemma {:induction false} LoopThrowsUncaught(passes: seq<Pass>, k: nat)
    requires k <= |passes|
    ensures ThrowsUncaught(passes, Loop(passes, k))
    decreases |passes| - k
  {
    if k < |passes| && !passes[k].cancellationRequested {
      var effect := PollEffect(passes[k].poll);
      assert Closed !in effect.log;
      if effect.raised.None? || effect.raised == Some(ConsumeError) {
        LoopThrowsUncaught(passes, k + 1);
        var rest := Loop(passes, k + 1);
        assert ThrowsUncaught(passes, rest);
        var front := if effect.raised.None? then effect.log else effect.log + [ConsumeErrorLogged];
        assert Closed !in front;
        assert Loop(passes, k).log == front + rest.log;
      }
    }
  }

  /** `ConsumeAsync`: the `while` loop over the observed passes, with the
      inner `catch` for `ConsumeException` and the outer `catch` for
      cancellation. `exit` stays `StillRunning` while control remains in the
      loop, and records how it left: the loop test seeing cancellation, the
      outer `catch`, or an exception escaping the method. */
  method ConsumeAsync(settings: KafkaSettings, passes: seq<Pass>) returns (log: seq<Event>, exit: Exit)
    ensures log == Consume(settings, passes).log && exit == Consume(settings, passes).exit
  {
    var head := [Subscribed(Topic(settings))];
    ghost var whole := Loop(passes, 0);
    log := head;
    exit := StillRunning;
    var k := 0;
    while exit == StillRunning && k < |passes|
      invariant k <= |passes|
      invariant exit == StillRunning ==> head + whole.log == log + Loop(passes, k).log && whole.exit == Loop(passes, k).exit
      invariant exit != StillRunning ==> log == head + whole.log && exit == whole.exit
      decreases |passes| - k, if exit == StillRunning then 1 else 0
    {
      if passes[k].cancellationRequested {
        exit := Returned;
      } else {
        LoopStep(passes, k);
        var effect := PollEffect(passes[k].poll);
        var raised := effect.raised;
        if raised == Some(OperationCanceled) {
          log := log + effect.log + [Closed];
          exit := Returned;
        } else if raised.Some? && raised.value != ConsumeError {
          log := log + effect.log;
          exit := Threw(raised.value);
        } else {
          ghost var before := log;
          log := log + effect.log + (if raised.Some? then [ConsumeErrorLogged] else []);
          assert before + Loop(passes, k).log == log + Loop(passes, k + 1).log;
          k := k + 1;
        }
      }
    }
    if exit != StillRunning {
      log := log + [Disposed];
    }
  }
}
