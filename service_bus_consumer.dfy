/** `AzureServiceBusConsumer.ConsumeAsync`: read the connection string
    (required) and the queue name (with a fallback), start a processor whose
    message handler completes a message only after the caller's handler
    returned, log every failure without settling the message, log processor
    errors and carry on, and on cancellation stop processing and return
    normally.

    The processor's events arrive one at a time, in the order given, until
    cancellation is requested. */
module AzureServiceBusConsumer {
  import opened Configuration
  import opened Messages
  import opened Sequences

  /** The two configuration entries the consumer reads. */
  datatype ServiceBusSettings = ServiceBusSettings(connectionString: Option<string>, queueName: Option<string>)

  /** The `InvalidOperationException` thrown when no connection string is
      configured. */
  datatype ConsumerError = ConnectionStringNotConfigured

  /** One message handed to `ProcessMessageAsync`, with the outcomes that
      decide its fate: how its body decodes, how the caller's handler ends, and
      whether `CompleteMessageAsync` throws. */
  datatype ArrivedMessage = ArrivedMessage(lockToken: nat, body: Decoded, handler: HandlerOutcome, completeThrows: bool)

  /** What the processor raises: a message for the message handler, or an
      error for the error handler. */
  datatype ProcessorEvent = MessageArrived(message: ArrivedMessage) | ProcessorFailed(ex: ExceptionKind)

  /** One entry of the trace: the client and processor calls the consumer
      makes, the calls into the caller's handler, and the errors logged. */
  datatype Event =
    | ClientCreated(connectionString: string)
    | ProcessorCreated(queue: string)
    | ProcessingStarted
    | HandlerInvoked(messageId: nat)
    | MessageCompleted(lockToken: nat)
    | MessageErrorLogged
    | ProcessorErrorLogged
    | ProcessingStopped
    | ProcessorDisposed
    | ClientDisposed

  /** The queue the processor is created for, with its fallback. */
  function QueueName(settings: ServiceBusSettings): string {
    settings.queueName.OrElse("default-queue")
  }

  /** A configured queue name is used as given; a missing one falls back
      to `"default-queue"`. */
  lemma QueueNameDefault(settings: ServiceBusSettings)
    ensures QueueName(settings) == if settings.queueName.Some? then settings.queueName.value else "default-queue"
  {
  }

  /** The message handler for one message: the `try` around decode, handler
      and `CompleteMessageAsync`, and the `catch` that only logs. */
  function MessageTrace(m: ArrivedMessage): seq<Event> {
    match m.body
    case DecodeThrew => [MessageErrorLogged]
    case NullMessage => []
    case Message(dto) =>
      [HandlerInvoked(dto.id)] +
      match m.handler
      case HandlerThrew(_) => [MessageErrorLogged]
      case HandlerCompleted => if m.completeThrows then [MessageErrorLogged] else [MessageCompleted(m.lockToken)]
  }

  /** What the processor's handlers add to the trace for one event. */
  function EventTrace(e: ProcessorEvent): seq<Event> {
    match e
    case MessageArrived(m) => MessageTrace(m)
    case ProcessorFailed(_) => [ProcessorErrorLogged]
  }

  /** The trace of a run of events, in order. */
  function Handled(events: seq<ProcessorEvent>): seq<Event> {
    FlatMap(EventTrace, events)
  }

  /** The whole method. Without a connection string it throws before any
      client exists; otherwise it creates the client and the processor,
      starts processing, handles the events that arrive before cancellation,
      stops processing, and disposes of the processor and then the client
      (`await using`, in reverse order of declaration). */
  function Consume(settings: ServiceBusSettings, events: seq<ProcessorEvent>): (r: Result<seq<Event>, ConsumerError>)
    ensures r.Err? <==> settings.connectionString.None?
    ensures r.Err? ==> r.error == ConnectionStringNotConfigured
    ensures r.Ok? ==> 6 <= |r.value|
    ensures r.Ok? ==> r.value[..3] == [ClientCreated(settings.connectionString.value), ProcessorCreated(QueueName(settings)), ProcessingStarted]
    ensures r.Ok? ==> r.value[|r.value| - 3..] == [ProcessingStopped, ProcessorDisposed, ClientDisposed]
  {
    match settings.connectionString
    case None => Err(ConnectionStringNotConfigured)
    case Some(connectionString) =>
      var head := [ClientCreated(connectionString), ProcessorCreated(QueueName(settings)), ProcessingStarted];
      var tail := [ProcessingStopped, ProcessorDisposed, ClientDisposed];
      var trace := head + Handled(events) + tail;
      assert trace[..3] == head;
      assert trace[|trace| - 3..] == tail;
      Ok(trace)
  }

  /** `e` is the handler's own settlement of the message with lock token
      `token`. */
  predicate Settles(e: Event, token: nat) {
    e.MessageCompleted? && e.lockToken == token
  }

  /** The per-message rules of the message handler. */
  lemma MessageTraceRules(m: ArrivedMessage)
    // The caller's handler runs exactly for a non-null message.
    ensures (exists i :: 0 <= i < |MessageTrace(m)| && MessageTrace(m)[i].HandlerInvoked?) <==> m.body.Message?
    // The message is completed exactly when the handler and the completion both succeed.
    ensures (exists i :: 0 <= i < |MessageTrace(m)| && Settles(MessageTrace(m)[i], m.lockToken))
        <==> m.body.Message? && m.handler == HandlerCompleted && !m.completeThrows
    // A failure is logged exactly for a decode, handler or completion failure.
    ensures MessageErrorLogged in MessageTrace(m)
        <==> m.body.DecodeThrew? || (m.body.Message? && (m.handler.HandlerThrew? || m.completeThrows))
    // A completion is for this message only, comes right after the handler returned, and ends the trace.
    ensures forall i :: 0 <= i < |MessageTrace(m)| && MessageTrace(m)[i].MessageCompleted? ==>
      MessageTrace(m)[i] == MessageCompleted(m.lockToken) && i == 1 && i == |MessageTrace(m)| - 1
      && MessageTrace(m)[0] == HandlerInvoked(m.body.dto.id)
  {
    var t := MessageTrace(m);
    if m.body.Message? {
      assert t[0].HandlerInvoked?;
      if m.handler == HandlerCompleted && !m.completeThrows {
        assert Settles(t[1], m.lockToken);
      }
    }
  }

  /** The lock token an entry completes, if any. */
  function CompletionOf(e: Event): seq<nat> {
    if e.MessageCompleted? then [e.lockToken] else []
  }

  /** The lock tokens completed in a trace, in order. */
  function Completions(trace: seq<Event>): seq<nat> {
    FlatMap(CompletionOf, trace)
  }

  /** The lock token of one event, if it is a message that should be
      completed. */
  function CompletedToken(e: ProcessorEvent): seq<nat> {
    if e.MessageArrived? && e.message.body.Message? && e.message.handler == HandlerCompleted && !e.message.completeThrows
    then [e.message.lockToken] else []
  }

  /** An independent account of what should be completed: the lock tokens of
      the messages that decoded to a non-null message whose handler and
      completion both succeeded. */
  function CompletedTokens(events: seq<ProcessorEvent>): seq<nat> {
    FlatMap(CompletedToken, events)
  }

  /** One event completes its message's lock token exactly when it should. */
  lemma EventCompletions(e: ProcessorEvent)
    ensures Completions(EventTrace(e)) == CompletedToken(e)
  {
    var t := EventTrace(e);
    if |t| == 2 {
      FlatMapAppend(CompletionOf, [t[0]], [t[1]]);
      assert t == [t[0]] + [t[1]];
      FlatMapSingle(CompletionOf, t[0]);
      FlatMapSingle(CompletionOf, t[1]);
    } else if |t| == 1 {
      FlatMapSingle(CompletionOf, t[0]);
      assert t == [t[0]];
    }
  }

  /** Exactly the messages whose handler and completion succeeded are
      completed, once each, in arrival order; processor errors complete
      nothing. */
  lemma {:induction false} HandledCompletions(events: seq<ProcessorEvent>)
    ensures Completions(Handled(events)) == CompletedTokens(events)
    decreases |events|
  {
    if events != [] {
      var n := |events| - 1;
      HandledCompletions(events[..n]);
      FlatMapAppend(CompletionOf, Handled(events[..n]), EventTrace(events[n]));
      EventCompletions(events[n]);
    }
  }

  lemma {:induction false} NoCompletions(trace: seq<Event>)
    requires forall i :: 0 <= i < |trace| ==> !trace[i].MessageCompleted?
    ensures Completions(trace) == []
    decreases |trace|
  {
    if trace != [] {
      NoCompletions(trace[..|trace| - 1]);
    }
  }

  /** Over the whole run, the completed lock tokens are exactly those of the
      messages whose handler and completion succeeded: the client and
      processor calls around the handled events complete nothing. */
  lemma ConsumeCompletions(settings: ServiceBusSettings, events: seq<ProcessorEvent>)
    requires settings.connectionString.Some?
    ensures Completions(Consume(settings, events).value) == CompletedTokens(events)
  {
    var head := [ClientCreated(settings.connectionString.value), ProcessorCreated(QueueName(settings)), ProcessingStarted];
    var tail := [ProcessingStopped, ProcessorDisposed, ClientDisposed];
    var handled := Handled(events);
    var trace := Consume(settings, events).value;
    assert trace == (head + handled) + tail;
    FlatMapAppend(CompletionOf, head + handled, tail);
    FlatMapAppend(CompletionOf, head, handled);
    NoCompletions(head);
    NoCompletions(tail);
    HandledCompletions(events);
    assert Completions(trace) == Completions(head) + Completions(handled) + Completions(tail);
  }

  /** A processor error is logged and nothing else happens: the events before
      and after it are handled exactly as without it, the consumer still
      stops and disposes normally on cancellation, and the same messages are
      completed. */
  lemma ProcessorErrorDoesNotStop(settings: ServiceBusSettings, before: seq<ProcessorEvent>, ex: ExceptionKind, after: seq<ProcessorEvent>)
    requires settings.connectionString.Some?
    ensures Handled(before + [ProcessorFailed(ex)] + after) == Handled(before) + [ProcessorErrorLogged] + Handled(after)
    ensures Consume(settings, before + [ProcessorFailed(ex)] + after).Ok?
    ensures Completions(Consume(settings, before + [ProcessorFailed(ex)] + after).value)
        == CompletedTokens(before) + CompletedTokens(after)
  {
    var failed := [ProcessorFailed(ex)];
    var events := before + failed + after;
    FlatMapSingle(EventTrace, ProcessorFailed(ex));
    FlatMapSingle(CompletedToken, ProcessorFailed(ex));
    FlatMapAppend(EventTrace, before + failed, after);
    FlatMapAppend(EventTrace, before, failed);
    ConsumeCompletions(settings, events);
    FlatMapAppend(CompletedToken, before + failed, after);
    FlatMapAppend(CompletedToken, before, failed);
    assert CompletedTokens(before) + [] == CompletedTokens(before);
  }

  /** `ProcessMessageAsync`: the message handler for one message. */
  method ProcessMessageAsync(m: ArrivedMessage) returns (trace: seq<Event>)
    ensures trace == MessageTrace(m)
  {
    trace := [];
    match m.body {
      case DecodeThrew =>
        trace := trace + [MessageErrorLogged];
      case NullMessage =>
      case Message(dto) =>
        trace := trace + [HandlerInvoked(dto.id)];
        match m.handler {
          case HandlerThrew(_) =>
            trace := trace + [MessageErrorLogged];
          case HandlerCompleted =>
            if m.completeThrows {
              trace := trace + [MessageErrorLogged];
            } else {
              trace := trace + [MessageCompleted(m.lockToken)];
            }
        }
    }
  }

  /** `ConsumeAsync`: the events that arrive before cancellation are handled
      in order; cancellation ends the wait and processing is stopped. */
  method ConsumeAsync(settings: ServiceBusSettings, events: seq<ProcessorEvent>) returns (r: Result<seq<Event>, ConsumerError>)
    ensures r == Consume(settings, events)
  {
    if settings.connectionString.None? {
      return Err(ConnectionStringNotConfigured);
    }
    var connectionString := settings.connectionString.value;
    var queue := QueueName(settings);
    var head := [ClientCreated(connectionString), ProcessorCreated(queue), ProcessingStarted];
    var trace := head;
    var k := 0;
    while k < |events|
      invariant k <= |events|
      invariant trace == head + Handled(events[..k])
    {
      var step: seq<Event>;
      match events[k] {
        case MessageArrived(m) =>
          step := ProcessMessageAsync(m);
        case ProcessorFailed(_) =>
          step := [ProcessorErrorLogged];
      }
      assert step == EventTrace(events[k]);
      FlatMapAppend(EventTrace, events[..k], [events[k]]);
      FlatMapSingle(EventTrace, events[k]);
      assert events[..k] + [events[k]] == events[..k + 1];
      trace := trace + step;
      k := k + 1;
    }
    assert events[..k] == events;
    trace := trace + [ProcessingStopped, ProcessorDisposed, ClientDisposed];
    r := Ok(trace);
  }
}
