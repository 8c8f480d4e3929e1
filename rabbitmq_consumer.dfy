/** `RabbitMqConsumer.ConsumeAsync`: a manual-ack subscription whose
    `Received` handler decodes the body, calls the caller's handler, acks on
    success and nacks with requeue on any exception, then waits for
    cancellation and returns normally.

    The channel keeps the ordered log of what happened: the channel calls the
    consumer makes and, between them, each call into the caller's handler.
    Deliveries are handled one at a time, in the order given. */
module RabbitMqConsumer {
  import opened Configuration
  import opened Messages
  import opened Sequences

  /** The three configuration entries the consumer reads. */
  datatype RabbitMqSettings = RabbitMqSettings(hostName: Option<string>, port: Option<string>, queueName: Option<string>)

  /** One entry of the log. */
  datatype Event =
    | QueueDeclared(queue: string, durable: bool, exclusive: bool, autoDelete: bool)
    | ConsumeStarted(queue: string, autoAck: bool)
    | HandlerInvoked(messageId: nat)
    | Acked(deliveryTag: nat, multiple: bool)
    | Nacked(deliveryTag: nat, multiple: bool, requeue: bool)
    | ChannelDisposed
    | ConnectionDisposed

  /** One delivery and the outcomes that decide its fate: how its body
      decodes, how the handler ends, and whether `BasicAck` throws. */
  datatype Delivery = Delivery(deliveryTag: nat, body: Decoded, handler: HandlerOutcome, ackThrows: bool)

  /** The connection factory's host name, with its fallback. */
  function HostName(settings: RabbitMqSettings): string {
    settings.hostName.OrElse("localhost")
  }

  /** The text `int.Parse` reads the port from, with its fallback. */
  function PortText(settings: RabbitMqSettings): string {
    settings.port.OrElse("5672")
  }

  /** The queue consumed from, with its fallback. */
  function QueueName(settings: RabbitMqSettings): string {
    settings.queueName.OrElse("default-queue")
  }

  /** A configured entry is used as given; a missing one falls back to the
      local broker's defaults. */
  lemma ConfigurationDefaults(settings: RabbitMqSettings)
    ensures HostName(settings) == if settings.hostName.Some? then settings.hostName.value else "localhost"
    ensures PortText(settings) == if settings.port.Some? then settings.port.value else "5672"
    ensures QueueName(settings) == if settings.queueName.Some? then settings.queueName.value else "default-queue"
  {
  }

  /** `e` acks or nacks the delivery `tag`. */
  predicate Settles(e: Event, tag: nat) {
    (e.Acked? && e.deliveryTag == tag) || (e.Nacked? && e.deliveryTag == tag)
  }

  predicate HasAck(log: seq<Event>) {
    exists i :: 0 <= i < |log| && log[i].Acked?
  }

  predicate HasNack(log: seq<Event>) {
    exists i :: 0 <= i < |log| && log[i].Nacked?
  }

  predicate HasHandlerCall(log: seq<Event>) {
    exists i :: 0 <= i < |log| && log[i].HandlerInvoked?
  }

  /** What the `Received` handler adds to the log for one delivery. */
  function Disposition(d: Delivery): seq<Event> {
    match d.body
    case DecodeThrew => [Nacked(d.deliveryTag, false, true)]
    case NullMessage => []
    case Message(m) =>
      [HandlerInvoked(m.id)] +
      match d.handler
      case HandlerThrew(_) => [Nacked(d.deliveryTag, false, true)]
      case HandlerCompleted =>
        [Acked(d.deliveryTag, false)] + if d.ackThrows then [Nacked(d.deliveryTag, false, true)] else []
  }

  /** The per-delivery rules of the `Received` handler. */
  lemma DispositionRules(d: Delivery)
    // The handler runs exactly for a non-null message.
    ensures HasHandlerCall(Disposition(d)) <==> d.body.Message?
    // A delivery is left unresolved exactly when its body decodes to null.
    ensures (exists i :: 0 <= i < |Disposition(d)| && Settles(Disposition(d)[i], d.deliveryTag)) <==> !d.body.NullMessage?
    // Acks only for a non-null message whose handler completed.
    ensures HasAck(Disposition(d)) <==> d.body.Message? && d.handler == HandlerCompleted
    // A nack follows a decode failure, a handler failure, or a failing ack.
    ensures HasNack(Disposition(d)) <==> d.body.DecodeThrew? || (d.body.Message? && (d.handler.HandlerThrew? || d.ackThrows))
    // The ack comes right after the handler returned, for this tag, one at a time.
    ensures forall i :: 0 <= i < |Disposition(d)| && Disposition(d)[i].Acked? ==>
      Disposition(d)[i] == Acked(d.deliveryTag, false) && 0 < i && Disposition(d)[i - 1] == HandlerInvoked(d.body.dto.id)
    // Every nack is for this tag, one at a time, with requeue, and is the last entry.
    ensures forall i :: 0 <= i < |Disposition(d)| && Disposition(d)[i].Nacked? ==>
      Disposition(d)[i] == Nacked(d.deliveryTag, false, true) && i == |Disposition(d)| - 1
  {
    var log := Disposition(d);
    match d.body
    case DecodeThrew =>
      assert Settles(log[0], d.deliveryTag) && log[0].Nacked?;
    case NullMessage =>
    case Message(m) =>
      assert log[0].HandlerInvoked?;
      assert Settles(log[1], d.deliveryTag);
      if d.handler == HandlerCompleted {
        assert log[1].Acked?;
        if d.ackThrows {
          assert log[2].Nacked?;
        }
      } else {
        assert log[1].Nacked?;
      }
  }

  /** The log entries of a run of deliveries, in order. */
  function Dispositions(deliveries: seq<Delivery>): seq<Event> {
    FlatMap(Disposition, deliveries)
  }

  /** The whole log of `ConsumeAsync`: declare, subscribe with manual acks,
      handle the deliveries, then, cancellation having ended the wait, dispose
      of the channel and the connection. */
  function ConsumeLog(settings: RabbitMqSettings, deliveries: seq<Delivery>): seq<Event> {
    var queue := QueueName(settings);
    [QueueDeclared(queue, true, false, false), ConsumeStarted(queue, false)]
      + Dispositions(deliveries)
      + [ChannelDisposed, ConnectionDisposed]
  }

  /** Every delivery whose body is not null is acked or nacked somewhere in
      the log of the run. */
  lemma {:induction false} DispositionsSettle(deliveries: seq<Delivery>, k: nat)
    requires k < |deliveries| && !deliveries[k].body.NullMessage?
    ensures exists i :: 0 <= i < |Dispositions(deliveries)| && Settles(Dispositions(deliveries)[i], deliveries[k].deliveryTag)
    decreases |deliveries|
  {
    var n := |deliveries| - 1;
    var front := Dispositions(deliveries[..n]);
    var last := Disposition(deliveries[n]);
    assert Dispositions(deliveries) == front + last;
    if k == n {
      DispositionRules(deliveries[k]);
      var i :| 0 <= i < |last| && Settles(last[i], deliveries[k].deliveryTag);
      assert (front + last)[|front| + i] == last[i];
    } else {
      assert deliveries[..n][k] == deliveries[k];
      DispositionsSettle(deliveries[..n], k);
      var i :| 0 <= i < |front| && Settles(front[i], deliveries[k].deliveryTag);
      assert (front + last)[i] == front[i];
    }
  }

  /** The consumer subscribes with manual acknowledgement, and every delivery
      with a non-null body whose handler ran to its end before cancellation is
      acked or nacked. */
  lemma ConsumeSettlesEveryDecodedDelivery(settings: RabbitMqSettings, deliveries: seq<Delivery>, k: nat)
    requires k < |deliveries| && !deliveries[k].body.NullMessage?
    ensures ConsumeLog(settings, deliveries)[1] == ConsumeStarted(QueueName(settings), false)
    ensures exists i :: 0 <= i < |ConsumeLog(settings, deliveries)| && Settles(ConsumeLog(settings, deliveries)[i], deliveries[k].deliveryTag)
  {
    DispositionsSettle(deliveries, k);
    var body := Dispositions(deliveries);
    var i :| 0 <= i < |body| && Settles(body[i], deliveries[k].deliveryTag);
    var head := [QueueDeclared(QueueName(settings), true, false, false), ConsumeStarted(QueueName(settings), false)];
    assert ConsumeLog(settings, deliveries) == head + body + [ChannelDisposed, ConnectionDisposed];
    assert ConsumeLog(settings, deliveries)[2 + i] == body[i];
  }

  /** The model channel: the log of calls made on it, and of handler calls
      made while it was open. */
  class Channel {
    var log: seq<Event>

    constructor ()
      ensures log == []
    {
      log := [];
    }

    /** Appends one entry. */
    method Record(e: Event)
      modifies this
      ensures log == old(log) + [e]
    {
      log := log + [e];
    }

    /** The `Received` event handler for one delivery: the `try` around
        decode, handler and `BasicAck`, and the `catch` that nacks with
        requeue. */
    method OnReceived(d: Delivery)
      modifies this
      ensures log == old(log) + Disposition(d)
    {
      match d.body {
        case DecodeThrew =>
          Record(Nacked(d.deliveryTag, false, true));
        case NullMessage =>
        case Message(m) =>
          Record(HandlerInvoked(m.id));
          match d.handler {
            case HandlerThrew(_) =>
              Record(Nacked(d.deliveryTag, false, true));
            case HandlerCompleted =>
              Record(Acked(d.deliveryTag, false));
              if d.ackThrows {
                Record(Nacked(d.deliveryTag, false, true));
              }
          }
      }
    }
  }

  /** `ConsumeAsync`: the deliveries that arrive before cancellation are
      handled in order; cancellation ends the wait without an exception. */
  method ConsumeAsync(settings: RabbitMqSettings, deliveries: seq<Delivery>) returns (channel: Channel)
    ensures fresh(channel)
    ensures channel.log == ConsumeLog(settings, deliveries)
  {
    channel := new Channel();
    var queue := QueueName(settings);
    channel.Record(QueueDeclared(queue, true, false, false));
    channel.Record(ConsumeStarted(queue, false));
    ghost var head := channel.log;
    var k := 0;
    while k < |deliveries|
      invariant k <= |deliveries|
      invariant channel.log == head + Dispositions(deliveries[..k])
    {
      FlatMapAppend(Disposition, deliveries[..k], [deliveries[k]]);
      FlatMapSingle(Disposition, deliveries[k]);
      assert deliveries[..k] + [deliveries[k]] == deliveries[..k + 1];
      channel.OnReceived(deliveries[k]);
      k := k + 1;
    }
    assert deliveries[..k] == deliveries;
    channel.Record(ChannelDisposed);
    channel.Record(ConnectionDisposed);
  }
}
