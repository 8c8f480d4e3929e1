# Console-app templates: retry loop, argument scanner, worker loop, provider selection and message consumers

This project models, in Dafny, the parts of the .NET console-app templates that
hold logic of their own rather than wiring into libraries:

- **`DataProcessor.ProcessAsync` / `Process`** (`data_processor.dfy`): a
  counter-driven loop that makes at most `MaxRetryAttempts` attempts (default
  3). An exception filter `attempt < MaxRetryAttempts` decides whether a
  failure is retried or escapes. The "Processing failed after N attempts"
  exception is modelled as the distinct outcome `GaveUp`. The loop is a
  `while` method proved equal to a recursive specification `Retry`. The
  lemmas cover: the first success returns at once; the last failure escapes
  unchanged; cancellation before an attempt throws without counting it; and
  the converse of the first.
- **The Spectre.Console `ParseCommandLine` scanner** (`command_line.dfy`): a
  loop over `args` whose index the `--name`/`-n` branch bumps a second time.
  The options record defaults to `Name = "World"`, `Verbose = false`. The
  scanner is specified by `Scan`. The ghost predicate `IsValueSlot` says
  independently which positions are read as a value; the verbose flag and the
  name are characterised through it.
- **`SecondaryWorker.ExecuteAsync`** (`secondary_worker.dfy`): an enabled
  flag, an iteration counter, and a `MaxIterations` limit where 0 means
  unlimited. The worker stops on cancellation and goes on after any other
  error. The loop may run forever, so it is observed over a finite sequence of
  passes. When the passes run out, the worker is `Running`.
- **`DatabaseExtensions.AddDatabase`** (`database.dfy`): the required
  `Default` connection string, and the `Database:Type` default `"sqlite"`. The
  registered factory lambda lower-cases the type with `ToLowerInvariant` and
  matches it against the providers the template was generated with. The model
  covers the three-provider switch, the two-provider switches and the
  single-provider variants.
- **The consumer adapters**, each over abstract decode, handler and broker
  outcomes producing a trace of broker calls:
  - RabbitMQ ack/nack-requeue (`rabbitmq_consumer.dfy`): a `Channel` class
    whose log the `Received` handler appends to.
  - Kafka commit-after-handler poll loop (`kafka_consumer.dfy`).
  - Azure Service Bus complete-on-success handler (`service_bus_consumer.dfy`).

`configuration.dfy` holds the `Option` type used for configuration entries that
may be missing, and the `Result` type of operations that may throw. `messages.dfy` holds the message DTO and the outcomes shared by
the consumers. `sequences.dfy` holds `FlatMap`, which concatenates what each
event of a run contributes to a trace.

Where the code and the design description of the repository disagree, the model
follows the code:

- **Consumer errors.** The design says a consumer loop never lets a handler or
  decode error end it, and always turns such errors into a nack and carries
  on. In the code this holds only for RabbitMQ:
  - In Kafka, handler and deserialiser exceptions escape `ConsumeAsync` and end
    the loop (`KafkaConsumer.LoopThrowsUncaught`).
  - The Service Bus handler only logs them. The handler itself never
    settles a failed message (`AzureServiceBusConsumer.MessageTraceRules`).
  - RabbitMQ never settles a body that decodes to `null`.
- **Retry policy.** The design describes retries with exponential backoff that
  apply only to transient failures. That policy lives in the Polly library.
  `DataProcessor`'s own loop treats every exception alike and waits a fixed
  delay. Its "failed after N attempts" exception is reachable only when
  `MaxRetryAttempts <= 0` (`DataProcessor.Retry`). For a positive limit, the
  last attempt's exception escapes instead.

## Model

| member | source | states |
|---|---|---|
| DataProcessor.Retry | src/templates/4-ConsoleApp.Enterprise/Services/DataProcessor.cs:47-74 | The counter only grows, and never exceeds `MaxRetryAttempts` once the loop has started. The "failed after N attempts" exit happens exactly when the counter is not below the limit, so from a zero counter only when `MaxRetryAttempts <= 0`, with no attempt made. |
| DataProcessor.SkipRetries | src/templates/4-ConsoleApp.Enterprise/Services/DataProcessor.cs:65-69 | After `j` caught failures that each passed the filter and were not cancelled, the call behaves as the loop started with `attempt == j`. |
| DataProcessor.FirstSuccessReturns | src/templates/4-ConsoleApp.Enterprise/Services/DataProcessor.cs:54-63 | If attempt `j` is the first to succeed, the call succeeds with `j + 1` attempts made. |
| DataProcessor.LastFailurePropagates | src/templates/4-ConsoleApp.Enterprise/Services/DataProcessor.cs:65 | A failure on attempt number `MaxRetryAttempts` fails the exception filter and escapes unchanged, after exactly `MaxRetryAttempts` attempts. |
| DataProcessor.CancellationBeforeAttempt | src/templates/4-ConsoleApp.Enterprise/Services/DataProcessor.cs:50-54 | Cancellation seen at the top of a pass throws `OperationCanceledException` before the counter is incremented, so that attempt is not counted. |
| DataProcessor.SuccessIsFirstSuccess | src/templates/4-ConsoleApp.Enterprise/Services/DataProcessor.cs:52-69 | Conversely, a call that succeeds made at most `MaxRetryAttempts` attempts, its last attempt succeeded, and every earlier attempt failed and was retried. |
| DataProcessor.ProcessAsync | src/templates/4-ConsoleApp.Enterprise/Services/DataProcessor.cs:42-75 | The `while` loop with the cancellation check, the early return and the exception filter computes exactly the outcome and attempt count of `Retry` from a zero counter. |
| DataProcessor.Process | src/templates/4-ConsoleApp.Enterprise/Services/DataProcessor.cs:84-115 | The synchronous loop behaves exactly as `ProcessAsync` under a token that is never cancelled. |
| CommandLine.ScanVerbose | src/templates/4-ConsoleApp.Enterprise/Extensions/CommandLineExtensions.cs:61-72 | From a flag slot, the scan ends with verbose on iff it was already on or a later flag slot holds `--verbose`/`-v`. Nothing switches it off. |
| CommandLine.ScanName | src/templates/4-ConsoleApp.Enterprise/Extensions/CommandLineExtensions.cs:61-67 | From a flag slot, the scan's name is the argument in the last value slot after it, or the name it started with when there is none. |
| CommandLine.ParseVerbose | src/templates/4-ConsoleApp.Enterprise/Extensions/CommandLineExtensions.cs:68-71 | `Verbose` is true iff some position that is not a consumed `--name` value holds `--verbose` or `-v`. |
| CommandLine.ParseName | src/templates/4-ConsoleApp.Enterprise/Extensions/CommandLineExtensions.cs:63-67 | `Name` is the value after the last `--name`/`-n` that has one, so the last one wins; with none it stays `"World"`. |
| CommandLine.ScanAppendInert | src/templates/4-ConsoleApp.Enterprise/Extensions/CommandLineExtensions.cs:61-72 | An appended argument in a flag slot that is not a verbose flag does not change the scan from any flag slot. |
| CommandLine.AppendInert | src/templates/4-ConsoleApp.Enterprise/Extensions/CommandLineExtensions.cs:63 | A trailing `--name`/`-n` with no value, an unrecognised argument, or a differently-cased flag leaves the parsed options unchanged. |
| CommandLine.Examples | src/templates/4-ConsoleApp.Enterprise/Extensions/CommandLineExtensions.cs:56-75 | No arguments give the defaults. `["--name","-v"]` gives `Name = "-v"` with `Verbose` off. The last name wins. `--Name`/`--VERBOSE` are skipped. |
| CommandLine.ParseCommandLine | src/templates/4-ConsoleApp.Enterprise/Extensions/CommandLineExtensions.cs:56-75 | The `for` loop, including the index bump in the name branch, returns exactly `Parse(args)`. |
| SecondaryWorker.Loop | src/templates/4-ConsoleApp.Enterprise/Services/SecondaryWorker.cs:52-81 | The counter never decreases and never exceeds the number of passes seen. A worker still running has counted every pass. The loop itself never reports `Disabled`. |
| SecondaryWorker.Execute | src/templates/4-ConsoleApp.Enterprise/Services/SecondaryWorker.cs:44-48 | The worker returns at once with zero iterations exactly when `ContinuousExecution` is false. |
| SecondaryWorker.CancellationDuringIteration | src/templates/4-ConsoleApp.Enterprise/Services/SecondaryWorker.cs:71-75 | An `OperationCanceledException` inside an iteration ends the loop normally, with that iteration counted. |
| SecondaryWorker.FaultContinues | src/templates/4-ConsoleApp.Enterprise/Services/SecondaryWorker.cs:76-80 | Any other exception leaves the worker's course unchanged from the next pass on. The iteration counts, and the limit check is skipped for it. |
| SecondaryWorker.LoopStopsAtCancellation | src/templates/4-ConsoleApp.Enterprise/Services/SecondaryWorker.cs:53 | If cancellation is seen at the loop test of pass `c`, the worker has stopped with at most `c` iterations. |
| SecondaryWorker.NoIterationAfterCancellation | src/templates/4-ConsoleApp.Enterprise/Services/SecondaryWorker.cs:53 | No iteration starts once cancellation has been requested at the loop test. |
| SecondaryWorker.LoopStopsAtLimit | src/templates/4-ConsoleApp.Enterprise/Services/SecondaryWorker.cs:57-69 | With a positive limit and every remaining iteration completing, the loop stops at exactly `MaxIterations`. |
| SecondaryWorker.StopsExactlyAtLimit | src/templates/4-ConsoleApp.Enterprise/Services/SecondaryWorker.cs:64-69 | An enabled worker whose iterations all complete stops after exactly `MaxIterations` iterations. |
| SecondaryWorker.LoopUnlimited | src/templates/4-ConsoleApp.Enterprise/Services/SecondaryWorker.cs:64 | A limit of zero or less never fires: without cancellation, the loop runs through every pass, errors included. |
| SecondaryWorker.UnlimitedRunsUntilCancelled | src/templates/4-ConsoleApp.Enterprise/Services/SecondaryWorker.cs:53-81 | With the default `MaxIterations = 0`, only cancellation ends an enabled worker. |
| SecondaryWorker.LimitStopFollowsCompletion | src/templates/4-ConsoleApp.Enterprise/Services/SecondaryWorker.cs:57-80 | A stop at the limit follows an iteration that completed at or beyond the limit. Every iteration between the limit and that stop faulted. |
| SecondaryWorker.ExecuteAsync | src/templates/4-ConsoleApp.Enterprise/Services/SecondaryWorker.cs:42-84 | The method with its early return, its counter and its `break`s computes exactly `Execute`. |
| DatabaseExtensions.ToLowerInvariant | src/templates/2-ConsoleApp.Standard/Extensions/DatabaseExtensions.cs:37 | Lower-casing keeps the length, maps each character by `ToLowerChar`, and leaves no upper-case ASCII letter. |
| DatabaseExtensions.AddDatabase | src/templates/2-ConsoleApp.Standard/Extensions/DatabaseExtensions.cs:27-30 | It fails with "connection string not found" iff `Default` is missing. Otherwise it registers the lambda with that connection string and the type, which defaults to `"sqlite"`. |
| DatabaseExtensions.CreateFactory | src/templates/2-ConsoleApp.Standard/Extensions/DatabaseExtensions.cs:34-70 | A built factory receives the connection string unchanged. A failure is always "unsupported database type" naming the configured type string. |
| DatabaseExtensions.ToLowerIdempotent | src/templates/2-ConsoleApp.Standard/Extensions/DatabaseExtensions.cs:37 | Lower-casing twice is lower-casing once. |
| DatabaseExtensions.ToLowerOfLower | src/templates/2-ConsoleApp.Standard/Extensions/DatabaseExtensions.cs:37 | A string with no upper-case letter is unchanged by lower-casing. |
| DatabaseExtensions.ProviderNameIsLowerCase | src/templates/2-ConsoleApp.Standard/Extensions/DatabaseExtensions.cs:39-41 | Each switch arm label is already lower case. |
| DatabaseExtensions.SelectProviderIff | src/templates/2-ConsoleApp.Standard/Extensions/DatabaseExtensions.cs:37-43 | A type selects provider `p` iff `p` was generated in and the type lower-cases to `p`'s arm label. |
| DatabaseExtensions.SelectionIgnoresCase | src/templates/2-ConsoleApp.Standard/Extensions/DatabaseExtensions.cs:37 | A type string and its lower-cased form select the same provider. |
| DatabaseExtensions.ProviderNameRoundTrip | src/templates/2-ConsoleApp.Standard/Extensions/DatabaseExtensions.cs:37-41 | Each arm label selects its own provider when that provider is generated in. |
| DatabaseExtensions.CreateWithAllProviders | src/templates/2-ConsoleApp.Standard/Extensions/DatabaseExtensions.cs:36-43 | With all three providers, `sqlite`/`sqlserver`/`postgres` in any ASCII case give the matching factory. Any other type gives the unsupported-type error. |
| DatabaseExtensions.ResolveWithAllProviders | src/templates/2-ConsoleApp.Standard/Extensions/DatabaseExtensions.cs:27-43 | End to end: a missing connection string fails first; a missing type yields the SQLite factory; otherwise the case-insensitive match decides. The unsupported-type error arises only when the lambda runs. |
| DatabaseExtensions.MissingProviderRejected | src/templates/2-ConsoleApp.Standard/Extensions/DatabaseExtensions.cs:44-64 | A two-provider template rejects the provider it was generated without, even when that provider is spelled correctly. |
| DatabaseExtensions.SingleProviderIgnoresType | src/templates/2-ConsoleApp.Standard/Extensions/DatabaseExtensions.cs:65-70 | A single-provider template builds its factory whatever `Database:Type` says. |
| RabbitMqConsumer.ConfigurationDefaults | src/templates/2-ConsoleApp.Standard/Messaging/RabbitMqConsumer.cs:29-36 | Host, port text and queue are taken from configuration when present, else `"localhost"`, `"5672"`, `"default-queue"`. |
| RabbitMqConsumer.DispositionRules | src/templates/2-ConsoleApp.Standard/Messaging/RabbitMqConsumer.cs:44-61 | For one delivery: the handler runs iff the body decodes to a message; the delivery is settled iff the body is not null; an ack comes iff the handler completed, right after it, as `BasicAck(tag, false)`; a nack comes iff decoding, the handler or the ack threw, as `BasicNack(tag, false, true)`, last. |
| RabbitMqConsumer.DispositionsSettle | src/templates/2-ConsoleApp.Standard/Messaging/RabbitMqConsumer.cs:42-62 | In a run of deliveries, every delivery with a non-null body is acked or nacked. |
| RabbitMqConsumer.ConsumeSettlesEveryDecodedDelivery | src/templates/2-ConsoleApp.Standard/Messaging/RabbitMqConsumer.cs:37-74 | The consumer subscribes with `autoAck: false`, and every delivery with a non-null body whose handler finished before cancellation is acked or nacked. |
| RabbitMqConsumer.Channel.OnReceived | src/templates/2-ConsoleApp.Standard/Messaging/RabbitMqConsumer.cs:42-62 | The `Received` handler appends exactly `Disposition(d)` to the channel's log, and changes nothing else. |
| RabbitMqConsumer.ConsumeAsync | src/templates/2-ConsoleApp.Standard/Messaging/RabbitMqConsumer.cs:25-75 | Declare the queue durable and non-exclusive, subscribe with manual acks, handle the deliveries in order, then return normally on cancellation. The log is exactly `ConsumeLog`. |
| KafkaConsumer.BuildConfig | src/templates/3-ConsoleApp.Advanced/Messaging/KafkaConsumer.cs:22-27 | Servers and group come from configuration when present, else `"localhost:9092"` and `"default-group"`. Offsets reset to earliest. |
| KafkaConsumer.TopicDefault | src/templates/3-ConsoleApp.Advanced/Messaging/KafkaConsumer.cs:30 | The topic comes from configuration when present, else `"default-topic"`. |
| KafkaConsumer.PollEffect | src/templates/3-ConsoleApp.Advanced/Messaging/KafkaConsumer.cs:41-49 | One pass logs a handler call only for a non-null message. It commits only when nothing was raised, right after the handler call, at the result's offset. A `ConsumeException` comes from `Consume` or from the handler. |
| KafkaConsumer.Loop | src/templates/3-ConsoleApp.Advanced/Messaging/KafkaConsumer.cs:35-61 | The passes begun never decrease and never exceed those seen. A loop still running has used every pass. |
| KafkaConsumer.LoopStep | src/templates/3-ConsoleApp.Advanced/Messaging/KafkaConsumer.cs:37-61 | A helper that unfolds `Loop` by one pass, spelling out its cases: a begun pass either continues with the next poll (nothing raised, or a `ConsumeException` that is logged), or closes the consumer and returns on cancellation, or ends with any other exception. |
| KafkaConsumer.NullMessageSkipped | src/templates/3-ConsoleApp.Advanced/Messaging/KafkaConsumer.cs:44 | A null message causes no handler call and no commit, and the loop continues. |
| KafkaConsumer.PassCommits | src/templates/3-ConsoleApp.Advanced/Messaging/KafkaConsumer.cs:44-48 | A pass commits its offset exactly when it received a non-null message whose handler completed. |
| KafkaConsumer.LoopCommitsCompleted | src/templates/3-ConsoleApp.Advanced/Messaging/KafkaConsumer.cs:35-61 | The commits, in order, are exactly the offsets of the begun passes whose message was non-null and whose handler completed. Nothing is committed for a failure. |
| KafkaConsumer.ConsumeCommitsCompleted | src/templates/3-ConsoleApp.Advanced/Messaging/KafkaConsumer.cs:20-62 | Over the whole method, subscription and disposal included, the committed offsets are exactly those of the completed messages. |
| KafkaConsumer.LoopCommitFollowsHandler | src/templates/3-ConsoleApp.Advanced/Messaging/KafkaConsumer.cs:47-48 | Every commit comes directly after a handler call. |
| KafkaConsumer.LoopClosesOnlyOnCancellation | src/templates/3-ConsoleApp.Advanced/Messaging/KafkaConsumer.cs:57-61 | `Close()` is logged only as the last entry, after a pass raised `OperationCanceledException`, and the method then returns normally. |
| KafkaConsumer.LoopReturnsOnCancellation | src/templates/3-ConsoleApp.Advanced/Messaging/KafkaConsumer.cs:37-61 | A normal return comes either from the loop test seeing cancellation, without `Close()`, or from the outer `catch`, which closes last. |
| KafkaConsumer.LoopThrowsUncaught | src/templates/3-ConsoleApp.Advanced/Messaging/KafkaConsumer.cs:39-57 | An exception escapes only from the pass that raised it. It is neither a `ConsumeException` nor a cancellation, and the consumer is not closed. |
| KafkaConsumer.ConsumeAsync | src/templates/3-ConsoleApp.Advanced/Messaging/KafkaConsumer.cs:20-62 | The poll loop with its two `catch` blocks and the `using` disposal yields exactly the log and exit of `Consume`. |
| AzureServiceBusConsumer.QueueNameDefault | src/templates/1-ConsoleApp.Simple/Messaging/AzureServiceBusConsumer.cs:24 | The queue comes from configuration when present, else `"default-queue"`. |
| AzureServiceBusConsumer.Consume | src/templates/1-ConsoleApp.Simple/Messaging/AzureServiceBusConsumer.cs:20-67 | It fails with "connection string not configured" iff none is set, before any client exists. Otherwise the trace starts with client, processor for the queue, and start. It ends with stop, processor disposal and client disposal. |
| AzureServiceBusConsumer.MessageTraceRules | src/templates/1-ConsoleApp.Simple/Messaging/AzureServiceBusConsumer.cs:29-47 | The handler runs iff the body decodes to a message. The message is completed iff the handler and `CompleteMessageAsync` both succeed, right after the handler, last. An error is logged iff decoding, the handler or the completion threw. The handler itself never settles a failed message. |
| AzureServiceBusConsumer.EventCompletions | src/templates/1-ConsoleApp.Simple/Messaging/AzureServiceBusConsumer.cs:29-53 | One processor event completes its lock token exactly when it is a message that should be completed. A processor error completes nothing. |
| AzureServiceBusConsumer.HandledCompletions | src/templates/1-ConsoleApp.Simple/Messaging/AzureServiceBusConsumer.cs:29-53 | Over a run of events, the completed lock tokens, in order, are exactly those of the messages whose handler and completion succeeded. |
| AzureServiceBusConsumer.ConsumeCompletions | src/templates/1-ConsoleApp.Simple/Messaging/AzureServiceBusConsumer.cs:20-67 | Over the whole method, the completed lock tokens are exactly those of the successfully handled messages. |
| AzureServiceBusConsumer.ProcessorErrorDoesNotStop | src/templates/1-ConsoleApp.Simple/Messaging/AzureServiceBusConsumer.cs:49-53 | A processor error is only logged. The events around it are handled as without it, the consumer still stops normally, and the same messages are completed. |
| AzureServiceBusConsumer.ProcessMessageAsync | src/templates/1-ConsoleApp.Simple/Messaging/AzureServiceBusConsumer.cs:29-47 | The message handler produces exactly `MessageTrace(m)`. |
| AzureServiceBusConsumer.ConsumeAsync | src/templates/1-ConsoleApp.Simple/Messaging/AzureServiceBusConsumer.cs:20-67 | The method, with its configuration check, event handling and stop on cancellation, returns exactly `Consume`. |

The default `MaxRetryAttempts` of 3 (`DataProcessor.DefaultMaxRetryAttempts`)
comes from `src/templates/4-ConsoleApp.Enterprise/Configuration/AppSettings.cs`
line 26. The worker defaults `5000`/`false`/`0`
(`SecondaryWorker.DefaultWorkerSettings`) come from
`src/templates/4-ConsoleApp.Enterprise/Configuration/WorkerSettings.cs` lines
16-26. The command-line defaults (`CommandLine.DefaultOptions`) come from
`src/templates/1-ConsoleApp.Simple/CommandLineOptions.cs` lines 8-9.

## Left out

- The Polly retry, circuit-breaker and timeout pipeline is library behaviour that this code only configures. Its backoff uses floating-point `Math.Pow`.
- The publishers are left out. Each is a single serialise-and-send call with no retry.
- Broker connections, JSON serialisation and network calls are replaced by abstract outcomes: decode to a message, to `null`, or throw; a handler that completes or throws; a poll that returns or throws; an ack or completion that throws.
- Threading and event dispatch are not modelled. Deliveries and processor events are handled one at a time, in the order given.
- Delays (`Task.Delay`, `Thread.Sleep`) and their durations are not modelled. Only whether a delay was cancelled is.
- Logging is not modelled, except where it is the only effect of an error path (the logged-error entries of the Kafka and Service Bus traces).
- The `ArgumentNullException` guards in the constructors are not modelled.
- `DataProcessor.Retry`: the attempt counter is an unbounded integer. The C# `int` cannot overflow here, because the counter never passes `MaxRetryAttempts`.
- `SecondaryWorker.Loop`: the iteration counter is an unbounded integer. A worker that ran past `int.MaxValue` iterations would wrap around in C#, and the model does not show that.
- `SecondaryWorker.Loop`, `KafkaConsumer.Loop`: these loops may run forever. They are observed over a finite sequence of passes, and a run that outlasts the observations is reported as still running.
- `DatabaseExtensions.ToLowerInvariant` maps only the ASCII letters. The invariant culture's non-ASCII case mappings are not modelled.
- The EF Core branch of `AddDatabase` shares the connection-string check, which `DatabaseExtensions.AddDatabase` models. Its `AddDbContext` registrations and the `AddScoped` repository registration are library calls.
- The provider switch duplicated in `src/templates/1-ConsoleApp.Simple/Program.cs` is covered by the same model.
- The System.CommandLine and CommandLineParser variants of `ParseCommandLine` are library wrappers.
- `CommandLineOptions` is modelled as a value that the scanner reassigns, because it is a plain record with two settable properties. The Enterprise template's own `CommandLineOptions.cs` is not part of this model. Its defaults are taken from the Simple template's file.
- `RabbitMqConsumer.PortText`: the port text is kept as text. A port that `int.Parse` rejects is not modelled.
- `RabbitMqConsumer.Channel.OnReceived`: a `BasicNack` that itself throws is not modelled.
- `KafkaConsumer.PollEffect`: a `Commit` that throws is not modelled.
- `AzureServiceBusConsumer.Consume`: `StartProcessingAsync` failing or being handed an already-cancelled token is not modelled.
- Broker-side redelivery (requeue, uncommitted offsets being read again) happens outside this code. The model records only the decision each consumer makes.
- `AzureServiceBusConsumer.MessageTraceRules`: the processor is created without options, so the SDK's default auto-completion also completes every message whose handler returns. The handler catches every exception, so failed and null messages are completed and dropped too. The model records only what the handler itself does.
- `RabbitMqConsumer.ConsumeSettlesEveryDecodedDelivery`: the `Received` handler is an `async` lambda that nothing awaits. When cancellation ends the wait, the `using` declarations dispose of the channel and the connection under any handler still in flight. That delivery is not settled, and its ack or nack then fails on the closed channel. The model handles deliveries one at a time, each to its end.
- `SecondaryWorker.Loop`: pass outcomes are inputs, not derived from `ExecutionIntervalMs`. A negative interval makes every pass fault, so a positive `MaxIterations` never fires; at -1, each delay waits for cancellation instead.
- `DataProcessor.Retry`: the cancellation observations of one pass are independent inputs. The model does not tie them to a single token that stays cancelled, so it admits a back-off that is not cancelled after work that threw `OperationCanceledException`. No stated property relies on that case.
