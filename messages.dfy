/** What the three consumer adapters share: the message type they deliver and
    the abstract outcomes that stand in for JSON decoding and the caller's
    handler, which are calls into code this model does not contain. */
module Messages {

  /** `MessageDto`: identity, payload and creation time. The GUID is an
      opaque number here. */
  datatype MessageDto = MessageDto(id: nat, content: string, timestamp: int)

  /** The classes of exception the consumers tell apart in their `catch`
      clauses: `OperationCanceledException`, Kafka's `ConsumeException`, and
      everything else. */
  datatype ExceptionKind = OperationCanceled | ConsumeError | OtherException

  /** What `JsonSerializer.Deserialize<MessageDto>` does with one body: a
      message, the JSON literal `null`, or an exception (`JsonException`,
      which is neither of the two kinds above). */
  datatype Decoded = Message(dto: MessageDto) | NullMessage | DecodeThrew

  /** What the caller-supplied `onMessageReceived` handler does. */
  datatype HandlerOutcome = HandlerCompleted | HandlerThrew(ex: ExceptionKind)
}
