/**
  The `Event` record exchanged by the parser, the client and the handler,
  and the protocol's field-name constants.
 */
module Events {

  /** Type given to an event whose stream never named one. */
  const DefaultMessageType: string := "message"

  /** The four field names the parser recognises (matched case-sensitively). */
  const FieldNameEvent: string := "event"
  const FieldNameData: string := "data"
  const FieldNameId: string := "id"
  const FieldNameRetry: string := "retry"

  /** One event of the stream: its type, its data and its (possibly empty) id. */
  datatype Event = Event(eventType: string, data: string, id: string)
}
