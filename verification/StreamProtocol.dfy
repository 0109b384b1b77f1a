/** Events of the streaming wire protocol (pkg/transport/natsstream/protocol.go). */
module StreamProtocol {

  datatype Kind = Start | Delta | Thought | ToolCall | ToolResult | Attachment | Complete | Error

  datatype Event = Event(kind: Kind, data: string) {
    predicate Terminates() { kind.Complete? || kind.Error? }
  }

  /** A published event with the number the server gave it. */
  datatype WireEvent = WireEvent(number: nat, event: Event)

  /** A whole server stream: one start, then data events, then one terminator. */
  predicate CompleteStream(events: seq<Event>) {
    && |events| >= 2
    && events[0].kind.Start?
    && events[|events| - 1].Terminates()
    && forall i | 0 <= i < |events| - 1 :: !events[i].Terminates()
  }
}
