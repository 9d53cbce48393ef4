/** The signals a tracker receives and the records it emits. */
module TrackerEvents {

  /** One attribute of a DOM element. */
  datatype Attribute = Attribute(name: string, value: string)

  /** One record of a mutation batch; its content is opaque to the tracker. */
  datatype MutationRecord = MutationRecord(recordType: string)

  /** What a listener receives: a DOM event with its target element's attributes, or a batch of mutation records. */
  datatype Payload =
    | DomEvent(eventType: string, target: seq<Attribute>)
    | Mutations(records: seq<MutationRecord>)

  /** The record emitted under the topic 'track'; `url` and `ua` stand for the parsed location and user agent. */
  datatype TrackerEvent = TrackerEvent(
    timestamp: int,
    eventType: string,
    event: Payload,
    url: string,
    ua: string,
    data: map<string, string>)
}
