/** Tracking levels, the options a caller passes at construction and the configuration kept. */
module TrackerConfiguration {
  import opened Wrappers

  /** What a tracker records: DOM mutations, user interactions, or events on marked elements. */
  datatype TrackingLevel = MUTATION | INTERACTION | MARKED

  /** The options given to `Tracker.init`; each may be absent. */
  datatype Options = Options(identifier: Option<string>, level: Option<TrackingLevel>, events: Option<seq<string>>)

  /** The configuration a tracker holds once constructed: the identifier is not kept. */
  datatype Configuration = Configuration(level: TrackingLevel, events: seq<string>)

  /** The event types listened to when the options name none. */
  const DefaultEvents: seq<string> :=
    ["click", "dblclick", "contextmenu", "select", "wheel", "keypress", "drag", "drop", "play", "pause"]

  /** Fills in the defaults for absent options (`??`): a supplied list, even an empty one, is kept. */
  function Resolve(options: Options): (c: Configuration)
    ensures options.level.None? ==> c.level == MARKED
    ensures options.level.Some? ==> c.level == options.level.value
    ensures options.events.Some? ==> c.events == options.events.value
    ensures options.events.None? ==> c.events == DefaultEvents
  {
    Configuration(
      match options.level case Some(l) => l case None => MARKED,
      match options.events case Some(es) => es case None => DefaultEvents)
  }

  /** The identifier has no effect on the configuration a tracker keeps. */
  lemma IdentifierIgnored(options: Options, id: Option<string>)
    ensures Resolve(options.(identifier := id)) == Resolve(options)
  {
  }
}
