/** The errors the tracker's lifecycle operations throw. */
module TrackerErrors {

  /** One constructor per message of `TrackerError` that the tracker throws. */
  datatype TrackerError =
    | CannotTrackStarted
    | CannotPauseUnstarted
    | CannotResumeUnstarted
    | CannotStopUnstarted

  /** The tag every message starts with. */
  const Tag: string := "[TRACKER] - "

  /** The text after the tag. */
  function Detail(e: TrackerError): string
  {
    match e
    case CannotTrackStarted => "Cannot call `track()` on an already started starcker."
    case CannotPauseUnstarted => "Cannot pause an unstarted tracker. Should call `track()` first."
    case CannotResumeUnstarted => "Cannot resume an unstarted tracker. Should call `track()` first."
    case CannotStopUnstarted => "Cannot stop an unstarted tracker. Should call `track()` first."
  }

  /** The text of the `Error` thrown for each kind: tagged, with a non-empty description. */
  function Message(e: TrackerError): (m: string)
    ensures |Tag| < |m| && m[..|Tag|] == Tag
  {
    Tag + Detail(e)
  }

  /** Distinct errors carry distinct messages, so a caller can tell them apart by text. */
  lemma MessagesDistinct(e1: TrackerError, e2: TrackerError)
    requires e1 != e2
    ensures Message(e1) != Message(e2)
  {
  }
}
