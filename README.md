# Tracker: a Dafny model of the DOM event tracker

This project models the `Tracker` class of the tracker library (`src/lib/tracker.ts`):

- its lifecycle state machine: the fields `status` (`READY`, `RUNNING`, `PAUSED`, `STOPPED`) and `isPaused`, changed by the guarded operations `start`, `pause`, `resume` and `stop`;
- its capture, filter and enrich step: `eventListener` and `mutationListener`, which drop signals while paused, keep only target attributes whose names start with `track-`, drop unmarked targets in `MARKED` level, build the `data` map and emit one record under `'track'`.

Modules, one per source file or component:

- `Wrappers` (`wrappers.dfy`): `Option`, `Result`, `Outcome`.
- `TrackerErrors` (`tracker_error.dfy`): the `TrackerError` kinds and their messages.
- `TrackerConfiguration` (`tracker_configuration.dfy`): `TrackingLevel`, the construction options and the configuration kept after the defaults are filled in.
- `TrackerEvents` (`tracker_event.dfy`): attributes, mutation records, the payload a listener receives and the emitted `TrackerEvent`.
- `Lifecycle` (`lifecycle.dfy`): the status groups and one step function per lifecycle operation, on the pair (`status`, `isPaused`). A thrown error leaves that pair unchanged. It also defines runs of several calls and the reachability lemmas about them.
- `Capture` (`capture.dfy`): the pure parts of the listeners: prefix test, attribute lookup, the filter, the `customData` map, the type choice, and each listener's reaction to one signal.
- `TrackerClass` (`tracker.dfy`): the `Tracker` class.
  - Fields: `configuration`, `status`, `isPaused`, `hasObserver` (whether `mutationObserver` is set), `wiring` and `emitted`.
  - `wiring` logs the calls the tracker makes on the document and its observer. `emitted` logs the records passed to `emit('track', …)`.
  - Every method is proved against the step function or reaction function that specifies it.

Throwing is modelled as a returned `Outcome` (`Pass` or `Fail(error)`).

## Where the code departs from its comments and design

The model follows the code. Its lemmas state the consequences:

- `start()` never assigns `status` (src/lib/tracker.ts:71-90).
  - A successful `start` leaves the tracker `READY` (or `STOPPED`).
  - From a fresh tracker, `RUNNING`, `PAUSED` and `STOPPED` are unreachable.
  - A second `start` does not throw.
  - `pause`, `resume` and `stop` always throw.
  - See `Lifecycle.InitialIsStuck` and `Lifecycle.AfterAnyCalls`.
- `resume()` sets `isPaused = true` (src/lib/tracker.ts:128), although its comment says it resumes tracking.
  - Once a tracker has been paused, no sequence of calls clears the flag, so neither listener emits again.
  - This includes the timer-driven resume.
  - See `Lifecycle.PausedFlagIsSticky` and `TrackerClass.NothingEmittedAfterPause`.
- The status never leaves `STOPPED`, yet `STOPPED` does not refuse `start`: `start` from `STOPPED` succeeds and subscribes again, and the status stays `STOPPED` (`Lifecycle.StoppedStatusIsAbsorbing`).
- The constructor fills in the default event list whenever `events` is absent, whatever the level.
- When `eventListener` receives a mutation batch, `(event as Event).target` is undefined, so reading its attribute names throws a `TypeError`.
  - Nothing is emitted in that case (`Capture.Reaction.NoTarget`).
  - So the `'mutation'` branch of the type choice (src/lib/tracker.ts:173) is never reached from `eventListener`.
  - `Capture.EventType` still models that choice.
  - Mutation batches reach `mutationListener`, which emits `type = 'mutation'` with empty data.

## Model

| member | source | states |
|---|---|---|
| TrackerErrors.Message | src/lib/tracker-error.ts:2-8 | every thrown message starts with the tag `[TRACKER] - ` followed by a description |
| TrackerErrors.MessagesDistinct | src/lib/tracker-error.ts:2-8 | the four errors carry pairwise distinct messages |
| TrackerConfiguration.Resolve | src/lib/tracker.ts:28-42 | level defaults to MARKED and events to the ten built-in types only when absent; a supplied list, even `[]`, is kept |
| TrackerConfiguration.IdentifierIgnored | src/lib/tracker.ts:28-42 | the identifier option has no effect on the kept configuration |
| TrackerClass.Tracker.Init | src/lib/tracker.ts:25-50 | a fresh tracker holds the resolved configuration, status READY, not paused, no observer, nothing wired or emitted |
| TrackerClass.QueriesPartition | src/lib/tracker.ts:52-66 | exactly one of `ready`, `running`, `paused`, `stopped` holds |
| Lifecycle.StartStep | src/lib/tracker.ts:71-90 | throws CANNOT_TRACK_STARTED exactly when status is RUNNING or PAUSED; otherwise status and isPaused are unchanged, so status is READY or STOPPED |
| Lifecycle.PauseStep | src/lib/tracker.ts:97-107 | throws CANNOT_PAUSE_UNSTARTED exactly when status is READY or STOPPED, whatever isPaused is; otherwise status PAUSED and isPaused true |
| Lifecycle.ResumeStep | src/lib/tracker.ts:119-130 | throws CANNOT_RESUME_UNSTARTED exactly when status is READY or STOPPED; otherwise status RUNNING and isPaused true |
| Lifecycle.StopStep | src/lib/tracker.ts:132-147 | throws CANNOT_STOP_UNSTARTED exactly when status is READY or STOPPED; otherwise status STOPPED and isPaused unchanged |
| Lifecycle.InitialIsFixpoint | src/lib/tracker.ts:44-147 | no single lifecycle call changes the state of a fresh tracker |
| Lifecycle.InitialIsStuck | src/lib/tracker.ts:71-147 | no sequence of lifecycle calls changes the state of a fresh tracker: RUNNING, PAUSED and STOPPED are unreachable |
| Lifecycle.AfterAnyCalls | src/lib/tracker.ts:71-147 | after any calls a fresh tracker is READY and unpaused, `start` succeeds again, and `pause`, `resume` and `stop` throw their errors |
| Lifecycle.StoppedStatusIsAbsorbing | src/lib/tracker.ts:71-147 | from STOPPED no sequence of calls changes status or isPaused, though `start` succeeds there |
| Lifecycle.PausedFlagIsSticky | src/lib/tracker.ts:106-128 | once isPaused is set, no sequence of calls clears it |
| Lifecycle.StopThenNothingElse | src/lib/tracker.ts:132-147 | from RUNNING or PAUSED `stop` succeeds, and then `pause`, `resume` and `stop` throw |
| TrackerClass.Tracker.Start | src/lib/tracker.ts:71-90 | outcome and new lifecycle state as StartStep; on success appends exactly StartWiring to the wiring log and sets the observer in MUTATION level; on failure wires nothing |
| TrackerClass.AddListenersInOrder | src/lib/tracker.ts:86-88 | one capture-mode subscription per configured event type, in list order |
| TrackerClass.StartWiringShape | src/lib/tracker.ts:80-89 | MUTATION level subscribes to 'mousemove' only and observes attributes, child list and subtree; other levels subscribe to each configured type in order and observe nothing |
| TrackerClass.Tracker.Pause | src/lib/tracker.ts:97-114 | outcome and new lifecycle state as PauseStep; one automatic resume is scheduled exactly when the pause succeeds with a non-zero duration |
| TrackerClass.Tracker.Resume | src/lib/tracker.ts:119-130 | outcome and new lifecycle state as ResumeStep |
| TrackerClass.Tracker.Stop | src/lib/tracker.ts:132-147 | outcome and new lifecycle state as StopStep; on success appends exactly StopWiring (disconnect only if an observer exists); configuration and isPaused unchanged |
| TrackerClass.RemoveListenersInOrder | src/lib/tracker.ts:141-143 | one capture-mode unsubscription per configured event type, in list order |
| TrackerClass.ResumeStillDrops | src/lib/tracker.ts:128 | after a successful `resume` both listeners drop every signal |
| TrackerClass.NothingEmittedAfterPause | src/lib/tracker.ts:106-128 | after a successful `pause` and any further calls, neither listener emits |
| Capture.AttributeNames | src/lib/tracker.ts:160 | the target's attribute names, one per attribute, in order |
| Capture.MarkedNames | src/lib/tracker.ts:160 | a name is kept exactly when it is among the inputs and starts with `track-` |
| Capture.GetAttribute | src/lib/tracker.ts:167 | a value is found exactly when the name is among the target's attribute names, and it belongs to an attribute of that name |
| Capture.GetAttributeFirst | src/lib/tracker.ts:167 | the value found is that of the first attribute with the name |
| Capture.SetPropertyAt | src/lib/tracker.ts:155-168 | assigning a string to a key of the plain object sets that key and leaves the others; assigning to `__proto__` hits the inherited setter, which ignores a non-object value |
| Capture.ProtoAttributeNotStored | src/lib/tracker.ts:155-168 | a MARKED target whose only marked attribute is `track-__proto__` still emits, with empty `data` |
| Capture.StripPrefix | src/lib/tracker.ts:157-168 | removing the six-character prefix and prepending it undo each other |
| Capture.CustomDataContents | src/lib/tracker.ts:166-169 | `customData` has a key exactly for each visited name with `track-` removed, other than `__proto__`, mapped to that attribute's value |
| Capture.EventType | src/lib/tracker.ts:173 | 'mutation' for a record batch, the event's own type for a DOM event |
| Capture.Emission | src/lib/tracker.ts:180 | a reaction emits at most one record, and one exactly when it emits |
| Capture.MarkedNamesEmpty | src/lib/tracker.ts:160-164 | the filtered name list is empty exactly when no attribute of the target is marked |
| Capture.EventGate | src/lib/tracker.ts:150-180 | `eventListener` drops exactly when paused or, in MARKED level, the target has no marked attribute; throws exactly on an unpaused mutation batch; otherwise emits exactly one record |
| Capture.EventRecord | src/lib/tracker.ts:155-178 | the record carries the event's type, the event, timestamp and context; `data` has one key per marked attribute name with the prefix removed, other than `__proto__`, mapped to its value, and nothing for unmarked attributes |
| TrackerClass.Tracker.EventListener | src/lib/tracker.ts:149-182 | throws exactly as EventReaction says and appends to the emitted log exactly what it emits |
| Capture.MutationRecordShape | src/lib/tracker.ts:184-201 | `mutationListener` emits one record unless paused, of type 'mutation', carrying the batch with empty data |
| TrackerClass.Tracker.MutationListener | src/lib/tracker.ts:184-201 | appends to the emitted log exactly what MutationReaction emits |

## Left out

- The DOM: `document`, the meaning of `addEventListener`/`removeEventListener`, and `MutationObserver` (src/lib/tracker.ts:72-74, 81-88, 138-143).
  - These calls are recorded in order in `wiring` and are not executed.
  - No claim is made that `stop` undoes `start`. `stop` removes freshly `bind`-created functions, and whether those match the added ones is up to the host.
- The `if (!document)` warning in `start`: it has no effect on state.
- The timer in `pause` (src/lib/tracker.ts:109-113) is not run.
  - Scheduling is recorded as the ghost counter `pendingResumes`.
  - Its later firing has the same effect on state as an ordinary `resume` call, so the lemmas on runs of calls cover it.
  - Those runs treat a thrown error as caught by the caller. A timer-fired `resume` that throws (src/lib/tracker.ts:110-112, 124-125) is caught by no one, and its error reaches the host; that escape is not modelled.
  - Durations are integers. `NaN` and fractional durations are not modelled.
- `configuration.events` aliases the array the caller passed to `init` (src/lib/tracker.ts:30), and `start` and `stop` read it when they run. The model keeps a copy of the list taken at construction, so later changes the caller makes to that array are not modelled.
- `UAParser`, `url-parse` and `Date.now()` are foreign libraries and the wall clock. `ua`, `url` and `timestamp` are opaque parameters of the listeners.
- `EventEmitter` and `emit` dispatch to subscribers: emission is appending to the `emitted` log.
- `async`/`Promise` on the listeners: a rejected promise is modelled as `ok == false` from `EventListener`.
- `console.warn` calls: they have no observable effect on state.
- DOM event targets are modelled as elements with a list of attributes.
  - Targets without `getAttributeNames` (window, document) are not modelled.
  - Neither is the DOM's lower-casing of attribute names.
- `INTERCEPTOR_IS_NOT_A_FUNCTION` (src/lib/tracker-error.ts:10) is not used by the tracker.
- `examples/angular/src/app/app.component.ts` is not part of this model: it only calls the API.
