/**
 * The tracker's lifecycle as written: the fields `status` and `isPaused`, and the
 * guard and effect of `start`, `pause`, `resume` and `stop` on them.
 */
module Lifecycle {
  import opened Wrappers
  import opened TrackerErrors

  datatype Status = READY | RUNNING | PAUSED | STOPPED

  /** The statuses in which `start` throws. */
  const StartedStatuses: seq<Status> := [RUNNING, PAUSED]

  /** The statuses in which `pause`, `resume` and `stop` throw. */
  const StoppedStatuses: seq<Status> := [READY, STOPPED]

  /** The part of a tracker the lifecycle operations read and write. */
  datatype State = State(status: Status, isPaused: bool)

  /** The state of a freshly constructed tracker. */
  const Initial: State := State(READY, false)

  /** `start`: throws when started; otherwise it assigns neither `status` nor `isPaused`. */
  function StartStep(s: State): (r: Result<State, TrackerError>)
    ensures r.Failure? <==> s.status == RUNNING || s.status == PAUSED
    ensures r.Failure? ==> r.error == CannotTrackStarted
    ensures r.Success? ==> r.value == s && (r.value.status == READY || r.value.status == STOPPED)
  {
    if s.status in StartedStatuses then Failure(CannotTrackStarted)
    else
      assert s.status != RUNNING && s.status != PAUSED;
      Success(s)
  }

  /** `pause`: throws when not started, whether or not already paused; otherwise pauses. */
  function PauseStep(s: State): (r: Result<State, TrackerError>)
    ensures r.Failure? <==> s.status == READY || s.status == STOPPED
    ensures r.Failure? ==> r.error == CannotPauseUnstarted
    ensures r.Success? ==> r.value.status == PAUSED && r.value.isPaused
  {
    if s.status in StoppedStatuses then Failure(CannotPauseUnstarted) else Success(State(PAUSED, true))
  }

  /** `resume`: throws when not started; otherwise status RUNNING, but the paused flag is left set. */
  function ResumeStep(s: State): (r: Result<State, TrackerError>)
    ensures r.Failure? <==> s.status == READY || s.status == STOPPED
    ensures r.Failure? ==> r.error == CannotResumeUnstarted
    ensures r.Success? ==> r.value.status == RUNNING && r.value.isPaused
  {
    if s.status in StoppedStatuses then Failure(CannotResumeUnstarted) else Success(State(RUNNING, true))
  }

  /** `stop`: throws when not started; otherwise status STOPPED and the paused flag untouched. */
  function StopStep(s: State): (r: Result<State, TrackerError>)
    ensures r.Failure? <==> s.status == READY || s.status == STOPPED
    ensures r.Failure? ==> r.error == CannotStopUnstarted
    ensures r.Success? ==> r.value.status == STOPPED && r.value.isPaused == s.isPaused
  {
    if s.status in StoppedStatuses then Failure(CannotStopUnstarted) else Success(State(STOPPED, s.isPaused))
  }

  /** The state after a call: a thrown error leaves the state as it was. */
  function Next(s: State, r: Result<State, TrackerError>): State
  {
    match r
    case Success(t) => t
    case Failure(_) => s
  }

  /** What the caller of an operation observes: normal return or the error thrown. */
  function OutcomeOf(r: Result<State, TrackerError>): Outcome<TrackerError>
  {
    match r
    case Success(_) => Pass
    case Failure(e) => Fail(e)
  }

  /** A lifecycle call; the pause duration does not affect the state. */
  datatype Call = Start | Pause | Resume | Stop

  function Step(s: State, c: Call): Result<State, TrackerError>
  {
    match c
    case Start => StartStep(s)
    case Pause => PauseStep(s)
    case Resume => ResumeStep(s)
    case Stop => StopStep(s)
  }

  /** The state after a sequence of calls, each thrown error caught by the caller. */
  function Run(s: State, calls: seq<Call>): State
    decreases |calls|
  {
    if calls == [] then s else Run(Next(s, Step(s, calls[0])), calls[1..])
  }

  /** Every call leaves the initial state as it is: `start` succeeds without assigning, the rest throw. */
  lemma InitialIsFixpoint(c: Call)
    ensures Next(Initial, Step(Initial, c)) == Initial
  {
  }

  /** No sequence of calls leaves the initial state: RUNNING, PAUSED and STOPPED are unreachable. */
  lemma {:induction false} InitialIsStuck(calls: seq<Call>)
    ensures Run(Initial, calls) == Initial
    decreases |calls|
  {
    if calls != [] {
      InitialIsFixpoint(calls[0]);
      InitialIsStuck(calls[1..]);
    }
  }

  /**
   * Whatever a fresh tracker has been asked to do, it is still ready and unpaused,
   * `start` does not throw (not even a second time) and `pause`, `resume` and `stop` throw.
   */
  lemma {:induction false} AfterAnyCalls(calls: seq<Call>)
    ensures Run(Initial, calls).status == READY && !Run(Initial, calls).isPaused
    ensures StartStep(Run(Initial, calls)) == Success(Initial)
    ensures PauseStep(Run(Initial, calls)) == Failure(CannotPauseUnstarted)
    ensures ResumeStep(Run(Initial, calls)) == Failure(CannotResumeUnstarted)
    ensures StopStep(Run(Initial, calls)) == Failure(CannotStopUnstarted)
  {
    InitialIsStuck(calls);
  }

  /** No call moves the status off STOPPED, though `start` still succeeds there; nor does any call change the paused flag. */
  lemma {:induction false} StoppedStatusIsAbsorbing(s: State, calls: seq<Call>)
    requires s.status == STOPPED
    ensures Run(s, calls) == s
    decreases |calls|
  {
    if calls != [] {
      StoppedStatusIsAbsorbing(Next(s, Step(s, calls[0])), calls[1..]);
    }
  }

  /** Once the paused flag is set, no sequence of calls clears it: `resume` sets it too. */
  lemma {:induction false} PausedFlagIsSticky(s: State, calls: seq<Call>)
    requires s.isPaused
    ensures Run(s, calls).isPaused
    decreases |calls|
  {
    if calls != [] {
      PausedFlagIsSticky(Next(s, Step(s, calls[0])), calls[1..]);
    }
  }

  /** From a started tracker, `stop` succeeds and afterwards `pause`, `resume` and `stop` throw. */
  lemma StopThenNothingElse(s: State)
    requires s.status == RUNNING || s.status == PAUSED
    ensures StopStep(s).Success?
    ensures PauseStep(StopStep(s).value).Failure?
    ensures ResumeStep(StopStep(s).value).Failure?
    ensures StopStep(StopStep(s).value).Failure?
  {
  }
}
