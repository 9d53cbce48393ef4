/**
 * The `Tracker` class: its lifecycle fields, the listener wiring it asks of the
 * document, and the records it emits under 'track'.
 */
module TrackerClass {
  import opened Wrappers
  import opened TrackerErrors
  import opened TrackerConfiguration
  import opened TrackerEvents
  import opened Lifecycle
  import opened Capture

  /** A call the tracker makes on the document or on its mutation observer. */
  datatype Wiring =
    | AddListener(eventType: string, capture: bool)
    | RemoveListener(eventType: string, capture: bool)
    | Observe(attributes: bool, childList: bool, subtree: bool)
    | Disconnect

  /** `addEventListener(type, ..., { capture: true })` for each type, in list order. */
  function AddListeners(events: seq<string>): seq<Wiring>
    decreases |events|
  {
    if events == [] then []
    else AddListeners(events[..|events| - 1]) + [AddListener(events[|events| - 1], true)]
  }

  /** `removeEventListener(type, ..., { capture: true })` for each type, in list order. */
  function RemoveListeners(events: seq<string>): seq<Wiring>
    decreases |events|
  {
    if events == [] then []
    else RemoveListeners(events[..|events| - 1]) + [RemoveListener(events[|events| - 1], true)]
  }

  /** One capture-mode subscription per listed event type, in list order. */
  lemma {:induction false} AddListenersInOrder(events: seq<string>)
    ensures |AddListeners(events)| == |events|
    ensures forall i :: 0 <= i < |events| ==> AddListeners(events)[i] == AddListener(events[i], true)
    decreases |events|
  {
    if events != [] {
      AddListenersInOrder(events[..|events| - 1]);
    }
  }

  /** One capture-mode unsubscription per listed event type, in list order. */
  lemma {:induction false} RemoveListenersInOrder(events: seq<string>)
    ensures |RemoveListeners(events)| == |events|
    ensures forall i :: 0 <= i < |events| ==> RemoveListeners(events)[i] == RemoveListener(events[i], true)
    decreases |events|
  {
    if events != [] {
      RemoveListenersInOrder(events[..|events| - 1]);
    }
  }

  /** The calls a successful `start` makes. */
  function StartWiring(c: Configuration): seq<Wiring>
  {
    if c.level == MUTATION then [AddListener("mousemove", true), Observe(true, true, true)]
    else AddListeners(c.events)
  }

  /** The calls a successful `stop` makes; the observer is disconnected only if one was created. */
  function StopWiring(c: Configuration, hasObserver: bool): seq<Wiring>
  {
    if c.level == MUTATION then [RemoveListener("mousemove", true)] + (if hasObserver then [Disconnect] else [])
    else RemoveListeners(c.events)
  }

  /**
   * In MUTATION level `start` listens to 'mousemove' only and observes the whole body;
   * otherwise it listens, in capture mode, to each configured type in order and observes nothing.
   */
  lemma StartWiringShape(c: Configuration)
    ensures c.level == MUTATION ==> StartWiring(c) == [AddListener("mousemove", true), Observe(true, true, true)]
    ensures c.level != MUTATION ==>
      && |StartWiring(c)| == |c.events|
      && (forall i :: 0 <= i < |c.events| ==> StartWiring(c)[i] == AddListener(c.events[i], true))
  {
    AddListenersInOrder(c.events);
  }

  /** The value of a pause duration is truthy: absent and 0 schedule no resume. */
  predicate SchedulesResume(duration: Option<int>)
  {
    duration.Some? && duration.value != 0
  }

  class Tracker {
    var configuration: Configuration
    var isPaused: bool
    var status: Status
    /** Whether `mutationObserver` has been assigned. */
    var hasObserver: bool
    /** The calls made on the document and on the mutation observer, oldest first. */
    var wiring: seq<Wiring>
    /** The records emitted under 'track', oldest first. */
    var emitted: seq<TrackerEvent>
    /** The number of automatic resumes `pause` has scheduled. */
    ghost var pendingResumes: nat

    /** `Tracker.init(config)`. */
    constructor Init(options: Options)
      ensures configuration == Resolve(options)
      ensures LifecycleState() == Initial
      ensures !hasObserver && wiring == [] && emitted == [] && pendingResumes == 0
    {
      configuration := Resolve(options);
      isPaused := false;
      status := READY;
      hasObserver := false;
      wiring := [];
      emitted := [];
      pendingResumes := 0;
    }

    function LifecycleState(): State
      reads this
    {
      State(status, isPaused)
    }

    predicate Ready()
      reads this
    {
      status == READY
    }

    predicate Running()
      reads this
    {
      status == RUNNING
    }

    predicate Paused()
      reads this
    {
      status == PAUSED
    }

    predicate Stopped()
      reads this
    {
      status == STOPPED
    }

    /** Start recording: subscribes per the configuration unless already started. */
    method Start() returns (r: Outcome<TrackerError>)
      modifies this`wiring, this`hasObserver
      ensures r == OutcomeOf(StartStep(old(LifecycleState())))
      ensures LifecycleState() == Next(old(LifecycleState()), StartStep(old(LifecycleState())))
      ensures r.Pass? ==> wiring == old(wiring) + StartWiring(configuration)
      ensures r.Pass? ==> hasObserver == (old(hasObserver) || configuration.level == MUTATION)
      ensures r.Fail? ==> wiring == old(wiring) && hasObserver == old(hasObserver)
    {
      if status in StartedStatuses {
        return Fail(CannotTrackStarted);
      }
      if configuration.level == MUTATION {
        wiring := wiring + [AddListener("mousemove", true)];
        hasObserver := true;
        wiring := wiring + [Observe(true, true, true)];
      } else {
        var events := configuration.events;
        var i := 0;
        while i < |events|
          invariant 0 <= i <= |events|
          invariant wiring == old(wiring) + AddListeners(events[..i])
          invariant hasObserver == old(hasObserver)
        {
          assert events[..i + 1][..i] == events[..i];
          wiring := wiring + [AddListener(events[i], true)];
          i := i + 1;
        }
        assert events[..i] == events;
      }
      r := Pass;
    }

    /** Pause tracking; a truthy duration schedules one automatic `resume`. */
    method Pause(duration: Option<int>) returns (r: Outcome<TrackerError>)
      modifies this`status, this`isPaused, this`pendingResumes
      ensures r == OutcomeOf(PauseStep(old(LifecycleState())))
      ensures LifecycleState() == Next(old(LifecycleState()), PauseStep(old(LifecycleState())))
      ensures pendingResumes == old(pendingResumes) + (if r.Pass? && SchedulesResume(duration) then 1 else 0)
    {
      if status in StoppedStatuses {
        return Fail(CannotPauseUnstarted);
      }
      isPaused := true;
      status := PAUSED;
      if SchedulesResume(duration) {
        pendingResumes := pendingResumes + 1;
      }
      r := Pass;
    }

    /** Resume tracking: as written, the paused flag is set rather than cleared. */
    method Resume() returns (r: Outcome<TrackerError>)
      modifies this`status, this`isPaused
      ensures r == OutcomeOf(ResumeStep(old(LifecycleState())))
      ensures LifecycleState() == Next(old(LifecycleState()), ResumeStep(old(LifecycleState())))
    {
      if status in StoppedStatuses {
        return Fail(CannotResumeUnstarted);
      }
      isPaused := true;
      status := RUNNING;
      r := Pass;
    }

    /** Stop recording: unsubscribes per the configuration unless not started. */
    method Stop() returns (r: Outcome<TrackerError>)
      modifies this`status, this`wiring
      ensures r == OutcomeOf(StopStep(old(LifecycleState())))
      ensures LifecycleState() == Next(old(LifecycleState()), StopStep(old(LifecycleState())))
      ensures r.Pass? ==> wiring == old(wiring) + StopWiring(configuration, hasObserver)
      ensures r.Fail? ==> wiring == old(wiring)
    {
      if status in StoppedStatuses {
        return Fail(CannotStopUnstarted);
      }
      if configuration.level == MUTATION {
        wiring := wiring + [RemoveListener("mousemove", true)];
        if hasObserver {
          wiring := wiring + [Disconnect];
        }
      } else {
        var events := configuration.events;
        var i := 0;
        while i < |events|
          invariant 0 <= i <= |events|
          invariant wiring == old(wiring) + RemoveListeners(events[..i])
        {
          assert events[..i + 1][..i] == events[..i];
          wiring := wiring + [RemoveListener(events[i], true)];
          i := i + 1;
        }
        assert events[..i] == events;
      }
      status := STOPPED;
      r := Pass;
    }

    /**
     * The DOM event listener. `ok` is false when the call throws: a mutation batch
     * has no target element whose attributes could be read.
     */
    method EventListener(event: Payload, timestamp: int, url: string, ua: string) returns (ok: bool)
      modifies this`emitted
      ensures ok <==> !EventReaction(configuration.level, isPaused, event, timestamp, url, ua).NoTarget?
      ensures emitted == old(emitted) + Emission(EventReaction(configuration.level, isPaused, event, timestamp, url, ua))
    {
      ok := true;
      if !isPaused {
        match event
        case Mutations(_) =>
          ok := false;
        case DomEvent(_, target) =>
          var attrs := MarkedNames(AttributeNames(target));
          if configuration.level == MARKED && |attrs| == 0 {
            return;
          }
          var customData: map<string, string> := map[];
          var i := 0;
          while i < |attrs|
            invariant 0 <= i <= |attrs|
            invariant NamesOfMarkedAttributes(target, attrs[..i])
            invariant customData == CustomData(target, attrs[..i])
          {
            assert attrs[..i + 1][..i] == attrs[..i];
            var attribute := GetAttribute(target, attrs[i]);
            customData := SetProperty(customData, Strip(attrs[i]), attribute.value);
            i := i + 1;
          }
          assert attrs[..i] == attrs;
          emitted := emitted + [TrackerEvent(timestamp, EventType(event), event, url, ua, customData)];
      }
    }

    /** The mutation observer's callback. */
    method MutationListener(records: seq<MutationRecord>, timestamp: int, url: string, ua: string)
      modifies this`emitted
      ensures emitted == old(emitted) + Emission(MutationReaction(isPaused, records, timestamp, url, ua))
    {
      if !isPaused {
        emitted := emitted + [TrackerEvent(timestamp, "mutation", Mutations(records), url, ua, map[])];
      }
    }
  }

  /** Exactly one of the four status queries holds. */
  lemma QueriesPartition(t: Tracker)
    ensures t.Ready() || t.Running() || t.Paused() || t.Stopped()
    ensures !(t.Ready() && t.Running()) && !(t.Ready() && t.Paused()) && !(t.Ready() && t.Stopped())
    ensures !(t.Running() && t.Paused()) && !(t.Running() && t.Stopped()) && !(t.Paused() && t.Stopped())
  {
  }

  /** A successful `resume` leaves the paused flag set, so both listeners still drop every signal. */
  lemma ResumeStillDrops(s: State, level: TrackingLevel, event: Payload, records: seq<MutationRecord>,
                         timestamp: int, url: string, ua: string)
    requires ResumeStep(s).Success?
    ensures EventReaction(level, ResumeStep(s).value.isPaused, event, timestamp, url, ua) == Dropped
    ensures MutationReaction(ResumeStep(s).value.isPaused, records, timestamp, url, ua) == Dropped
  {
  }

  /**
   * After a successful `pause`, whatever lifecycle calls follow (explicit or timer-driven
   * resumes included), neither listener ever emits again.
   */
  lemma NothingEmittedAfterPause(s: State, calls: seq<Call>, level: TrackingLevel, event: Payload,
                                 records: seq<MutationRecord>, timestamp: int, url: string, ua: string)
    requires PauseStep(s).Success?
    ensures Emission(EventReaction(level, Run(PauseStep(s).value, calls).isPaused, event, timestamp, url, ua)) == []
    ensures Emission(MutationReaction(Run(PauseStep(s).value, calls).isPaused, records, timestamp, url, ua)) == []
  {
    PausedFlagIsSticky(PauseStep(s).value, calls);
  }
}
