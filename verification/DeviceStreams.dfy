/**
  The client end of the consolidated stream: the duplicate filter, gap detection and the coalesced
  refresh task (custom_components/eebus/device_streams.py).
 */
module DeviceStreams {
  import opened Common
  import opened State

  /** What an envelope carries. A delta already is the observation its payload converts to. */
  datatype Payload =
    | InitialSnapshot(snapshot: Observation)
    | Resync
    | CapabilityChange(results: seq<CapabilityResult>)
    | Connection(connected: bool)
    | Acknowledgement
    | NoPayload
    | UnclassifiedMeasurement
    | Delta(reading: Observation, wantsRefresh: bool)

  /** One envelope, with the instant at which the bridge read what it carries. */
  datatype Envelope = Envelope(ski: Ski, revision: nat, payload: Payload, builtAt: nat)

  /**
    The refresh task: absent; created but not yet run; past the point where it clears the pending
    flag, waiting for its poll to begin; or with its poll under way.
   */
  datatype RefreshTask = NoTask | Created | Requested | Polling

  datatype Client = Client(ski: Ski, last: Option<nat>, refreshPending: bool, task: RefreshTask)

  function Signal(c: Client): Client {
    if c.task != NoTask then c.(refreshPending := true)
    else c.(refreshPending := false, task := Created)
  }

  /** A refresh is owed: some poll will begin after now on behalf of the refresh task. */
  predicate Owed(c: Client) {
    c.task == Created || c.task == Requested || (c.task == Polling && c.refreshPending)
  }

  predicate Accepts(c: Client, e: Envelope) {
    e.ski == c.ski && (c.last.Some? ==> e.revision > c.last.value)
  }

  predicate Gap(c: Client, e: Envelope) {
    c.last.Some? && e.revision != c.last.value + 1
  }

  /** Does handling the accepted envelope ask for a refresh? */
  predicate Signals(c: Client, e: Envelope) {
    Gap(c, e) || e.payload.Resync? || e.payload.NoPayload? || e.payload.Connection?
    || e.payload.UnclassifiedMeasurement?
  }

  function Handled(c: Client, e: Envelope): Client {
    if !Accepts(c, e) then c
    else
      var seen := c.(last := Some(e.revision));
      var resynced := if Gap(c, e) || e.payload.Resync? then Signal(seen) else seen;
      match e.payload
      case NoPayload => if Gap(c, e) then resynced else Signal(resynced)
      case Connection(_) => Signal(resynced)
      case UnclassifiedMeasurement => Signal(resynced)
      case _ => resynced
  }

  function ConnectionReading(connected: bool): Observation {
    NOTHING_SEEN.(values := map[Connected := if connected then 1 else 0], observed := {Connected})
  }

  /** The observation an accepted envelope dispatches to the store, if any. */
  function Dispatched(c: Client, e: Envelope): Option<Observation> {
    if !Accepts(c, e) then None
    else
      match e.payload
      case InitialSnapshot(snapshot) => Some(snapshot)
      case CapabilityChange(results) => Some(NOTHING_SEEN.(results := results, explicitContract := Some(true)))
      case Connection(connected) => Some(ConnectionReading(connected))
      case Delta(reading, _) => Some(reading)
      case _ => None
  }

  /**
    When handling an envelope asks for a refresh: never for another device or an old revision; otherwise on a
    revision gap, a resync, a connection event, an unclassified measurement or an envelope without a payload,
    and then exactly once, but for a connection event or an unclassified measurement behind a gap. A refresh
    asked for while a task is there is left for its next pass.
   */
  lemma HandlerAsks(c: Client, e: Envelope)
    ensures var d := Handled(c, e);
            var accepted := e.ski == c.ski && (c.last.Some? ==> e.revision > c.last.value);
            var gap := c.last.Some? && e.revision != c.last.value + 1;
            var again := e.payload.Connection? || e.payload.UnclassifiedMeasurement?;
            var asks := accepted && (gap || again || e.payload.Resync? || e.payload.NoPayload?);
            && d.ski == c.ski
            && d.last == (if accepted then Some(e.revision) else c.last)
            && d.task == (if asks && c.task == NoTask then Created else c.task)
            && d.refreshPending == (if asks then c.task != NoTask || (gap && again) else c.refreshPending)
            && (!accepted ==> Dispatched(c, e) == None)
  {
  }

  /** The first thing a pass of the refresh task does. */
  function PassBegins(c: Client): Client {
    c.(refreshPending := false, task := Requested)
  }

  /** The poll of a pass came back: one more pass if a signal arrived meanwhile. */
  function PassEnds(c: Client): Client {
    if c.refreshPending then PassBegins(c) else c.(task := NoTask)
  }

  class Streams {
    const ski: Ski
    var lastRevision: Option<nat>
    var refreshPending: bool
    var refreshTask: RefreshTask
    var handlingConsolidated: bool

    ghost function State(): Client
      reads this
    {
      Client(ski, lastRevision, refreshPending, refreshTask)
    }

    constructor (ski: Ski)
      ensures State() == Client(ski, None, false, NoTask) && !handlingConsolidated
    {
      this.ski := ski;
      lastRevision, refreshPending, refreshTask, handlingConsolidated := None, false, NoTask, false;
    }

    /** A new stream starts without a last revision. */
    method OpenStream()
      modifies this`lastRevision
      ensures State() == old(State()).(last := None)
    {
      lastRevision := None;
    }

    method Refresh()
      modifies this`refreshPending, this`refreshTask
      ensures State() == if handlingConsolidated then old(State()) else Signal(old(State()))
    {
      if handlingConsolidated {
        return;
      }
      if refreshTask != NoTask {
        refreshPending := true;
        return;
      }
      refreshPending := false;
      refreshTask := Created;
    }

    method HandleDeviceStateEvent(e: Envelope) returns (dispatched: Option<Observation>)
      requires !handlingConsolidated
      modifies this
      ensures !handlingConsolidated
      ensures State() == Handled(old(State()), e)
      ensures dispatched == Dispatched(old(State()), e)
    {
      dispatched := None;
      if e.ski != ski || (lastRevision.Some? && e.revision <= lastRevision.value) {
        return;
      }
      var previous := lastRevision;
      lastRevision := Some(e.revision);
      var revisionGap := previous.Some? && e.revision != previous.value + 1;
      if revisionGap || e.payload.Resync? {
        Refresh();
      }
      match e.payload {
        case Resync =>
        case InitialSnapshot(snapshot) =>
          dispatched := Some(snapshot);
        case CapabilityChange(results) =>
          dispatched := Some(NOTHING_SEEN.(results := results, explicitContract := Some(true)));
        case NoPayload =>
          if !revisionGap {
            Refresh();
          }
        case Connection(connected) =>
          dispatched := Some(ConnectionReading(connected));
          Refresh();
        case Acknowledgement =>
        case UnclassifiedMeasurement =>
          handlingConsolidated := true;
          handlingConsolidated := false;
          Refresh();
        case Delta(reading, wantsRefresh) =>
          handlingConsolidated := true;
          dispatched := Some(reading);
          if wantsRefresh {
            Refresh();
          }
          handlingConsolidated := false;
      }
    }

    /** The refresh task runs up to its first await. */
    method BeginPass()
      requires refreshTask == Created
      modifies this`refreshPending, this`refreshTask
      ensures State() == PassBegins(old(State()))
    {
      refreshPending := false;
      refreshTask := Requested;
    }

    method BeginPoll()
      requires refreshTask == Requested
      modifies this`refreshTask
      ensures State() == old(State()).(task := Polling)
    {
      refreshTask := Polling;
    }

    /** The awaited refresh returned: the loop takes another turn or the refresh ends. */
    method EndPass()
      requires refreshTask == Polling
      modifies this`refreshPending, this`refreshTask
      ensures State() == PassEnds(old(State()))
    {
      if !refreshPending {
        refreshTask := NoTask;
        return;
      }
      refreshPending := false;
      refreshTask := Requested;
    }
  }
}
