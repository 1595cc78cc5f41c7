/**
  What a health verdict rests on: a reference definition that reads the trace of callbacks alone, and
  the proof that the registry's running record agrees with it
  (eebus-bridge/internal/eebus/registry.go:156-351, eebus-bridge/internal/eebus/capabilities.go:184-195).
 */
module HealthEvidence {
  import opened State
  import opened Registry
  import opened RegistryRuns

  function After(local: Local, events: seq<Event>): Device {
    Run(World(UNKNOWN_DEVICE, local), events).device
  }

  /** The clock never goes back and never reads zero. */
  predicate Ordered(events: seq<Event>) {
    && (forall i | 0 <= i < |events| :: 0 < events[i].now)
    && (forall i, j | 0 <= i < j < |events| :: events[i].now <= events[j].now)
  }

  /** Removed and not trusted since. */
  predicate Tombstoned(events: seq<Event>)
    decreases |events|
  {
    events != [] &&
    if Is(Last(events), RemoveDevice) then true
    else !Is(Last(events), MarkTrusted) && Tombstoned(Init(events))
  }

  /** Heartbeat support was advertised in this lifetime, that is since the last removal. */
  predicate Advertised(events: seq<Event>)
    decreases |events|
  {
    events != [] &&
    if Is(Last(events), RemoveDevice) then false
    else (Is(Last(events), RecordSupport(Heartbeat, true)) && !Tombstoned(Init(events))) || Advertised(Init(events))
  }

  predicate Drops(e: Event) {
    Is(e, MarkDisconnected) || Is(e, MarkUntrusted) || Is(e, RemoveDevice)
  }

  /** Up after these callbacks. */
  predicate Up(events: seq<Event>)
    decreases |events|
  {
    events != [] &&
    if Is(Last(events), MarkConnected) then !Tombstoned(Init(events))
    else !Drops(Last(events)) && Up(Init(events))
  }

  /** The current connection began at the i-th callback. */
  predicate Opens(events: seq<Event>, i: nat) {
    && i < |events|
    && Is(events[i], MarkConnected)
    && !Tombstoned(events[..i]) && !Up(events[..i])
    && forall j | i < j < |events| :: !Drops(events[j])
  }

  /** A callback of one kind, since an instant, on the connection begun at the i-th. */
  predicate Heard(events: seq<Event>, i: nat, op: Op, since: int) {
    exists j | i < j < |events| :: Is(events[j], op) && events[j].now >= since
  }

  // ------------------------------------------------------------------ since

  type Question = seq<Event> -> bool

  /** Something happened, and nothing has undone it since. Both are asked of the trace up to each callback. */
  ghost predicate Since(happened: Question, undone: Question, events: seq<Event>) {
    exists j | 0 < j <= |events| ::
      happened(events[..j]) && forall i | j < i <= |events| :: !undone(events[..i])
  }

  lemma SinceGrows(happened: Question, undone: Question, events: seq<Event>)
    requires events != []
    ensures Since(happened, undone, events) <==>
            happened(events) || (!undone(events) && Since(happened, undone, Init(events)))
  {
    var n := |events|;
    assert events[..n] == events;
    assert forall j | 0 <= j < n :: Init(events)[..j] == events[..j];
    assert Init(events)[..n - 1] == Init(events) == events[..n - 1];
    if Since(happened, undone, events) {
      var j :| 0 < j <= n && happened(events[..j]) && forall i | j < i <= n :: !undone(events[..i]);
      if j < n {
        assert happened(Init(events)[..j]);
        assert forall i | j < i <= n - 1 :: !undone(Init(events)[..i]);
      }
    }
    if happened(events) {
      assert happened(events[..n]);
    }
    if !undone(events) && Since(happened, undone, Init(events)) {
      var before := Init(events);
      var j :| 0 < j <= n - 1 && happened(before[..j]) && forall i | j < i <= n - 1 :: !undone(before[..i]);
      assert happened(events[..j]);
      forall i | j < i <= n ensures !undone(events[..i]) {
        if i < n {
          assert !undone(before[..i]);
        }
      }
    }
  }

  lemma NothingSince(happened: Question, undone: Question)
    ensures !Since(happened, undone, [])
  {
  }

  /** In the registry's books: connected, trusted or distrusted in this lifetime. */
  predicate Known(events: seq<Event>)
    decreases |events|
  {
    events != [] &&
    if Is(Last(events), RemoveDevice) then false
    else if Is(Last(events), MarkTrusted) then true
    else Known(Init(events))
         || ((Is(Last(events), MarkConnected) || Is(Last(events), MarkUntrusted)) && !Tombstoned(Init(events)))
  }

  lemma {:induction false} KnownIsPresent(events: seq<Event>)
    ensures Known(events) ==> !Tombstoned(events)
    ensures Tombstoned(events) ==> !Up(events)
    ensures Up(events) ==> Known(events)
    decreases |events|
  {
    if events != [] {
      KnownIsPresent(Init(events));
    }
  }

  // ------------------------------------------------------------------ the record follows the trace

  /** The record's own view of what the trace says. */
  predicate Reads(d: Device, tombstoned: bool, advertised: bool, up: bool) {
    && d.removed == tombstoned
    && d.heartbeatLatch == advertised
    && (d.health.Some? && d.health.value.connected) == up
    && (d.removed ==> d == REMOVED)
    && (up ==> d.health.value.heartbeatRequired == d.heartbeatLatch && d.health.value.trusted)
  }

  lemma OpReads(d: Device, local: Local, op: Op, now: Time, tombstoned: bool, advertised: bool, up: bool)
    requires Reads(d, tombstoned, advertised, up)
    ensures Reads(Apply(d, local, op, now),
                  op == RemoveDevice || (op != MarkTrusted && tombstoned),
                  op != RemoveDevice && ((op == RecordSupport(Heartbeat, true) && !tombstoned) || advertised),
                  if op == MarkConnected then !tombstoned
                  else op != MarkDisconnected && op != MarkUntrusted && op != RemoveDevice && up)
  {
    hide OnConnect, OnDisconnect, OnSupport, OnAttempt, Ensured, Set, AnySupports, Sources, Entities;
  }

  /** The registry's record says of a device exactly what its trace says. */
  lemma {:induction false} TraceDecides(local: Local, events: seq<Event>)
    ensures Reads(After(local, events), Tombstoned(events), Advertised(events), Up(events))
    decreases |events|
  {
    if events != [] {
      TraceDecides(local, Init(events));
      var w := Run(World(UNKNOWN_DEVICE, local), Init(events));
      match Last(events)
      case On(op, now) =>
        OpReads(w.device, w.local, op, now, Tombstoned(Init(events)), Advertised(Init(events)), Up(Init(events)));
        hide Apply, Reads;
      case LocalSwitch(k, enabled, now) =>
        SwitchKeepsHealth(w.device, w.local[k := enabled], k, now);
    }
  }

  lemma SwitchKeepsHealth(d: Device, local: Local, k: CapabilityKey, now: Time)
    ensures var d' := Switched(d, local, k, now);
            d'.removed == d.removed && d'.health == d.health && d'.heartbeatLatch == d.heartbeatLatch
            && (d.removed && d == REMOVED ==> d' == d)
  {}

  // ------------------------------------------------------------------ the current connection

  /** A connected device was connected at a moment that its trace shows, and has not been lost since. */
  lemma {:induction false} ConnectedSince(events: seq<Event>) returns (i: nat)
    requires Up(events)
    ensures Opens(events, i)
    decreases |events|
  {
    var before := Init(events);
    if Up(before) {
      i := ConnectedSince(before);
      assert before[..i] == events[..i];
    } else {
      i := |before|;
      assert events[..i] == before;
    }
  }

  /** What one callback after the connection does to the record it left. */
  lemma OpAfterConnect(d: Device, local: Local, op: Op, now: Time)
    requires !d.removed && d.health.Some? && d.health.value.connected
    requires op != MarkDisconnected && op != MarkUntrusted && op != RemoveDevice
    ensures var d' := Apply(d, local, op, now);
            && !d'.removed && d'.health.Some?
            && d'.health.value.connected && d'.health.value.connectedAt == d.health.value.connectedAt
            && d'.health.value.monitoringSuccessOnConnect
               == (d.health.value.monitoringSuccessOnConnect || op == RecordMonitoringSuccess)
            && d'.health.value.lastMonitoringSuccess
               == (if op == RecordMonitoringSuccess then now else d.health.value.lastMonitoringSuccess)
            && d'.health.value.lastRemoteHeartbeat
               == (if op == RecordRemoteHeartbeat then now else d.health.value.lastRemoteHeartbeat)
  {
    hide OnConnect, OnDisconnect, OnSupport, OnAttempt, Ensured, Set, AnySupports, Sources, Entities;
  }

  lemma HeardGrows(events: seq<Event>, i: nat, op: Op, since: int)
    requires i < |events| - 1
    ensures Heard(events, i, op, since) <==>
            Heard(Init(events), i, op, since) || (Is(Last(events), op) && Last(events).now >= since)
  {
    if Heard(events, i, op, since) {
      var j :| i < j < |events| && Is(events[j], op) && events[j].now >= since;
      if j < |events| - 1 {
        assert Init(events)[j] == events[j];
      }
    }
    if Heard(Init(events), i, op, since) {
      var j :| i < j < |events| - 1 && Is(Init(events)[j], op) && Init(events)[j].now >= since;
      assert events[j] == Init(events)[j];
    }
  }

  /** What the record holds after a connection is what was heard since, read through one instant. */
  predicate Hears(h: Health, events: seq<Event>, i: nat, since: int) {
    && ((h.monitoringSuccessOnConnect && h.lastMonitoringSuccess >= since)
        <==> Heard(events, i, RecordMonitoringSuccess, since))
    && ((h.lastRemoteHeartbeat != 0 && h.lastRemoteHeartbeat >= since)
        <==> Heard(events, i, RecordRemoteHeartbeat, since))
  }

  /** The record's two instants answer every question about what was heard on this connection. */
  lemma {:induction false} RecordHears(local: Local, events: seq<Event>, i: nat, since: int)
    requires Ordered(events) && Opens(events, i)
    ensures var d := After(local, events);
            && !d.removed && d.health.Some? && d.health.value.connected && d.health.value.connectedAt == events[i].now
            && Hears(d.health.value, events, i, since)
    decreases |events|
  {
    var before, last := Init(events), Last(events);
    if i == |before| {
      FreshConnectionHears(local, events, since);
    } else {
      assert events[..i] == before[..i];
      RecordHears(local, before, i, since);
      hide Opens, Tombstoned, Up;
      LaterCallbackHears(local, events, i, since);
    }
  }

  lemma FreshConnectionHears(local: Local, events: seq<Event>, since: int)
    requires events != [] && Opens(events, |events| - 1)
    ensures var d := After(local, events);
            && !d.removed && d.health.Some? && d.health.value.connected && d.health.value.connectedAt
                                                                           == Last(events).now
            && Hears(d.health.value, events, |events| - 1, since)
  {
    hide OnConnect, Ensured;
    assert events[..|events| - 1] == Init(events);
    TraceDecides(local, Init(events));
  }

  lemma LaterCallbackHears(local: Local, events: seq<Event>, i: nat, since: int)
    requires i < |events| - 1 && Ordered(events) && !Drops(Last(events))
    requires var d := After(local, Init(events));
             && !d.removed && d.health.Some? && d.health.value.connected && d.health.value.connectedAt == events[i].now
             && Hears(d.health.value, Init(events), i, since)
    ensures var d := After(local, events);
            && !d.removed && d.health.Some? && d.health.value.connected && d.health.value.connectedAt == events[i].now
            && Hears(d.health.value, events, i, since)
  {
    var before, last := Init(events), Last(events);
    var w := Run(World(UNKNOWN_DEVICE, local), before);
    HeardGrows(events, i, RecordMonitoringSuccess, since);
    HeardGrows(events, i, RecordRemoteHeartbeat, since);
    hide Apply, Heard;
    match last
    case On(op, now) =>
      OpAfterConnect(w.device, w.local, op, now);
      LaterHeard(before, i, RecordMonitoringSuccess, since, now);
      LaterHeard(before, i, RecordRemoteHeartbeat, since, now);
    case LocalSwitch(k, enabled, now) =>
      SwitchKeepsHealth(w.device, w.local[k := enabled], k, now);
  }

  lemma LaterHeard(events: seq<Event>, i: nat, op: Op, since: int, now: Time)
    requires forall j | 0 <= j < |events| :: events[j].now <= now
    ensures Heard(events, i, op, since) ==> now >= since
  {}

  /**
    A connection past its grace period is found stale exactly when the trace lacks the evidence: a
    monitoring success since it began, within the threshold, and, if heartbeats were ever advertised in
    this lifetime, a heartbeat received since it began, within the tolerance.
   */
  lemma VerdictRestsOnEvidence(local: Local, events: seq<Event>, i: nat, threshold: Time, gracePeriod: Time, now: Time)
    requires Ordered(events) && Opens(events, i) && now - events[i].now > gracePeriod
    ensures var d := After(local, events);
            && d.health.Some?
            && (Stale(d.health.value, threshold, gracePeriod, now) <==>
                !(&& Heard(events, i, RecordMonitoringSuccess, now - threshold)
                  && (Advertised(events) ==> Heard(events, i, RecordRemoteHeartbeat, now - HEARTBEAT_TOLERANCE))))
  {
    hide Heard, Advertised, Run, Opens;
    RecordHears(local, events, i, now - threshold);
    RecordHears(local, events, i, now - HEARTBEAT_TOLERANCE);
    TraceDecides(local, events);
  }

  /** A device is listed stale only while its trace shows a connection older than the grace period. */
  lemma StaleIsConnected(local: Local, events: seq<Event>, threshold: Time, gracePeriod: Time,
                         now: Time) returns (i: nat)
    requires Ordered(events)
    requires After(local, events).health.Some? && Stale(After(local, events).health.value, threshold, gracePeriod, now)
    ensures Opens(events, i) && now - events[i].now > gracePeriod
  {
    TraceDecides(local, events);
    i := ConnectedSince(events);
    RecordHears(local, events, i, 0);
  }

  /** The evidence that ends a recovery is later than the attempt it answers, and of this lifetime. */
  lemma {:induction false} SuccessIsRecorded(local: Local, events: seq<Event>) returns (j: nat)
    requires After(local, events).health.Some? && After(local, events).health.value.lastMonitoringSuccess != 0
    ensures j < |events| && events[j] == On(RecordMonitoringSuccess,
                                            After(local, events).health.value.lastMonitoringSuccess)
    ensures forall k | j < k < |events| :: !Is(events[k], RemoveDevice)
    decreases |events|
  {
    var w := Run(World(UNKNOWN_DEVICE, local), Init(events));
    match Last(events)
    case On(op, now) =>
      OpSuccess(w.device, w.local, op, now);
      if op == RecordMonitoringSuccess && After(local, events).health.value.lastMonitoringSuccess == now {
        j := |events| - 1;
        return;
      }
      hide Apply;
      j := SuccessIsRecorded(local, Init(events));
    case LocalSwitch(k, enabled, now) =>
      SwitchKeepsHealth(w.device, w.local[k := enabled], k, now);
      j := SuccessIsRecorded(local, Init(events));
  }

  lemma OpSuccess(d: Device, local: Local, op: Op, now: Time)
    ensures var d' := Apply(d, local, op, now);
            d'.health.Some? && d'.health.value.lastMonitoringSuccess != 0 ==>
              || (op == RecordMonitoringSuccess && d'.health.value.lastMonitoringSuccess == now)
              || (op != RemoveDevice && d.health.Some? && d.health.value.lastMonitoringSuccess
                                                          == d'.health.value.lastMonitoringSuccess)
  {
    hide OnConnect, OnDisconnect, OnSupport, OnAttempt, Ensured, Set, AnySupports, Sources, Entities;
  }

  /** A recorded heartbeat time belongs to a heartbeat callback of this lifetime. */
  lemma {:induction false} HeartbeatIsRecorded(local: Local, events: seq<Event>) returns (j: nat)
    requires After(local, events).health.Some? && After(local, events).health.value.lastRemoteHeartbeat != 0
    ensures j < |events| && events[j] == On(RecordRemoteHeartbeat,
                                            After(local, events).health.value.lastRemoteHeartbeat)
    ensures forall k | j < k < |events| :: !Is(events[k], RemoveDevice)
    decreases |events|
  {
    var w := Run(World(UNKNOWN_DEVICE, local), Init(events));
    match Last(events)
    case On(op, now) =>
      OpHeartbeat(w.device, w.local, op, now);
      if op == RecordRemoteHeartbeat && After(local, events).health.value.lastRemoteHeartbeat == now {
        j := |events| - 1;
        return;
      }
      hide Apply;
      j := HeartbeatIsRecorded(local, Init(events));
    case LocalSwitch(k, enabled, now) =>
      SwitchKeepsHealth(w.device, w.local[k := enabled], k, now);
      j := HeartbeatIsRecorded(local, Init(events));
  }

  lemma OpHeartbeat(d: Device, local: Local, op: Op, now: Time)
    ensures var d' := Apply(d, local, op, now);
            d'.health.Some? && d'.health.value.lastRemoteHeartbeat != 0 ==>
              || (op == RecordRemoteHeartbeat && d'.health.value.lastRemoteHeartbeat == now)
              || (op != RemoveDevice && d.health.Some? && d.health.value.lastRemoteHeartbeat
                                                          == d'.health.value.lastRemoteHeartbeat)
  {
    hide OnConnect, OnDisconnect, OnSupport, OnAttempt, Ensured, Set, AnySupports, Sources, Entities;
  }
}
