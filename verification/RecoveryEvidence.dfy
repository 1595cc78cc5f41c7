/**
  What a recovery tick decides, read off the trace of callbacks alone: when it finds a device stale,
  recovered, parked or unknown (eebus-bridge/internal/eebus/recovery.go:172-247,
  eebus-bridge/internal/eebus/registry.go:302-351).
 */
module RecoveryEvidence {
  import opened Common
  import R = Registry
  import opened Runs = RegistryRuns
  import opened HE = HealthEvidence
  import CT = CapabilityTrace
  import opened Recovery
  import RR = RecoveryRuns

  // ------------------------------------------------------------------ the evidence, from the trace

  /** The last callback is a success of a known device, at or after an instant. */
  function Succeeding(from: Time): Question {
    es => es != [] && Is(Last(es), R.RecordMonitoringSuccess) && Last(es).now >= from && Known(Init(es))
  }

  /** A success of this lifetime, on this connection or an earlier one. */
  ghost predicate Succeeded(events: seq<Event>, from: Time) {
    Since(Succeeding(from), CT.Removing(), events)
  }

  lemma SucceededAt(events: seq<Event>, from: Time)
    requires HE.Ordered(events) && Succeeded(events, from)
    ensures events != [] && Last(events).now >= from
  {
    var j :| 0 < j <= |events| && Succeeding(from)(events[..j]);
    assert Last(events[..j]) == events[j - 1];
  }

  lemma {:induction false} SuccessIsKept(local: R.Local, events: seq<Event>, from: Time)
    requires HE.Ordered(events) && from > 0
    ensures Succeeded(events, from) <==>
            HE.After(local, events).health.Some? && HE.After(local, events).health.value.lastMonitoringSuccess >= from
    decreases |events|
  {
    hide Since;
    if events == [] {
      NothingSince(Succeeding(from), CT.Removing());
    } else {
      var before := Init(events);
      SuccessIsKept(local, before, from);
      SinceGrows(Succeeding(from), CT.Removing(), events);
      TraceDecides(local, before);
      CT.TraceTells(local, before);
      KnownIsPresent(before);
      if Succeeded(before, from) {
        SucceededAt(before, from);
      }
      var w := Run(World(R.UNKNOWN_DEVICE, local), before);
      match Last(events)
      case On(op, now) =>
        OpKeepsSuccess(w.device, w.local, op, now);
        hide R.Apply;
      case LocalSwitch(k, enabled, now) =>
        SwitchKeepsHealth(w.device, w.local[k := enabled], k, now);
    }
  }

  lemma OpKeepsSuccess(d: R.Device, local: R.Local, op: R.Op, now: Time)
    requires d.removed ==> d == REMOVED
    ensures var after := R.Apply(d, local, op, now);
            after.health.Some? ==>
              after.health.value.lastMonitoringSuccess ==
              if op == R.RecordMonitoringSuccess then now else R.HealthOf(d).lastMonitoringSuccess
    ensures d.health.Some? ==> (R.Apply(d, local, op, now).health.None? <==> op == R.RemoveDevice)
    ensures d.health.None? && op == R.RecordMonitoringSuccess ==> R.Apply(d, local, op, now).health.None?
  {
    hide R.OnConnect, R.OnDisconnect, R.OnSupport, R.OnAttempt, R.Ensured, R.Entities, R.AnySupports, R.Sources;
  }

  /** The connection begun at the i-th callback is past its grace period, and what it has to show is too old. */
  predicate StaleByTrace(c: Config, events: seq<Event>, i: nat, now: Time)
    requires i < |events|
  {
    && now - events[i].now > c.gracePeriod
    && !(&& Heard(events, i, R.RecordMonitoringSuccess, now - c.staleThreshold)
         && (Advertised(events) ==> Heard(events, i, R.RecordRemoteHeartbeat, now - 120)))
  }

  /**
    A success later than the last attempt, whichever connection it came on, or on this connection when there was
    no attempt; and, if heartbeats were ever advertised, a heartbeat on this connection, later than the attempt.
   */
  ghost predicate Evident(events: seq<Event>, i: nat, attempt: Time) {
    && (if attempt != 0 then Succeeded(events, attempt + 1) else Heard(events, i, R.RecordMonitoringSuccess, 0))
    && (Advertised(events) ==>
          Heard(events, i, R.RecordRemoteHeartbeat, if attempt != 0 then attempt + 1 else 0))
  }

  lemma StaleIsTraced(c: Config, local: R.Local, events: seq<Event>, i: nat, now: Time)
    requires HE.Ordered(events) && Opens(events, i)
    ensures var h := HE.After(local, events).health;
            && h.Some? && h.value.connected && (h.value.trustKnown ==> h.value.trusted)
            && (R.Stale(h.value, c.staleThreshold, c.gracePeriod, now) <==> StaleByTrace(c, events, i, now))
  {
    RecordHears(local, events, i, 0);
    TraceDecides(local, events);
    hide Heard, Advertised, Run, Opens, HE.Ordered, Tombstoned, Up;
    if now - events[i].now > c.gracePeriod {
      VerdictRestsOnEvidence(local, events, i, c.staleThreshold, c.gracePeriod, now);
    }
  }

  lemma EvidenceIsTraced(local: R.Local, events: seq<Event>, i: nat, attempt: Time)
    requires HE.Ordered(events) && Opens(events, i)
    ensures var h := HE.After(local, events).health;
            && h.Some?
            && (Evident(events, i, attempt) <==>
                if attempt != 0 then R.SuccessSince(h.value, attempt) else ListingOf(h.value).successOnConnect)
  {
    RecordHears(local, events, i, 0);
    RecordHears(local, events, i, attempt + 1);
    SuccessIsKept(local, events, attempt + 1);
    TraceDecides(local, events);
    hide Heard, Advertised, Run, Opens, HE.Ordered, Tombstoned, Up, Succeeded;
  }

  // ------------------------------------------------------------------ one tick, from the trace

  /** What a tick makes of a record when it finds the device healthy. */
  function Cleared(r: Option<Record>, now: Time): Record {
    Record(Healthy, 0, 0, 0, 0, if r.Some? && r.value.state == Healthy then r.value.lastTransitionAt else now)
  }

  lemma TickOf(c: Config, r: Option<Record>, h: R.Health, now: Time)
    requires Usable(c) && (r.Some? ==> RR.Sane(c, r.value))
    requires h.connected && (h.trustKnown ==> h.trusted)
    ensures var sight := Seen(c, Some(h), now);
            var attempt := RR.LastAttempt(r);
            var proven := if attempt != 0 then R.SuccessSince(h, attempt) else ListingOf(h).successOnConnect;
            var after := Ticked(c, r, sight, now);
            && after.Some?
            && (after.value.state == Healthy <==> !sight.stale && proven)
            && (!sight.stale && proven ==> after.value == Cleared(r, now) && !Commands(c, r, sight, now))
  {
    hide BackoffOf, R.Stale, R.SuccessSince;
  }

  /**
    When a tick finds a connected device recovered, from its trace alone: exactly when the connection is not
    stale and there is evidence since the last attempt. It then forgets every attempt and sends no command.
   */
  lemma RecoveryRestsOnTrace(c: Config, r: Option<Record>, local: R.Local, events: seq<Event>, i: nat, now: Time)
    requires Usable(c) && (r.Some? ==> RR.Sane(c, r.value))
    requires HE.Ordered(events) && Opens(events, i)
    ensures var sight := Seen(c, HE.After(local, events).health, now);
            var after := Ticked(c, r, sight, now);
            var recovers := !StaleByTrace(c, events, i, now) && Evident(events, i, RR.LastAttempt(r));
            && after.Some?
            && (after.value.state == Healthy <==> recovers)
            && (recovers ==> after.value == Cleared(r, now) && !Commands(c, r, sight, now))
  {
    hide Evident, StaleByTrace, Ticked, Commands, Run, Opens, HE.Ordered, R.Stale, R.SuccessSince, ListingOf;
    StaleIsTraced(c, local, events, i, now);
    EvidenceIsTraced(local, events, i, RR.LastAttempt(r));
    TickOf(c, r, HE.After(local, events).health.value, now);
  }

  /** A known device without a connection is parked with its attempts, as untrusted if its trust was withdrawn. */
  lemma AwayIsParked(c: Config, r: Option<Record>, local: R.Local, events: seq<Event>, now: Time)
    requires Known(events) && !Up(events)
    ensures var sight := Seen(c, HE.After(local, events).health, now);
            var was, after := Created(r, now), Ticked(c, r, sight, now);
            var state := if Since(CT.Granting(), CT.Revoking(), events) then Disconnected else Untrusted;
            && after == Some(was.(state := state,
                             lastTransitionAt := if was.state == state then was.lastTransitionAt else now))
            && !Commands(c, r, sight, now)
  {
    CT.TrustRestsOnTrace(local, events);
    TraceDecides(local, events);
    hide Since, Known, Up, Run, Tombstoned, Advertised;
  }

  /** A device that is not known is left alone. */
  lemma UnknownIsLeft(c: Config, r: Option<Record>, local: R.Local, events: seq<Event>, now: Time)
    requires !Known(events)
    ensures var sight := Seen(c, HE.After(local, events).health, now);
            Ticked(c, r, sight, now) == r && !Commands(c, r, sight, now)
  {
    CT.TraceTells(local, events);
  }

  // ------------------------------------------------------------------ a device that gives evidence

  /**
    A tick that sees a device as its trace stood at some point: connected, not stale, and heard on its current
    connection since an instant, with a heartbeat if these were ever advertised.
   */
  ghost predicate Convinces(c: Config, local: R.Local, events: seq<Event>, turn: RR.Turn, since: Time) {
    exists n, i | 0 <= i < n <= |events| :: ConvincesAt(c, local, events[..n], i, turn, since)
  }

  predicate ConvincesAt(c: Config, local: R.Local, seen: seq<Event>, i: nat, turn: RR.Turn, since: Time) {
    && Opens(seen, i)
    && turn.sight == Seen(c, HE.After(local, seen).health, turn.now)
    && !StaleByTrace(c, seen, i, turn.now)
    && Heard(seen, i, R.RecordMonitoringSuccess, since + 1)
    && (Advertised(seen) ==> Heard(seen, i, R.RecordRemoteHeartbeat, since + 1))
  }

  /** What is heard on a connection is evidence, whether an attempt or nothing came before it. */
  lemma HeardIsEvident(local: R.Local, events: seq<Event>, i: nat, since: Time, attempt: Time)
    requires HE.Ordered(events) && Opens(events, i) && attempt <= since
    requires Heard(events, i, R.RecordMonitoringSuccess, since + 1)
    requires Advertised(events) ==> Heard(events, i, R.RecordRemoteHeartbeat, since + 1)
    ensures Evident(events, i, attempt)
  {
    hide Advertised, Run, Opens, HE.Ordered, Succeeded;
    HeardEarlier(events, i, R.RecordMonitoringSuccess, since + 1, 0);
    HeardEarlier(events, i, R.RecordMonitoringSuccess, since + 1, attempt + 1);
    if Advertised(events) {
      HeardEarlier(events, i, R.RecordRemoteHeartbeat, since + 1, if attempt != 0 then attempt + 1 else 0);
    }
    RecordHears(local, events, i, attempt + 1);
    SuccessIsKept(local, events, attempt + 1);
    hide Heard;
  }

  lemma HeardEarlier(events: seq<Event>, i: nat, op: R.Op, late: int, early: int)
    requires Heard(events, i, op, late) && early <= late
    ensures Heard(events, i, op, early)
  {
  }

  function CommandsIn(c: Config, r: Option<Record>, turns: seq<RR.Turn>): nat
    decreases |turns|
  {
    if turns == [] then 0
    else
      var before, last := turns[..|turns| - 1], turns[|turns| - 1];
      CommandsIn(c, r, before) + if Commands(c, RR.After(c, r, before), last.sight, last.now) then 1 else 0
  }

  /**
    A device that keeps giving evidence is healthy from the first tick that sees it, and costs no further
    command: each tick finds it connected, not stale, and heard since the attempt it started with.
   */
  lemma {:induction false} EvidentDeviceIsKept(c: Config, r: Option<Record>, local: R.Local, events: seq<Event>,
                                               turns: seq<RR.Turn>)
    requires Usable(c) && HE.Ordered(events) && (r.Some? ==> RR.Sane(c, r.value))
    requires forall t | t in turns :: Convinces(c, local, events, t, RR.LastAttempt(r))
    ensures CommandsIn(c, r, turns) == 0
    ensures var after := RR.After(c, r, turns);
            if turns == [] then after == r
            else after.Some? && after.value.state == Healthy && after.value.attempts == 0
                 && after.value.lastAttemptAt == 0 && RR.Sane(c, after.value)
    decreases |turns|
  {
    hide Convinces, HE.Ordered, Ticked, Commands;
    if turns != [] {
      var before, last := turns[..|turns| - 1], turns[|turns| - 1];
      assert last in turns && forall t | t in before :: t in turns;
      EvidentDeviceIsKept(c, r, local, events, before);
      ConvincedTick(c, RR.After(c, r, before), local, events, last, RR.LastAttempt(r));
    }
  }

  lemma ConvincedTick(c: Config, r: Option<Record>, local: R.Local, events: seq<Event>, turn: RR.Turn, since: Time)
    requires Usable(c) && HE.Ordered(events) && (r.Some? ==> RR.Sane(c, r.value))
    requires Convinces(c, local, events, turn, since) && RR.LastAttempt(r) <= since
    ensures Ticked(c, r, turn.sight, turn.now) == Some(Cleared(r, turn.now))
    ensures !Commands(c, r, turn.sight, turn.now)
  {
    hide Heard, Advertised, Opens, StaleByTrace, Evident, Ticked, Commands, Run;
    var n, i :| 0 <= i < n <= |events| && ConvincesAt(c, local, events[..n], i, turn, since);
    RR.OrderedPrefix(events, n);
    HeardIsEvident(local, events[..n], i, since, RR.LastAttempt(r));
    RecoveryRestsOnTrace(c, r, local, events[..n], i, turn.now);
  }
}
