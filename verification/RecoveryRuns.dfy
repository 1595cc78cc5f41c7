/**
  Whole runs of the recovery supervisor: what every reachable record satisfies, how many commands a
  device can cost, that a failing device is always given up on, and when a restart is requested
  (eebus-bridge/internal/eebus/recovery.go).
 */
module RecoveryRuns {
  import opened Common
  import R = Registry
  import Runs = RegistryRuns
  import HE = HealthEvidence
  import opened Recovery

  /** One tick over one device. */
  datatype Turn = Turn(sight: Sight, now: Time)

  function After(c: Config, r: Option<Record>, turns: seq<Turn>): Option<Record>
    decreases |turns|
  {
    if turns == [] then r
    else var last := turns[|turns| - 1]; Ticked(c, After(c, r, turns[..|turns| - 1]), last.sight, last.now)
  }

  /** Reconnect commands sent since a tick last left the device healthy. */
  function SentSinceHealthy(c: Config, turns: seq<Turn>): nat
    decreases |turns|
  {
    if turns == [] then 0
    else
      var before, last := turns[..|turns| - 1], turns[|turns| - 1];
      var r := After(c, None, before);
      var r' := Ticked(c, r, last.sight, last.now);
      if r'.Some? && r'.value.state == Healthy then 0
      else SentSinceHealthy(c, before) + if Commands(c, r, last.sight, last.now) then 1 else 0
  }

  predicate Ordered(turns: seq<Turn>) {
    && (forall i | 0 <= i < |turns| :: 0 < turns[i].now)
    && (forall i, j | 0 <= i < j < |turns| :: turns[i].now <= turns[j].now)
  }

  // ------------------------------------------------------------------ every reachable record

  /** What holds of a record between ticks, whatever the device went through. */
  predicate Sane(c: Config, r: Record) {
    && r.state != Recovering
    && r.attempts <= c.maxAttempts
    && (r.state == Exhausted ==> r.attempts == c.maxAttempts)
    && (r.state == Healthy ==> r.attempts == 0 && r.nextAttemptAt == 0)
    && (r.attempts == 0 <==> r.lastAttemptAt == 0)
    && (r.attempts == 0 <==> r.firstStaleAt == 0)
    && r.firstStaleAt <= r.lastAttemptAt
    && (r.attempts > 0 ==> r.nextAttemptAt == r.lastAttemptAt + BackoffOf(c, r.attempts))
    && (r.state == GracePeriod ==> r.nextAttemptAt > 0)
  }

  lemma TickKeepsSane(c: Config, r: Option<Record>, sight: Sight, now: Time)
    requires Usable(c) && now > 0
    requires r.Some? ==> Sane(c, r.value) && r.value.lastAttemptAt <= now
    ensures var r' := Ticked(c, r, sight, now);
            r'.Some? ==> Sane(c, r'.value) && r'.value.lastAttemptAt <= now
  {
    hide BackoffOf;
  }

  /** A command is one more attempt, and only a tick that leaves the device healthy takes attempts back. */
  lemma CommandsCount(c: Config, r: Option<Record>, sight: Sight, now: Time)
    requires r.Some? ==> Sane(c, r.value)
    ensures var r' := Ticked(c, r, sight, now);
            var was := if r.Some? then r.value.attempts else 0;
            && (r'.None? ==> r.None? && !Commands(c, r, sight, now))
            && (r'.Some? && r'.value.state != Healthy ==>
                  r'.value.attempts == was + if Commands(c, r, sight, now) then 1 else 0)
            && (r'.Some? && r'.value.state == Healthy ==> r'.value.attempts == 0)
  {
    hide BackoffOf;
  }

  /**
    Over any run, disconnections and lost trust included: every record is sane, and its attempts are the
    commands sent since it was last healthy, so these never exceed the maximum.
   */
  lemma {:induction false} RunKeepsSane(c: Config, turns: seq<Turn>)
    requires Usable(c) && Ordered(turns)
    ensures var r := After(c, None, turns);
            && (r.Some? ==> Sane(c, r.value) && r.value.attempts == SentSinceHealthy(c, turns))
            && (r.Some? && turns != [] ==> r.value.lastAttemptAt <= turns[|turns| - 1].now)
            && (r.None? ==> SentSinceHealthy(c, turns) == 0)
            && SentSinceHealthy(c, turns) <= c.maxAttempts
    decreases |turns|
  {
    if turns != [] {
      var before, last := turns[..|turns| - 1], turns[|turns| - 1];
      RunKeepsSane(c, before);
      var r := After(c, None, before);
      TickKeepsSane(c, r, last.sight, last.now);
      CommandsCount(c, r, last.sight, last.now);
      hide Ticked, Commands, Sane;
    }
  }

  /** An attempt made from the grace state never precedes its due time; the first waits its grace period out. */
  lemma AttemptsWaitTheirTurn(c: Config, turns: seq<Turn>, turn: Turn)
    requires Usable(c) && Ordered(turns + [turn])
    requires var r := After(c, None, turns);
             r.Some? && r.value.state == GracePeriod && Commands(c, r, turn.sight, turn.now)
    ensures var r := After(c, None, turns).value;
            && turn.now >= r.nextAttemptAt
            && (r.attempts > 0 ==> turn.now >= r.lastAttemptAt + BackoffOf(c, r.attempts))
            && r.attempts < c.maxAttempts
  {
    assert forall i | 0 <= i < |turns| :: turns[i] == (turns + [turn])[i];
    RunKeepsSane(c, turns);
    hide BackoffOf, After;
  }

  /** The first and the last command sent since a tick last left the device healthy. */
  function SentTimes(c: Config, turns: seq<Turn>): (times: (Time, Time))
    decreases |turns|
  {
    if turns == [] then (0, 0)
    else
      var before, last := turns[..|turns| - 1], turns[|turns| - 1];
      var r := After(c, None, before);
      var r' := Ticked(c, r, last.sight, last.now);
      if r'.Some? && r'.value.state == Healthy then (0, 0)
      else if Commands(c, r, last.sight, last.now) then
        (if SentSinceHealthy(c, before) == 0 then last.now else SentTimes(c, before).0, last.now)
      else SentTimes(c, before)
  }

  /** A record knows when its attempts began and when the last one was made. */
  lemma {:induction false} RecordKeepsTimes(c: Config, turns: seq<Turn>)
    requires Usable(c) && Ordered(turns)
    ensures var r := After(c, None, turns);
            if r.Some? then (r.value.firstStaleAt, r.value.lastAttemptAt) == SentTimes(c, turns)
            else SentTimes(c, turns) == (0, 0)
    decreases |turns|
  {
    if turns != [] {
      var before, last := turns[..|turns| - 1], turns[|turns| - 1];
      RecordKeepsTimes(c, before);
      RunKeepsSane(c, before);
      TickKeepsTimes(c, After(c, None, before), last.sight, last.now);
      hide Ticked, Commands, Sane;
    }
  }

  lemma TickKeepsTimes(c: Config, r: Option<Record>, sight: Sight, now: Time)
    requires r.Some? ==> Sane(c, r.value)
    ensures var was, r' := Created(r, now), Ticked(c, r, sight, now);
            && (r'.None? ==> r.None?)
            && (r'.Some? && r'.value.state == Healthy ==> r'.value.firstStaleAt == 0 && r'.value.lastAttemptAt == 0)
            && (r'.Some? && r'.value.state != Healthy ==>
                  && r'.value.lastAttemptAt == (if Commands(c, r, sight, now) then now else was.lastAttemptAt)
                  && r'.value.firstStaleAt == (if Commands(c, r, sight, now) && was.attempts == 0 then now
                                               else was.firstStaleAt))
  {
    hide BackoffOf;
  }

  /**
    The first wait of a device is its grace period: while no attempt has been made, the due time lies a grace
    period after the tick that first found the device connected without evidence.
   */
  lemma {:induction false} FirstWaitIsGrace(c: Config, turns: seq<Turn>) returns (n: nat)
    requires Usable(c) && Ordered(turns)
    requires var r := After(c, None, turns); r.Some? && r.value.attempts == 0 && r.value.nextAttemptAt > 0
    ensures n < |turns| && After(c, None, turns).value.nextAttemptAt == turns[n].now + c.gracePeriod
    ensures var was, now := After(c, None, turns[..n]), After(c, None, turns[..n + 1]);
            && (was.None? || was.value.nextAttemptAt == 0) && now.Some? && now.value.state == GracePeriod
    decreases |turns|
  {
    var before, last := turns[..|turns| - 1], turns[|turns| - 1];
    var r := After(c, None, before);
    RunKeepsSane(c, before);
    FirstWaitBegins(c, r, last.sight, last.now);
    hide Ticked, Sane;
    if r.Some? && r.value.nextAttemptAt > 0 {
      n := FirstWaitIsGrace(c, before);
      assert turns[..n] == before[..n] && turns[..n + 1] == before[..n + 1];
    } else {
      n := |before|;
      assert turns[..n] == before && turns[..n + 1] == turns;
    }
  }

  lemma FirstWaitBegins(c: Config, r: Option<Record>, sight: Sight, now: Time)
    requires Usable(c) && (r.Some? ==> Sane(c, r.value))
    requires var r' := Ticked(c, r, sight, now); r'.Some? && r'.value.attempts == 0 && r'.value.nextAttemptAt > 0
    ensures var r' := Ticked(c, r, sight, now).value;
            if r.Some? && r.value.nextAttemptAt > 0 then r.value.attempts == 0 && r'.nextAttemptAt
                                                                                  == r.value.nextAttemptAt
            else r'.state == GracePeriod && r'.nextAttemptAt == now + c.gracePeriod
  {
    hide BackoffOf;
  }

  /** A record carries the time of the tick that last changed its state or made an attempt. */
  lemma TransitionIsStamped(c: Config, r: Record, sight: Sight, now: Time)
    requires Usable(c) && Sane(c, r)
    ensures var r' := Ticked(c, Some(r), sight, now).value;
            r'.lastTransitionAt ==
            if r'.state != r.state || Commands(c, Some(r), sight, now) then now else r.lastTransitionAt
  {
    hide BackoffOf;
  }

  // ------------------------------------------------------------------ a failing device is given up on

  /** Still connected and trusted, and nothing to show since the last attempt. */
  predicate Failing(r: Option<Record>, sight: Sight) {
    || sight.stale
    || (&& sight.listing.Some?
        && sight.listing.value.connected && !Distrusted(sight.listing.value)
        && if r.None? then !sight.listing.value.successOnConnect
           else !Proves(r.value, sight.listing.value, sight))
  }

  predicate FailsThroughout(c: Config, r: Option<Record>, turns: seq<Turn>)
    decreases |turns|
  {
    turns != [] ==>
      && FailsThroughout(c, r, turns[..|turns| - 1])
      && Failing(After(c, r, turns[..|turns| - 1]), turns[|turns| - 1].sight)
  }

  predicate IsDue(r: Option<Record>, now: Time) {
    r.None? || Due(r.value, now)
  }

  /** The ticks of a run that came at or after the record's due time. */
  function DueTurns(c: Config, r: Option<Record>, turns: seq<Turn>): nat
    decreases |turns|
  {
    if turns == [] then 0
    else
      var before, last := turns[..|turns| - 1], turns[|turns| - 1];
      DueTurns(c, r, before) + if IsDue(After(c, r, before), last.now) then 1 else 0
  }

  predicate GivenUp(r: Option<Record>) {
    r.Some? && r.value.state == Exhausted
  }

  /** Due ticks still to come before the device is given up on, at the most. */
  function Patience(c: Config, r: Option<Record>): int {
    if r.None? then c.maxAttempts + 2
    else if r.value.state == Exhausted then 0
    else c.maxAttempts - r.value.attempts + if r.value.state == GracePeriod then 1 else 2
  }

  lemma FailingTickWearsOut(c: Config, r: Option<Record>, sight: Sight, now: Time)
    requires Usable(c) && now > 0 && Failing(r, sight)
    requires r.Some? ==> Sane(c, r.value)
    ensures var r' := Ticked(c, r, sight, now);
            && r'.Some? && Patience(c, r') >= 0
            && (IsDue(r, now) && !GivenUp(r) ==> Patience(c, r') < Patience(c, r))
            && (!IsDue(r, now) || GivenUp(r) ==> r' == r)
  {
    hide BackoffOf;
  }

  lemma {:induction false} FailingRunWearsOut(c: Config, r: Option<Record>, turns: seq<Turn>)
    requires Usable(c) && Ordered(turns) && FailsThroughout(c, r, turns)
    requires r.Some? ==> Sane(c, r.value) && (turns != [] ==> r.value.lastAttemptAt <= turns[0].now)
    ensures var r' := After(c, r, turns);
            && (r'.Some? ==> Sane(c, r'.value) && (turns != [] ==> r'.value.lastAttemptAt <= turns[|turns| - 1].now))
            && (GivenUp(r') || Patience(c, r') + DueTurns(c, r, turns) <= Patience(c, r))
    decreases |turns|
  {
    if turns != [] {
      var before, last := turns[..|turns| - 1], turns[|turns| - 1];
      FailingRunWearsOut(c, r, before);
      var mid := After(c, r, before);
      TickKeepsSane(c, mid, last.sight, last.now);
      FailingTickWearsOut(c, mid, last.sight, last.now);
      hide Ticked, Sane, Failing, Patience;
    }
  }

  /**
    A permanently failing device is always driven to exhaustion: whatever early ticks come between, at
    most MaxAttempts - Attempts + 2 due ones suffice.
   */
  lemma FailingDeviceIsGivenUp(c: Config, r: Option<Record>, turns: seq<Turn>)
    requires Usable(c) && Ordered(turns) && FailsThroughout(c, r, turns)
    requires r.Some? ==> Sane(c, r.value) && (turns != [] ==> r.value.lastAttemptAt <= turns[0].now)
    requires DueTurns(c, r, turns) >= c.maxAttempts - (if r.Some? then r.value.attempts else 0) + 2
    ensures GivenUp(After(c, r, turns))
  {
    FailingRunWearsOut(c, r, turns);
    assert !GivenUp(After(c, r, turns)) ==> Patience(c, After(c, r, turns)) > 0;
  }

  // ------------------------------------------------------------------ recovery needs evidence

  /** A device with attempts becomes healthy exactly on a success later than its last attempt. */
  lemma HealthyNeedsEvidence(c: Config, r: Record, sight: Sight, now: Time)
    requires Usable(c) && Sane(c, r) && r.attempts > 0
    ensures (Ticked(c, Some(r), sight, now).value.state == Healthy) <==>
            (&& !sight.stale && sight.listing.Some?
             && sight.listing.value.connected && (sight.listing.value.trustKnown ==> sight.listing.value.trusted)
             && sight.evidence.Some? && sight.evidence.value.lastMonitoringSuccess > r.lastAttemptAt
             && (sight.evidence.value.heartbeatRequired ==>
                   sight.evidence.value.lastRemoteHeartbeat > r.lastAttemptAt))
  {
    hide BackoffOf;
  }

  /**
    ... and the registry answers so only if the device's trace shows that success, in this lifetime, and,
    where heartbeats are required, a heartbeat later than the attempt as well.
   */
  lemma HealthyIsRecorded(c: Config, r: Record, sight: Sight, now: Time, local: R.Local, events: seq<Runs.Event>)
    returns (success: nat, heartbeat: nat)
    requires Usable(c) && Sane(c, r) && r.attempts > 0
    requires sight.evidence == HE.After(local, events).health
    requires Ticked(c, Some(r), sight, now).value.state == Healthy
    ensures Later(events, success, R.RecordMonitoringSuccess, r.lastAttemptAt)
    ensures HE.After(local, events).health.value.heartbeatRequired ==>
              Later(events, heartbeat, R.RecordRemoteHeartbeat, r.lastAttemptAt)
  {
    HealthyNeedsEvidence(c, r, sight, now);
    success := HE.SuccessIsRecorded(local, events);
    heartbeat := 0;
    if HE.After(local, events).health.value.heartbeatRequired {
      heartbeat := HE.HeartbeatIsRecorded(local, events);
    }
  }

  /** A callback of the trace, later than an instant and of this lifetime. */
  predicate Later(events: seq<Runs.Event>, j: nat, op: R.Op, since: Time) {
    && j < |events| && Runs.Is(events[j], op) && events[j].now > since
    && forall k | j < k < |events| :: !Runs.Is(events[k], R.RemoveDevice)
  }

  /** Some success in the trace is later than an instant. */
  predicate SucceedsAfter(events: seq<Runs.Event>, since: Time) {
    exists j | 0 <= j < |events| :: Runs.Is(events[j], R.RecordMonitoringSuccess) && events[j].now > since
  }

  /**
    A silent device fails: while it is connected and its trace shows no success later than the last
    attempt, or none on this connection when there was no attempt, every tick finds it failing, so
    enough due ticks give up on it.
   */
  lemma SilentDeviceFails(c: Config, r: Option<Record>, local: R.Local, events: seq<Runs.Event>, i: nat, now: Time)
    requires HE.Ordered(events) && HE.Opens(events, i)
    requires if r.Some? && r.value.lastAttemptAt != 0 then !SucceedsAfter(events, r.value.lastAttemptAt)
             else !HE.Heard(events, i, R.RecordMonitoringSuccess, 0)
    ensures Failing(r, Seen(c, HE.After(local, events).health, now))
  {
    HE.TraceDecides(local, events);
    HE.RecordHears(local, events, i, 0);
    hide HE.Opens, HE.Heard, HE.Advertised, HE.Tombstoned, HE.Up;
    if r.Some? {
      SuccessIsLater(local, events, r.value.lastAttemptAt);
    }
  }

  lemma SuccessIsLater(local: R.Local, events: seq<Runs.Event>, since: Time)
    ensures var h := HE.After(local, events).health;
            h.Some? && R.SuccessSince(h.value, since) ==> SucceedsAfter(events, since)
  {
    var h := HE.After(local, events).health;
    if h.Some? && R.SuccessSince(h.value, since) {
      var j := HE.SuccessIsRecorded(local, events);
      assert Runs.Is(events[j], R.RecordMonitoringSuccess);
    }
  }

  /** A tick that sees the device as its trace stood at some point while the i-th callback's connection lasted. */
  ghost predicate Sees(c: Config, local: R.Local, events: seq<Runs.Event>, i: nat, turn: Turn) {
    exists n | i < n <= |events| :: SeesAt(c, local, events, i, turn, n)
  }

  predicate SeesAt(c: Config, local: R.Local, events: seq<Runs.Event>, i: nat, turn: Turn, n: nat)
    requires i < n <= |events|
  {
    && events[n - 1].now <= turn.now
    && HE.Opens(events[..n], i)
    && turn.sight == Seen(c, HE.After(local, events[..n]).health, turn.now)
  }

  /** The last attempt of a record on this connection is no earlier than the connection, or than where it started. */
  predicate Recent(r: Option<Record>, start: Time, connected: Time) {
    r.Some? && r.value.lastAttemptAt != 0 ==> r.value.lastAttemptAt == start || r.value.lastAttemptAt >= connected
  }

  /** The connection has not succeeded once, nor has anything since the last attempt that the record started with. */
  predicate Silent(events: seq<Runs.Event>, i: nat, start: Time) {
    && !HE.Heard(events, i, R.RecordMonitoringSuccess, 0)
    && (start != 0 ==> !SucceedsAfter(events, start))
  }

  lemma SilentTickFails(
    c: Config, r: Option<Record>, local: R.Local, events: seq<Runs.Event>, i: nat, turn: Turn, n: nat, start: Time)
    requires HE.Ordered(events) && i < n <= |events| && SeesAt(c, local, events, i, turn, n)
    requires Silent(events, i, start) && Recent(r, start, events[i].now)
    ensures Failing(r, turn.sight)
  {
    PrefixHears(events, n, i);
    if r.Some? {
      PrefixSucceeds(events, n, r.value.lastAttemptAt);
      LateSuccessIsHeard(events, i, r.value.lastAttemptAt);
    }
    hide HE.Heard, HE.Opens, Failing, SucceedsAfter, HE.Ordered;
    OrderedPrefix(events, n);
    SilentDeviceFails(c, r, local, events[..n], i, turn.now);
  }

  lemma OrderedPrefix(events: seq<Runs.Event>, n: nat)
    requires HE.Ordered(events) && n <= |events|
    ensures HE.Ordered(events[..n])
  {
  }

  lemma PrefixSucceeds(events: seq<Runs.Event>, n: nat, since: Time)
    requires n <= |events|
    ensures SucceedsAfter(events[..n], since) ==> SucceedsAfter(events, since)
  {
    if SucceedsAfter(events[..n], since) {
      var j :| 0 <= j < n && Runs.Is(events[..n][j], R.RecordMonitoringSuccess) && events[..n][j].now > since;
      assert Runs.Is(events[j], R.RecordMonitoringSuccess) && events[j].now > since;
    }
  }

  lemma PrefixHears(events: seq<Runs.Event>, n: nat, i: nat)
    requires n <= |events|
    ensures HE.Heard(events[..n], i, R.RecordMonitoringSuccess, 0) ==> HE.Heard(events, i, R.RecordMonitoringSuccess, 0)
  {
    if HE.Heard(events[..n], i, R.RecordMonitoringSuccess, 0) {
      var j :| i < j < n && Runs.Is(events[..n][j], R.RecordMonitoringSuccess) && events[..n][j].now >= 0;
      assert Runs.Is(events[j], R.RecordMonitoringSuccess) && events[j].now >= 0;
    }
  }

  /** A success later than an instant at which the connection stood is a success on that connection. */
  lemma LateSuccessIsHeard(events: seq<Runs.Event>, i: nat, since: Time)
    requires HE.Ordered(events) && i < |events|
    ensures SucceedsAfter(events, since) && since >= events[i].now ==> HE.Heard(events, i, R.RecordMonitoringSuccess, 0)
  {
    if SucceedsAfter(events, since) && since >= events[i].now {
      var j :| 0 <= j < |events| && Runs.Is(events[j], R.RecordMonitoringSuccess) && events[j].now > since;
      assert i < j;
    }
  }

  lemma {:induction false} SilentRunFails(
    c: Config, r: Option<Record>, local: R.Local, events: seq<Runs.Event>, i: nat, turns: seq<Turn>, start: Time)
    requires HE.Ordered(events) && i < |events| && forall t | t in turns :: Sees(c, local, events, i, t)
    requires Silent(events, i, start) && Recent(r, start, events[i].now)
    ensures FailsThroughout(c, r, turns) && Recent(After(c, r, turns), start, events[i].now)
    decreases |turns|
  {
    hide HE.Ordered, Silent, Recent, Failing, Ticked, HE.Opens;
    if turns == [] {
      assert After(c, r, turns) == r;
    } else {
      var before, last := turns[..|turns| - 1], turns[|turns| - 1];
      assert last in turns && forall t | t in before :: t in turns;
      SilentRunFails(c, r, local, events, i, before, start);
      var n :| i < n <= |events| && SeesAt(c, local, events, i, last, n);
      SilentTickFails(c, After(c, r, before), local, events, i, last, n, start);
      TimesGoOn(events, i, n - 1);
      RecentStays(c, After(c, r, before), last.sight, last.now, start, events[i].now);
    }
  }

  lemma TimesGoOn(events: seq<Runs.Event>, i: nat, j: nat)
    requires HE.Ordered(events) && i <= j < |events|
    ensures events[i].now <= events[j].now
  {
  }

  lemma RecentStays(c: Config, r: Option<Record>, sight: Sight, now: Time, start: Time, connected: Time)
    requires Recent(r, start, connected) && now >= connected
    ensures Recent(Ticked(c, r, sight, now), start, connected)
  {
    hide BackoffOf;
  }

  /**
    A silent device is given up on, from its trace alone: while one connection lasts and the growing trace
    shows no monitoring success, enough due ticks exhaust the device, whatever other callbacks arrive.
   */
  lemma SilentDeviceIsGivenUp(
    c: Config, r: Option<Record>, local: R.Local, events: seq<Runs.Event>, i: nat, turns: seq<Turn>)
    requires Usable(c) && Ordered(turns) && HE.Ordered(events) && i < |events|
    requires forall t | t in turns :: Sees(c, local, events, i, t)
    requires Silent(events, i, LastAttempt(r))
    requires r.Some? ==> Sane(c, r.value) && (turns != [] ==> r.value.lastAttemptAt <= turns[0].now)
    requires DueTurns(c, r, turns) >= c.maxAttempts - (if r.Some? then r.value.attempts else 0) + 2
    ensures GivenUp(After(c, r, turns))
  {
    hide Sees, Silent, HE.Ordered, Sane;
    SilentRunFails(c, r, local, events, i, turns, LastAttempt(r));
    FailingDeviceIsGivenUp(c, r, turns);
  }

  function LastAttempt(r: Option<Record>): Time {
    if r.Some? then r.value.lastAttemptAt else 0
  }

  // ------------------------------------------------------------------ restart

  /** A run of the whole supervisor from its start, state by state. */
  ghost predicate Supervises(c: Config, inputs: seq<Input>, states: seq<Supervisor>) {
    && |states| == |inputs| + 1
    && states[0] == Supervisor(map[], false, false)
    && forall n | 0 <= n < |inputs| :: Ticks(c, states[n], inputs[n], states[n + 1])
  }

  function TurnsOf(inputs: seq<Input>, ski: Ski): seq<Turn> {
    seq(|inputs|, n requires 0 <= n < |inputs| => Turn(SightOf(inputs[n], ski), inputs[n].now))
  }

  /** After the n-th tick, at least one device matters and each that does has been given up on, by its own history. */
  ghost predicate AllGivenUp(c: Config, inputs: seq<Input>, n: nat)
    requires n < |inputs|
  {
    var health, past := inputs[n].health, inputs[..n + 1];
    && (exists ski :: ski in health && Matters(health[ski]))
    && forall ski :: ski in health && Matters(health[ski]) ==> GivenUp(After(c, None, TurnsOf(past, ski)))
  }

  /** Connected, and not known to be untrusted. */
  predicate Matters(listing: Listing) {
    listing.connected && (listing.trustKnown ==> listing.trusted)
  }

  /** Devices do not disturb one another: each record is what its own history alone makes of it. */
  lemma {:induction false} DevicesAreIndependent(c: Config, inputs: seq<Input>, states: seq<Supervisor>, n: nat,
                                                 ski: Ski)
    requires Supervises(c, inputs, states) && n <= |inputs|
    ensures RecordOf(states[n].records, ski) == After(c, None, TurnsOf(inputs[..n], ski))
  {
    if n > 0 {
      DevicesAreIndependent(c, inputs, states, n - 1, ski);
      assert Ticks(c, states[n - 1], inputs[n - 1], states[n - 1 + 1]);
      assert TurnsOf(inputs[..n], ski)[..n - 1] == TurnsOf(inputs[..n - 1], ski);
      hide Ticked;
    }
  }

  lemma ExhaustedIsGivenUp(c: Config, inputs: seq<Input>, states: seq<Supervisor>, n: nat)
    requires Supervises(c, inputs, states) && n < |inputs|
    ensures AllExhausted(states[n + 1].records, inputs[n].health) <==> AllGivenUp(c, inputs, n)
  {
    var records, past := states[n + 1].records, inputs[..n + 1];
    forall ski
      ensures RecordOf(records, ski) == After(c, None, TurnsOf(past, ski))
    {
      DevicesAreIndependent(c, inputs, states, n + 1, ski);
    }
    hide After;
  }

  /** A restart is requested exactly when every device that matters is given up on and that was not so a tick ago. */
  lemma RestartIsEdgeTriggered(c: Config, inputs: seq<Input>, states: seq<Supervisor>, n: nat)
    requires Supervises(c, inputs, states) && n < |inputs|
    ensures states[n + 1].requested <==> AllGivenUp(c, inputs, n) && !(n > 0 && AllGivenUp(c, inputs, n - 1))
  {
    hide AllGivenUp, AllExhausted;
    ExhaustedIsGivenUp(c, inputs, states, n);
    assert Ticks(c, states[n], inputs[n], states[n + 1]);
    if n > 0 {
      ExhaustedIsGivenUp(c, inputs, states, n - 1);
      assert Ticks(c, states[n - 1], inputs[n - 1], states[n - 1 + 1]);
    }
  }
}
