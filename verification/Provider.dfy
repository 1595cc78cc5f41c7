/**
  A provider's sample: versions, expiry timers that may fire late, the measurements on the wire and the
  advertised availability (eebus-bridge/internal/usecases/provider_snapshot.go,
  eebus-bridge/internal/usecases/mgcp.go, eebus-bridge/internal/usecases/provider_availability.go).

  A wire write either succeeds as a whole or changes nothing; each operation is told which. Operations do
  not overlap: all of them hold the publish mutex.
 */
module Provider {
  import opened Common

  type Time = nat
  type Reading = int

  datatype Sample = Sample(reading: Reading, observedAt: Time, validUntil: Time, invalid: bool)

  predicate Current(s: Sample, now: Time) {
    !s.invalid && s.observedAt != 0 && s.observedAt <= now < s.validUntil
  }

  datatype Write = Measured(sample: Sample) | Invalidated | Single(reading: Reading)

  datatype Outcome = Done | ProviderClosed | WriteFailed

  /** A provider as its three parts hold it, with everything it has written and announced. */
  datatype State = State(
    sample: Option<Sample>,
    version: nat,
    timer: Option<nat>,
    closed: bool,
    known: bool,
    available: bool,
    announced: seq<bool>,
    wire: seq<Write>)

  const NEW := State(None, 0, None, false, false, false, [], [])

  datatype Event =
    | Publish(sample: Sample, writeOk: bool)
    | Expire(version: nat, now: Time, writeOk: bool)
    | PublishValue(reading: Reading, writeOk: bool)
    | AddUseCase
    | Close

  /** Availability is announced only when it differs from what was announced last. */
  function Announce(p: State, available: bool): State {
    if p.known && p.available == available then p
    else p.(known := true, available := available, announced := p.announced + [available])
  }

  function Hold(p: State, sample: Option<Sample>): State {
    p.(sample := sample, version := p.version + 1, timer := if sample.Some? then Some(p.version + 1) else None)
  }

  predicate Expires(p: State, version: nat, now: Time) {
    !p.closed && p.version == version && p.sample.Some? && !Current(p.sample.value, now)
  }

  function Step(p: State, e: Event): State {
    match e
    case Publish(sample, writeOk) =>
      if p.closed || !writeOk then p
      else if sample.invalid then Hold(Announce(p.(wire := p.wire + [Invalidated]), false), None)
      else Hold(Announce(p.(wire := p.wire + [Measured(sample)]), true), Some(sample))
    case Expire(version, now, writeOk) =>
      if !Expires(p, version, now) || !writeOk then p
      else Announce(Hold(p.(wire := p.wire + [Invalidated]), None), false)
    case PublishValue(reading, writeOk) =>
      if p.closed || !writeOk then p else p.(wire := p.wire + [Single(reading)])
    case AddUseCase =>
      Announce(p.(announced := p.announced + [true]), false)
    case Close =>
      Announce(if p.closed then p else Hold(p.(closed := true), None), false)
  }

  /** What a reader is given. */
  function Read(p: State, now: Time): Option<Sample> {
    if !p.closed && p.sample.Some? && Current(p.sample.value, now) then p.sample else None
  }

  // ------------------------------------------------------------------ the objects

  class SnapshotStore {
    var snapshot: Option<Sample>
    var version: nat
    var timer: Option<nat>
    var closed: bool

    constructor ()
      ensures snapshot == None && version == 0 && timer == None && !closed
    {
      snapshot, version, timer, closed := None, 0, None, false;
    }

    method Commit(value: Sample) returns (r: Outcome)
      modifies this
      ensures closed == old(closed) && r == if closed then ProviderClosed else Done
      ensures if closed then unchanged(this) else
              snapshot == Some(value) && version == old(version) + 1 && timer == Some(version)
    {
      if closed {
        return ProviderClosed;
      }
      StopTimerLocked();
      version := version + 1;
      snapshot := Some(value);
      timer := Some(version);
      r := Done;
    }

    method Invalidate() returns (r: Outcome)
      modifies this
      ensures closed == old(closed) && r == if closed then ProviderClosed else Done
      ensures if closed then unchanged(this) else snapshot == None && version == old(version) + 1 && timer == None
    {
      if closed {
        return ProviderClosed;
      }
      StopTimerLocked();
      version := version + 1;
      snapshot := None;
      r := Done;
    }

    /** What a reader is given: a sample only while it is current. */
    method CurrentSample(now: Time) returns (s: Option<Sample>)
      ensures s.Some? ==> s == snapshot
      ensures s.Some? <==>
              && !closed && snapshot.Some? && !snapshot.value.invalid
              && 0 < snapshot.value.observedAt <= now < snapshot.value.validUntil
    {
      if closed || snapshot.None? || !Current(snapshot.value, now) {
        return None;
      }
      return snapshot;
    }

    predicate ShouldExpire(v: nat, now: Time)
      reads this
    {
      !closed && version == v && snapshot.Some? && !Current(snapshot.value, now)
    }

    method ClearExpired(v: nat)
      modifies this
      ensures closed == old(closed)
      ensures if old(closed || version != v || snapshot.None?) then unchanged(this) else
              snapshot == None && version == v + 1 && timer == None
    {
      if closed || version != v || snapshot.None? {
        return;
      }
      StopTimerLocked();
      version := version + 1;
      snapshot := None;
    }

    method Close()
      modifies this
      ensures if old(closed) then unchanged(this) else
              closed && snapshot == None && version == old(version) + 1 && timer == None
    {
      if closed {
        return;
      }
      closed := true;
      version := version + 1;
      snapshot := None;
      StopTimerLocked();
    }

    method StopTimerLocked()
      modifies this`timer
      ensures timer == None
    {
      timer := None;
    }
  }

  class Availability {
    var known: bool
    var available: bool
    var announced: seq<bool>

    constructor ()
      ensures !known && !available && announced == []
    {
      known, available, announced := false, false, [];
    }

    method Set(a: bool)
      modifies this
      ensures known && available == a
      ensures announced == old(announced) + if old(known && available == a) then [] else [a]
    {
      if known && available == a {
        return;
      }
      known := true;
      available := a;
      announced := announced + [a];
    }
  }

  class MGCPProvider {
    const snapshots: SnapshotStore
    const available: Availability
    var wire: seq<Write>

    ghost function View(): State
      reads this, snapshots, available
    {
      State(snapshots.snapshot, snapshots.version, snapshots.timer, snapshots.closed,
            available.known, available.available, available.announced, wire)
    }

    constructor ()
      ensures View() == NEW && fresh(snapshots) && fresh(available)
    {
      snapshots := new SnapshotStore();
      available := new Availability();
      wire := [];
    }

    /** Registering the use case announces it as available; it has nothing to serve yet. */
    method AddUseCase()
      modifies available
      ensures View() == Step(old(View()), Event.AddUseCase)
    {
      available.announced := available.announced + [true];
      available.Set(false);
    }

    method PublishGridSnapshot(sample: Sample, writeOk: bool) returns (r: Outcome)
      modifies this, snapshots, available
      ensures View() == Step(old(View()), Publish(sample, writeOk))
      ensures r == if old(snapshots.closed) then ProviderClosed else if writeOk then Done else WriteFailed
    {
      if snapshots.closed {
        return ProviderClosed;
      }
      if sample.invalid {
        if !writeOk {
          return WriteFailed;
        }
        wire := wire + [Invalidated];
        available.Set(false);
        r := snapshots.Invalidate();
        return;
      }
      if !writeOk {
        return WriteFailed;
      }
      wire := wire + [Measured(sample)];
      available.Set(true);
      r := snapshots.Commit(sample);
    }

    method CurrentGridSnapshot(now: Time) returns (s: Option<Sample>)
      ensures s == Read(View(), now)
    {
      s := snapshots.CurrentSample(now);
    }

    /** A timer's callback, however late it comes. */
    method ExpireGridSnapshot(version: nat, now: Time, writeOk: bool)
      modifies this, snapshots, available
      ensures View() == Step(old(View()), Expire(version, now, writeOk))
    {
      if !snapshots.ShouldExpire(version, now) {
        return;
      }
      if !writeOk {
        return;
      }
      wire := wire + [Invalidated];
      snapshots.ClearExpired(version);
      available.Set(false);
    }

    method PublishIfOpen(reading: Reading, writeOk: bool) returns (r: Outcome)
      modifies this`wire
      ensures View() == Step(old(View()), PublishValue(reading, writeOk))
      ensures wire == old(wire) + if r == Done then [Single(reading)] else []
      ensures r == if snapshots.closed then ProviderClosed else if writeOk then Done else WriteFailed
    {
      if snapshots.closed {
        return ProviderClosed;
      }
      if !writeOk {
        return WriteFailed;
      }
      wire := wire + [Single(reading)];
      r := Done;
    }

    method Close()
      modifies snapshots, available
      ensures View() == Step(old(View()), Event.Close)
    {
      snapshots.Close();
      available.Set(false);
    }
  }
}
