/**
  Whole runs of a provider: any order of publishes, failed writes, late timers and closes
  (eebus-bridge/internal/usecases/mgcp.go:219-292).
 */
module ProviderRuns {
  import opened Common
  import opened Provider

  function Run(p: State, events: seq<Event>): State
    decreases |events|
  {
    if events == [] then p else Step(Run(p, events[..|events| - 1]), events[|events| - 1])
  }

  predicate Advertised(p: State) {
    p.announced != [] && p.announced[|p.announced| - 1]
  }

  predicate Alternates(announced: seq<bool>) {
    forall i | 0 <= i < |announced| - 1 :: announced[i] != announced[i + 1]
  }

  // ------------------------------------------------------------------ what is advertised

  /** The advertised availability, the held sample and the closed flag tell one story. */
  predicate Agrees(p: State) {
    && (p.sample.Some? <==> Advertised(p))
    && (p.known ==> p.announced != [] && p.announced[|p.announced| - 1] == p.available)
    && (!p.known ==> p.announced == [] && p.sample.None?)
    && Alternates(p.announced)
    && (p.closed ==> p.sample.None?)
  }

  lemma StepKeepsAgreement(p: State, e: Event)
    requires Agrees(p) && !e.AddUseCase?
    ensures Agrees(Step(p, e))
  {}

  /** Registering keeps the agreement exactly when nothing has been announced before. */
  lemma AddUseCaseAgrees(p: State)
    requires Agrees(p)
    ensures Agrees(Step(p, AddUseCase)) <==> !p.known
  {
    var p' := p.(announced := p.announced + [true]);
    if p.known && p.available {
      assert p'.announced[|p.announced| - 1] == p'.announced[|p.announced|];
      var after := Step(p, AddUseCase);
      assert after.announced[|p.announced| - 1] == after.announced[|p.announced| - 1 + 1];
    }
  }

  /**
    Provider agreement: registered at most once and first, then in any order of publishes, failed writes,
    late timers, single values and closes, a sample is held exactly while "available" is advertised, and
    announcements alternate.
   */
  lemma {:induction false} SampleHeldExactlyWhileAdvertised(p: State, events: seq<Event>)
    requires Agrees(p) && forall e | e in events :: !e.AddUseCase?
    ensures Agrees(Run(p, events))
    decreases |events|
  {
    if events != [] {
      SampleHeldExactlyWhileAdvertised(p, events[..|events| - 1]);
      StepKeepsAgreement(Run(p, events[..|events| - 1]), events[|events| - 1]);
    }
  }

  lemma RegisteredProviderAgrees(events: seq<Event>)
    requires forall e | e in events :: !e.AddUseCase?
    ensures Agrees(Run(Step(NEW, AddUseCase), events)) && Agrees(Run(NEW, events))
  {
    assert Agrees(NEW);
    AddUseCaseAgrees(NEW);
    SampleHeldExactlyWhileAdvertised(NEW, events);
    SampleHeldExactlyWhileAdvertised(Step(NEW, AddUseCase), events);
  }

  // ------------------------------------------------------------------ what is on the wire

  /** While open, the last thing written is the sample held, or an invalidation when there is none. */
  predicate WireAgrees(p: State) {
    !p.closed ==>
      if p.sample.Some? then p.wire != [] && p.wire[|p.wire| - 1] == Measured(p.sample.value)
      else p.wire == [] || p.wire[|p.wire| - 1] == Invalidated
  }

  lemma {:induction false} WireFollowsTheSample(p: State, events: seq<Event>)
    requires WireAgrees(p) && forall e | e in events :: !e.PublishValue?
    ensures WireAgrees(Run(p, events))
    decreases |events|
  {
    if events != [] {
      WireFollowsTheSample(p, events[..|events| - 1]);
    }
  }

  /** Nothing is written after a close, and nothing is held or advertised again. */
  lemma {:induction false} ClosedForGood(p: State, events: seq<Event>)
    requires forall e | e in events :: !e.AddUseCase?
    ensures var closed := Step(p, Close); Run(closed, events) == closed
    decreases |events|
  {
    if events != [] {
      ClosedForGood(p, events[..|events| - 1]);
    }
  }

  // ------------------------------------------------------------------ which timer clears which sample

  /** The sample committed under a version, read off the trace. */
  function CommittedAs(p: State, events: seq<Event>, version: nat): Option<Sample>
    decreases |events|
  {
    if events == [] then None
    else
      var before, last := events[..|events| - 1], events[|events| - 1];
      if Commits(Run(p, before), last) && Run(p, before).version + 1 == version
      then Some(last.sample)
      else CommittedAs(p, before, version)
  }

  predicate Commits(p: State, e: Event) {
    e.Publish? && e.writeOk && !e.sample.invalid && !p.closed
  }

  lemma StepHolds(p: State, e: Event)
    ensures var p' := Step(p, e);
            if Commits(p, e) then
              p'.sample == Some(e.sample) && p'.version == p.version + 1 && p'.timer == Some(p'.version)
            else
              && p'.version >= p.version
              && (p'.sample.Some? ==> p'.sample == p.sample && p'.version == p.version && p'.timer == p.timer)
  {}

  lemma {:induction false} VersionNamesTheSample(events: seq<Event>, version: nat)
    ensures var p := Run(NEW, events);
            && (p.sample.Some? ==> CommittedAs(NEW, events, p.version) == p.sample && p.timer == Some(p.version))
            && (version > p.version ==> CommittedAs(NEW, events, version) == None)
    decreases |events|
  {
    if events != [] {
      hide Step, Commits;
      var before := events[..|events| - 1];
      StepHolds(Run(NEW, before), events[|events| - 1]);
      VersionNamesTheSample(before, version);
      VersionNamesTheSample(before, Run(NEW, events).version);
    }
  }

  /**
    A timer clears nothing but the sample it was started for: whenever a callback takes a sample away, that
    sample was committed under the callback's own version and is no longer current.
   */
  lemma TimerClearsItsOwnSample(events: seq<Event>, version: nat, now: Time, writeOk: bool)
    ensures var p := Run(NEW, events);
            var p' := Step(p, Expire(version, now, writeOk));
            p' != p ==>
              && p.sample.Some? && CommittedAs(NEW, events, version) == p.sample
              && !(0 < p.sample.value.observedAt <= now < p.sample.value.validUntil && !p.sample.value.invalid)
              && p'.sample == None && writeOk
  {
    VersionNamesTheSample(events, version);
  }

  /** What one event makes of the sample held, and of the count of changes that names it. */
  function Moved(held: (Option<Sample>, nat), closed: bool, e: Event): (Option<Sample>, nat) {
    match e
    case Publish(sample, writeOk) =>
      if closed || !writeOk then held else (if sample.invalid then None else Some(sample), held.1 + 1)
    case Expire(version, now, writeOk) =>
      if writeOk && version == held.1 && held.0.Some?
         && !(0 < held.0.value.observedAt <= now < held.0.value.validUntil)
      then (None, held.1 + 1) else held
    case Close =>
      if closed then held else (None, held.1 + 1)
    case _ => held
  }

  /** The sample a trace ends with: the last one committed, unless something has taken it away since. */
  function Latest(events: seq<Event>): (Option<Sample>, nat)
    decreases |events|
  {
    if events == [] then (None, 0)
    else var before := events[..|events| - 1]; Moved(Latest(before), Close in before, events[|events| - 1])
  }

  lemma StepMoves(p: State, e: Event)
    requires p.sample.Some? ==> !p.sample.value.invalid
    requires p.closed ==> p.sample.None?
    ensures var p' := Step(p, e);
            && (p'.sample, p'.version) == Moved((p.sample, p.version), p.closed, e)
            && p'.closed == (p.closed || e == Close)
            && (p'.sample.Some? ==> !p'.sample.value.invalid)
            && (p'.closed ==> p'.sample.None?)
  {
  }

  lemma {:induction false} TraceHolds(events: seq<Event>)
    ensures var p := Run(NEW, events);
            && (p.sample, p.version) == Latest(events) && p.closed == (Close in events)
            && (p.sample.Some? ==> !p.sample.value.invalid) && (p.closed ==> p.sample.None?)
    decreases |events|
  {
    hide Step, Moved;
    if events != [] {
      var before, last := events[..|events| - 1], events[|events| - 1];
      assert events == before + [last];
      TraceHolds(before);
      StepMoves(Run(NEW, before), last);
    }
  }

  /**
    What a reader gets over any run: the last sample committed, if nothing has withdrawn it since, the provider
    is open, and the instant lies between its observation and its expiry; at no other time anything.
   */
  lemma ReaderSeesLatest(events: seq<Event>, now: Time)
    ensures var latest := Latest(events).0;
            Read(Run(NEW, events), now) ==
            if latest.Some? && 0 < latest.value.observedAt <= now < latest.value.validUntil then latest else None
  {
    TraceHolds(events);
    hide Run, Latest;
  }

  // ------------------------------------------------------------------ a failed expiry

  /**
    What can happen until the next publish or the close: callbacks of other timers, failed writes of any
    kind, and single values.
   */
  predicate Uneventful(e: Event, version: nat) {
    || (e.Publish? && !e.writeOk)
    || e.PublishValue?
    || (e.Expire? && (e.version != version || !e.writeOk))
  }

  predicate OnlySingles(writes: seq<Write>) {
    forall i :: 0 <= i < |writes| ==> writes[i].Single?
  }

  lemma {:induction false} NothingMoves(p: State, events: seq<Event>)
    requires forall e | e in events :: Uneventful(e, p.version) || (p.sample.None? && e.Expire?)
    ensures Run(p, events) == p.(wire := Run(p, events).wire)
    ensures p.wire <= Run(p, events).wire && OnlySingles(Run(p, events).wire[|p.wire|..])
    decreases |events|
  {
    if events != [] {
      NothingMoves(p, events[..|events| - 1]);
      assert events[|events| - 1] in events;
    }
  }

  /**
    Each sample has one timer, and it fires once. An outdated sample is withdrawn exactly when that one
    write succeeds: if it fails, nothing retries it, and the sample stays held and advertised until the
    next publish or the close, though no reader is given it.
   */
  lemma ExpiryHasOneChance(p: State, now: Time, writeOk: bool, later: seq<Event>)
    requires Agrees(p) && p.sample.Some? && !Current(p.sample.value, now)
    requires forall e | e in later :: Uneventful(e, p.version)
    ensures var p1 := Step(p, Expire(p.version, now, writeOk));
            var p' := Run(p1, later);
            && (p'.sample.None? <==> writeOk) && (!Advertised(p') <==> writeOk)
            && (!writeOk ==> p'.sample == p.sample)
            && p1.wire == (if writeOk then p.wire + [Invalidated] else p.wire)
            && p1.wire <= p'.wire && OnlySingles(p'.wire[|p1.wire|..])
  {
    var p1 := Step(p, Expire(p.version, now, writeOk));
    NothingMoves(p1, later);
    StepKeepsAgreement(p, Expire(p.version, now, writeOk));
  }

  const READ := Sample(5, 10, 20, false)

  /** Such a sample is within reach: published, then its one expiry write fails. */
  lemma FailedExpiryStaysAdvertised()
    ensures var p := Run(NEW, [Publish(READ, true), Expire(1, 20, false)]);
            && p.sample == Some(READ) && !Current(READ, 20) && Advertised(p)
            && p.wire == [Measured(READ)] && !p.closed
  {
    var first, second := Publish(READ, true), Expire(1, 20, false);
    assert [first, second][..1] == [first] && [first][..0] == [];
    assert Run(NEW, [first]) == Step(NEW, first);
  }

  /** So is a registration that comes too late: nothing is held, or ever will be, and "available" is advertised. */
  lemma RegisteredAfterClose()
    ensures var p := Run(NEW, [Close, AddUseCase]);
            p.closed && p.sample == None && Advertised(p) && !Agrees(p)
  {
    var first, second := Close, AddUseCase;
    assert [first, second][..1] == [first] && [first][..0] == [];
    assert Run(NEW, [first]) == Step(NEW, first);
  }
}
