/**
  The recovery supervisor: one retry machine per device, with capped exponential backoff, exhaustion and
  an edge-triggered restart request (eebus-bridge/internal/eebus/recovery.go).

  A tick sees three readings of the registry: the health list, the stale set, and the evidence asked for
  while it runs. They are separate inputs, so callbacks may land between them.
 */
module Recovery {
  import opened Common
  import R = Registry

  type Time = R.Time

  datatype RecoveryState = Untrusted | Disconnected | GracePeriod | Recovering | Healthy | Exhausted

  datatype Record = Record(
    state: RecoveryState,
    attempts: nat,
    firstStaleAt: Time,
    lastAttemptAt: Time,
    nextAttemptAt: Time,
    lastTransitionAt: Time)

  datatype Config = Config(staleThreshold: Time, gracePeriod: Time, baseBackoff: Time, maxBackoff: Time,
                           maxAttempts: nat)

  /** Settings as given may be absent or contradictory; the supervisor starts from repaired ones. */
  function Normalised(staleThreshold: Time, gracePeriod: Time, baseBackoff: int, maxBackoff: int,
                      maxAttempts: int): (c: Config)
    ensures Usable(c)
  {
    var base := if baseBackoff <= 0 then gracePeriod else baseBackoff;
    Config(staleThreshold, gracePeriod, base, if maxBackoff < base then base else maxBackoff,
           if maxAttempts <= 0 then 3 else maxAttempts)
  }

  predicate Usable(c: Config) {
    c.maxAttempts > 0 && c.baseBackoff <= c.maxBackoff
  }

  /** A device as the health list shows it. */
  datatype Listing = Listing(connected: bool, trusted: bool, trustKnown: bool, successOnConnect: bool)

  function ListingOf(h: R.Health): Listing {
    Listing(h.connected, h.trusted, h.trustKnown, h.monitoringSuccessOnConnect && R.HeartbeatOnConnection(h))
  }

  /** What one tick sees of one device. */
  datatype Sight = Sight(stale: bool, listing: Option<Listing>, evidence: Option<R.Health>)

  /** The sight of a device when the three readings find one and the same record. */
  function Seen(c: Config, health: Option<R.Health>, now: Time): Sight {
    Sight(health.Some? && R.Stale(health.value, c.staleThreshold, c.gracePeriod, now),
          if health.Some? then Some(ListingOf(health.value)) else None,
          health)
  }

  predicate SuccessSince(sight: Sight, since: Time) {
    sight.evidence.Some? && R.SuccessSince(sight.evidence.value, since)
  }

  predicate Distrusted(listing: Listing) {
    listing.trustKnown && !listing.trusted
  }

  // ------------------------------------------------------------------ backoff

  function Pow2(n: nat): nat {
    if n == 0 then 1 else 2 * Pow2(n - 1)
  }

  /** The wait after the n-th attempt: doubled every time, up to a ceiling. */
  function BackoffOf(c: Config, attempt: nat): Time
    requires attempt > 0
  {
    Min(c.baseBackoff * Pow2(attempt - 1), c.maxBackoff)
  }

  lemma CeilingStays(c: Config, from: nat, to: nat)
    requires 0 < from <= to && c.baseBackoff * Pow2(from - 1) >= c.maxBackoff
    ensures BackoffOf(c, to) == c.maxBackoff
  {
    if from < to {
      CeilingStays(c, from, to - 1);
      assert Pow2(to - 1) == 2 * Pow2(to - 2);
      assert c.baseBackoff * Pow2(to - 1) == 2 * (c.baseBackoff * Pow2(to - 2));
    }
  }

  method Backoff(c: Config, attempt: nat) returns (backoff: Time)
    requires Usable(c) && attempt > 0
    ensures backoff == BackoffOf(c, attempt)
  {
    backoff := c.baseBackoff;
    var count := 1;
    while count < attempt && backoff < c.maxBackoff
      invariant 1 <= count <= attempt
      invariant backoff == BackoffOf(c, count)
    {
      assert c.baseBackoff * Pow2(count) == 2 * (c.baseBackoff * Pow2(count - 1));
      backoff := backoff * 2;
      if backoff > c.maxBackoff {
        backoff := c.maxBackoff;
      }
      count := count + 1;
    }
    if count < attempt {
      CeilingStays(c, count, attempt);
    }
  }

  // ------------------------------------------------------------------ one device, one tick

  function Created(r: Option<Record>, now: Time): Record {
    if r.Some? then r.value else Record(Healthy, 0, 0, 0, 0, now)
  }

  function Moved(r: Record, state: RecoveryState, now: Time): Record {
    if r.state == state then r else r.(state := state, lastTransitionAt := now)
  }

  predicate Due(r: Record, now: Time) {
    r.state != GracePeriod || now >= r.nextAttemptAt
  }

  /** Whether recover issues a reconnect command. */
  predicate Attempts(c: Config, r: Record, now: Time) {
    r.state != Recovering && r.state != Exhausted && Due(r, now) && r.attempts < c.maxAttempts
  }

  function Recovered(c: Config, r: Record, now: Time): Record {
    if r.state == Recovering || r.state == Exhausted || !Due(r, now) then r
    else if r.attempts >= c.maxAttempts then Moved(r, Exhausted, now)
    else Record(GracePeriod, r.attempts + 1, if r.attempts == 0 && r.firstStaleAt == 0 then now else r.firstStaleAt,
                now, now + BackoffOf(c, r.attempts + 1), now)
  }

  /** The evidence that ends a recovery: later than the last attempt, or on this connection when there was none. */
  predicate Proves(r: Record, listing: Listing, sight: Sight) {
    if r.lastAttemptAt != 0 then SuccessSince(sight, r.lastAttemptAt) else listing.successOnConnect
  }

  function Reconciled(c: Config, r: Option<Record>, listing: Listing, sight: Sight, now: Time): Record {
    if Distrusted(listing) then Moved(Created(r, now), Untrusted, now)
    else if !listing.connected then Moved(Created(r, now), Disconnected, now)
    else if r.None? then
      if listing.successOnConnect then Created(r, now)
      else Moved(Created(r, now), GracePeriod, now).(nextAttemptAt := now + c.gracePeriod)
    else if Proves(r.value, listing, sight) then
      Moved(r.value.(attempts := 0, firstStaleAt := 0, lastAttemptAt := 0, nextAttemptAt := 0), Healthy, now)
    else if r.value.state == Exhausted then r.value
    else if r.value.state == GracePeriod && Due(r.value, now) then Recovered(c, r.value, now)
    else
      var waiting := Moved(r.value, GracePeriod, now);
      if waiting.nextAttemptAt == 0 then waiting.(nextAttemptAt := now + c.gracePeriod) else waiting
  }

  /** One tick over one device. */
  function Ticked(c: Config, r: Option<Record>, sight: Sight, now: Time): Option<Record> {
    if sight.stale then Some(Recovered(c, Created(r, now), now))
    else if sight.listing.None? then r
    else Some(Reconciled(c, r, sight.listing.value, sight, now))
  }

  /** Whether that tick issues a reconnect command. */
  predicate Commands(c: Config, r: Option<Record>, sight: Sight, now: Time) {
    if sight.stale then Attempts(c, Created(r, now), now)
    else
      && sight.listing.Some? && !Distrusted(sight.listing.value) && sight.listing.value.connected
      && r.Some? && !Proves(r.value, sight.listing.value, sight)
      && r.value.state == GracePeriod && Attempts(c, r.value, now)
  }

  // ------------------------------------------------------------------ the supervisor object

  datatype Command = ClearEntities(ski: Ski) | Unregister(ski: Ski) | Register(ski: Ski)

  function Reconnect(ski: Ski): seq<Command> {
    [ClearEntities(ski), Unregister(ski), Register(ski)]
  }

  lemma ReconnectIs(ski: Ski)
    ensures Reconnect(ski) == [ClearEntities(ski), Unregister(ski), Register(ski)]
  {
  }

  /** The commands sent about one device, in order. */
  function Sent(commands: seq<Command>, ski: Ski): seq<Command> {
    if commands == [] then []
    else if commands[0].ski == ski then [commands[0]] + Sent(commands[1..], ski)
    else Sent(commands[1..], ski)
  }

  lemma {:induction false} SentAppends(before: seq<Command>, after: seq<Command>, ski: Ski)
    ensures Sent(before + after, ski) == Sent(before, ski) + Sent(after, ski)
  {
    if before == [] {
      assert before + after == after;
    } else {
      SentAppends(before[1..], after, ski);
      assert (before + after)[1..] == before[1..] + after;
    }
  }

  lemma SentReconnect(target: Ski, ski: Ski)
    ensures Sent(Reconnect(target), ski) == if target == ski then Reconnect(ski) else []
  {
    var third := [Register(target)];
    var second := [Unregister(target)] + third;
    assert third[1..] == [] && second[1..] == third && Reconnect(target)[1..] == second;
    assert Sent(third, ski) == if target == ski then third else [];
    assert Sent(second, ski) == if target == ski then second else [];
  }

  /** The commands sent about one device come in turns: its entities cleared, its link taken down, and set up again. */
  predicate InOrder(sent: seq<Command>, ski: Ski) {
    && |sent| % 3 == 0
    && forall i | 0 <= i < |sent| ::
         sent[i] == if i % 3 == 0 then ClearEntities(ski) else if i % 3 == 1 then Unregister(ski) else Register(ski)
  }

  lemma ReconnectKeepsOrder(sent: seq<Command>, ski: Ski)
    requires InOrder(sent, ski)
    ensures InOrder(sent + Reconnect(ski), ski)
  {
    var after := sent + Reconnect(ski);
    forall i | 0 <= i < |after|
      ensures after[i] == if i % 3 == 0 then ClearEntities(ski)
                          else if i % 3 == 1 then Unregister(ski) else Register(ski)
    {
      assert i >= |sent| ==> i % 3 == i - |sent|;
    }
  }

  /** The readings one tick takes. */
  datatype Input = Input(now: Time, health: map<Ski, Listing>, stale: set<Ski>, evidence: map<Ski, R.Health>)

  function SightOf(i: Input, ski: Ski): Sight {
    Sight(ski in i.stale,
          if ski in i.health then Some(i.health[ski]) else None,
          if ski in i.evidence then Some(i.evidence[ski]) else None)
  }

  function RecordOf(records: map<Ski, Record>, ski: Ski): Option<Record> {
    if ski in records then Some(records[ski]) else None
  }

  predicate Relevant(listing: Listing) {
    listing.connected && (!listing.trustKnown || listing.trusted)
  }

  predicate IsExhausted(records: map<Ski, Record>, ski: Ski) {
    ski in records && records[ski].state == Exhausted
  }

  /** At least one device matters, and every one that does has used up its attempts. */
  predicate AllExhausted(records: map<Ski, Record>, health: map<Ski, Listing>) {
    && (exists ski :: ski in health && Relevant(health[ski]))
    && forall ski :: ski in health && Relevant(health[ski]) ==> IsExhausted(records, ski)
  }

  /** The supervisor between ticks, and whether the last of them asked for a restart. */
  datatype Supervisor = Supervisor(records: map<Ski, Record>, signalled: bool, requested: bool)

  /** What a tick leads to: each record takes its own step, and the restart is decided on the outcome. */
  ghost predicate Ticks(c: Config, s: Supervisor, i: Input, s': Supervisor) {
    && (forall ski :: RecordOf(s'.records, ski) == Ticked(c, RecordOf(s.records, ski), SightOf(i, ski), i.now))
    && (s'.requested <==> AllExhausted(s'.records, i.health) && !s.signalled)
    && (s'.signalled <==> AllExhausted(s'.records, i.health))
  }

  /** One device's part of a tick: a device already visited has taken its step, another none. */
  ghost predicate Progress(
    c: Config, i: Input, ski: Ski, visited: set<Ski>,
    records0: map<Ski, Record>, commands0: seq<Command>, records: map<Ski, Record>, commands: seq<Command>)
  {
    var was, sight := RecordOf(records0, ski), SightOf(i, ski);
    if ski in visited then
      && RecordOf(records, ski) == Ticked(c, was, sight, i.now)
      && Sent(commands, ski) == Sent(commands0, ski) + if Commands(c, was, sight, i.now) then Reconnect(ski) else []
    else
      RecordOf(records, ski) == was && Sent(commands, ski) == Sent(commands0, ski)
  }

  /** A device that is neither stale nor listed is not touched. */
  lemma Unvisited(i: Input, ski: Ski, records: map<Ski, Record>, c: Config)
    ensures ski !in i.stale + i.health.Keys ==>
              && Ticked(c, RecordOf(records, ski), SightOf(i, ski), i.now) == RecordOf(records, ski)
              && !Commands(c, RecordOf(records, ski), SightOf(i, ski), i.now)
  {
    hide Recovered, Reconciled, Attempts;
  }

  class RecoverySupervisor {
    const config: Config
    var records: map<Ski, Record>
    var restartSignalled: bool
    var commands: seq<Command>

    constructor (staleThreshold: Time, gracePeriod: Time, baseBackoff: int, maxBackoff: int, maxAttempts: int)
      ensures config == Normalised(staleThreshold, gracePeriod, baseBackoff, maxBackoff, maxAttempts)
      ensures config.staleThreshold == staleThreshold && config.gracePeriod == gracePeriod
      ensures config.baseBackoff == if baseBackoff > 0 then baseBackoff else gracePeriod
      ensures config.maxBackoff == if maxBackoff >= config.baseBackoff then maxBackoff else config.baseBackoff
      ensures config.maxAttempts == if maxAttempts > 0 then maxAttempts else 3
      ensures records == map[] && !restartSignalled && commands == []
    {
      config := Normalised(staleThreshold, gracePeriod, baseBackoff, maxBackoff, maxAttempts);
      records, restartSignalled, commands := map[], false, [];
    }

    method RecordLocked(ski: Ski, now: Time) returns (r: Record)
      modifies this`records
      ensures r == Created(RecordOf(old(records), ski), now)
      ensures records == old(records)[ski := r]
    {
      if ski !in records {
        records := records[ski := Record(Healthy, 0, 0, 0, 0, now)];
      }
      r := records[ski];
    }

    method Recover(ski: Ski, now: Time)
      requires Usable(config)
      modifies this`records, this`commands
      ensures var r := Created(RecordOf(old(records), ski), now);
              && records == old(records)[ski := Recovered(config, r, now)]
              && commands == old(commands) + if Attempts(config, r, now) then Reconnect(ski) else []
    {
      hide BackoffOf;
      var r := RecordLocked(ski, now);
      if r.state == Recovering || r.state == Exhausted {
        return;
      }
      if r.state == GracePeriod && now < r.nextAttemptAt {
        return;
      }
      if r.attempts >= config.maxAttempts {
        records := records[ski := Moved(r, Exhausted, now)];
        return;
      }
      if r.attempts == 0 && r.firstStaleAt == 0 {
        r := r.(firstStaleAt := now);
      }
      r := Moved(r.(attempts := r.attempts + 1, lastAttemptAt := now), Recovering, now);
      records := records[ski := r];
      var attempt := r.attempts;

      commands := commands + Reconnect(ski);

      r := RecordLocked(ski, now);
      if r.state == Recovering && r.attempts == attempt {
        var backoff := Backoff(config, attempt);
        records := records[ski := Moved(r.(nextAttemptAt := now + backoff), GracePeriod, now)];
      }
    }

    method ReconcileHealthy(ski: Ski, listing: Listing, sight: Sight, now: Time)
      requires Usable(config)
      modifies this`records, this`commands
      ensures var was := RecordOf(old(records), ski);
              && records == old(records)[ski := Reconciled(config, was, listing, sight, now)]
              && (sight.listing == Some(listing) && !sight.stale ==>
                    commands == old(commands) + if Commands(config, was, sight, now) then Reconnect(ski) else [])
    {
      var known := ski in records;
      if listing.trustKnown && !listing.trusted {
        var r := RecordLocked(ski, now);
        records := records[ski := Moved(r, Untrusted, now)];
        return;
      }
      if !listing.connected {
        var r := RecordLocked(ski, now);
        records := records[ski := Moved(r, Disconnected, now)];
        return;
      }
      if !known {
        var r := RecordLocked(ski, now);
        if !listing.successOnConnect {
          r := Moved(r, GracePeriod, now).(nextAttemptAt := now + config.gracePeriod);
        }
        records := records[ski := r];
        return;
      }
      var r := records[ski];
      var retryAfterGrace := r.state == GracePeriod && now >= r.nextAttemptAt;
      var monitoringRecovered := r.lastAttemptAt != 0 && SuccessSince(sight, r.lastAttemptAt);
      if monitoringRecovered || (r.lastAttemptAt == 0 && listing.successOnConnect) {
        r := r.(attempts := 0, firstStaleAt := 0, lastAttemptAt := 0, nextAttemptAt := 0);
        records := records[ski := Moved(r, Healthy, now)];
        return;
      }
      if r.state == Exhausted {
        return;
      }
      if retryAfterGrace {
        Recover(ski, now);
        return;
      }
      r := Moved(r, GracePeriod, now);
      if r.nextAttemptAt == 0 {
        r := r.(nextAttemptAt := now + config.gracePeriod);
      }
      records := records[ski := r];
    }

    method RecoverStale(i: Input)
      requires Usable(config)
      modifies this`records, this`commands
      ensures forall ski :: Progress(config, i, ski, i.stale, old(records), old(commands), records, commands)
    {
      hide Recovered, Attempts, Sent, Reconnect;
      var todo := i.stale;
      ghost var visited: set<Ski> := {};
      while todo != {}
        invariant visited !! todo && visited + todo == i.stale
        invariant forall ski :: Progress(config, i, ski, visited, old(records), old(commands), records, commands)
        decreases todo
      {
        var ski :| ski in todo;
        todo := todo - {ski};
        ghost var was, before := records, commands;
        assert Progress(config, i, ski, visited, old(records), old(commands), records, commands);
        Recover(ski, i.now);
        Spoke(before, commands, ski);
        visited := visited + {ski};
        forall other
          ensures Progress(config, i, other, visited, old(records), old(commands), records, commands)
        {
          assert Progress(config, i, other, visited - {ski}, old(records), old(commands), was, before);
        }
      }
    }

    method ReconcileListed(i: Input, ghost records0: map<Ski, Record>, ghost commands0: seq<Command>)
      requires Usable(config)
      requires forall ski :: Progress(config, i, ski, i.stale, records0, commands0, records, commands)
      modifies this`records, this`commands
      ensures forall ski :: Progress(config, i, ski, i.stale + i.health.Keys, records0, commands0, records, commands)
    {
      hide Reconciled, Commands, Sent;
      var todo := i.health.Keys - i.stale;
      ghost var visited := i.stale;
      while todo != {}
        invariant visited !! todo && visited + todo == i.stale + i.health.Keys && i.stale <= visited
        invariant forall ski :: Progress(config, i, ski, visited, records0, commands0, records, commands)
        decreases todo
      {
        var ski :| ski in todo;
        todo := todo - {ski};
        ghost var was, before := records, commands;
        assert Progress(config, i, ski, visited, records0, commands0, records, commands);
        ReconcileHealthy(ski, i.health[ski], SightOf(i, ski), i.now);
        Spoke(before, commands, ski);
        visited := visited + {ski};
        forall other
          ensures Progress(config, i, other, visited, records0, commands0, records, commands)
        {
          assert Progress(config, i, other, visited - {ski}, records0, commands0, was, before);
        }
      }
      assert visited == i.stale + i.health.Keys;
    }

    /** One tick over every device: each gets exactly its own step, and its own commands. */
    method Tick(i: Input) returns (restartRequired: bool, exhausted: set<Ski>)
      requires Usable(config)
      modifies this
      ensures Ticks(config, Supervisor(old(records), old(restartSignalled), false), i,
                    Supervisor(records, restartSignalled, restartRequired))
      ensures forall ski :: Sent(commands, ski) ==
                            Sent(old(commands), ski) +
                            if Commands(config, RecordOf(old(records), ski), SightOf(i, ski), i.now)
                            then [ClearEntities(ski), Unregister(ski), Register(ski)] else []
      ensures forall ski :: InOrder(Sent(old(commands), ski), ski) ==> InOrder(Sent(commands, ski), ski)
      ensures exhausted == set ski | ski in i.health && Relevant(i.health[ski]) && IsExhausted(records, ski)
    {
      hide AllExhausted, Recovered, Reconciled, Attempts, Sent, Reconnect, InOrder, Ticked, Commands;
      RecoverStale(i);
      ReconcileListed(i, old(records), old(commands));
      forall ski
        ensures RecordOf(records, ski) == Ticked(config, RecordOf(old(records), ski), SightOf(i, ski), i.now)
        ensures Sent(commands, ski) ==
                Sent(old(commands), ski) +
                if Commands(config, RecordOf(old(records), ski), SightOf(i, ski), i.now)
                then [ClearEntities(ski), Unregister(ski), Register(ski)] else []
        ensures InOrder(Sent(old(commands), ski), ski) ==> InOrder(Sent(commands, ski), ski)
      {
        assert Progress(config, i, ski, i.stale + i.health.Keys, old(records), old(commands), records, commands);
        ReconnectIs(ski);
        Unvisited(i, ski, old(records), config);
        assert Sent(old(commands), ski) + [] == Sent(old(commands), ski);
        if InOrder(Sent(old(commands), ski), ski) {
          ReconnectKeepsOrder(Sent(old(commands), ski), ski);
        }
      }
      restartRequired, exhausted := RestartDecision(i.health);
    }

    lemma Spoke(before: seq<Command>, after: seq<Command>, target: Ski)
      requires after == before || after == before + Reconnect(target)
      ensures forall ski :: Sent(after, ski) == Sent(before, ski) + if ski == target
                                                                       && after != before then Reconnect(ski) else []
    {
      forall ski
        ensures Sent(after, ski) == Sent(before, ski) + if ski == target && after != before then Reconnect(ski) else []
      {
        SentAppends(before, Reconnect(target), ski);
        SentReconnect(target, ski);
      }
    }

    method RestartDecision(health: map<Ski, Listing>) returns (restart: bool, exhausted: set<Ski>)
      modifies this`restartSignalled
      ensures exhausted == set ski | ski in health && Relevant(health[ski]) && IsExhausted(records, ski)
      ensures restart <==> AllExhausted(records, health) && !old(restartSignalled)
      ensures restartSignalled <==> AllExhausted(records, health)
    {
      var relevant := set ski | ski in health && Relevant(health[ski]);
      exhausted := set ski | ski in relevant && IsExhausted(records, ski);
      var allExhausted := |relevant| > 0 && |exhausted| == |relevant|;
      SubsetBySize(exhausted, relevant);
      if relevant != {} {
        var ski :| ski in relevant;
        assert ski in health && Relevant(health[ski]);
      } else {
        assert forall ski :: ski in health && Relevant(health[ski]) ==> ski in relevant;
      }
      assert exhausted == relevant <==> forall ski | ski in relevant :: IsExhausted(records, ski);
      restart := allExhausted && !restartSignalled;
      restartSignalled := allExhausted;
    }
  }

  lemma {:induction false} SubsetBySize<T>(small: set<T>, large: set<T>)
    requires small <= large
    ensures |small| <= |large| && (|small| == |large| <==> small == large)
  {
    assert |large| == |small| + |large - small| by {
      assert large == small + (large - small);
    }
    if small != large {
      var x :| x in large && x !in small;
      assert x in large - small;
    }
  }
}
