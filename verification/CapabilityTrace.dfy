/**
  What a capability entry says, read off the trace of callbacks alone, and the proof that the registry's
  table agrees with it (eebus-bridge/internal/eebus/capabilities.go, eebus-bridge/internal/eebus/registry.go).
 */
module CapabilityTrace {
  import opened Common
  import opened State
  import opened Registry
  import opened RegistryRuns
  import opened HealthEvidence

  // ------------------------------------------------------------------ what the trace says

  /** Known, and without a connection. */
  predicate Away(events: seq<Event>) {
    Known(events) && !Up(events)
  }

  predicate Switches(e: Event, k: CapabilityKey) {
    e.LocalSwitch? && e.capability == k
  }

  /** The last local switch of a capability. */
  predicate Enabled(local: Local, events: seq<Event>, k: CapabilityKey)
    decreases |events|
  {
    if events == [] then !Disabled(local, k)
    else if Switches(Last(events), k) then Last(events).enabled
    else Enabled(local, Init(events), k)
  }

  /** An entity was added in this lifetime and has not been taken away. */
  predicate Bound(events: seq<Event>, entity: Entity)
    decreases |events|
  {
    events != [] &&
    var e, before := Last(events), Init(events);
    if Is(e, RemoveDevice) then false
    else if e.LocalSwitch? || Tombstoned(before) then Bound(before, entity)
    else
      match e.op
      case AddDevice(entities) => entity in entities
      case UpsertObservation(added) => added == Some(entity) || Bound(before, entity)
      case RemoveEntity(removed) => removed != entity && Bound(before, entity)
      case ClearEntities => false
      case _ => Bound(before, entity)
  }

  /** What a source last said of a capability in this lifetime. */
  predicate Reported(events: seq<Event>, k: CapabilityKey, source: Source)
    decreases |events|
  {
    events != [] &&
    var e, before := Last(events), Init(events);
    if Is(e, RemoveDevice) then false
    else if e.On? && e.op.RecordSourceSupport? && e.op.capability == k && e.op.source == source && !Tombstoned(before)
    then e.op.advertised
    else Reported(before, k, source)
  }

  ghost predicate AnyBound(events: seq<Event>) {
    exists entity :: Bound(events, entity)
  }

  ghost predicate AnyReported(events: seq<Event>, k: CapabilityKey) {
    exists source :: Reported(events, k, source)
  }

  // ------------------------------------------------------------------ the last callback, and what it does

  predicate IsAbout(op: Op, k: CapabilityKey) {
    (op.RecordSupport? || op.RecordSourceSupport? || op.RecordRead? || op.RecordEntityNotBound?
     || op.RecordMissingEntity?)
    && op.capability == k
  }

  /** The last callback is about the capability, and the device is not a removed one. */
  predicate Speaks(events: seq<Event>, k: CapabilityKey) {
    events != [] && Last(events).On? && IsAbout(Last(events).op, k) && !Tombstoned(Init(events))
  }

  /** ... and it comes while the device is away. */
  predicate SpeaksLate(events: seq<Event>, k: CapabilityKey) {
    Speaks(events, k) && Away(Init(events))
  }

  predicate SpeaksInTime(events: seq<Event>, k: CapabilityKey) {
    Speaks(events, k) && !Away(Init(events))
  }

  /** The last callback starts the entry afresh. */
  predicate Resets(events: seq<Event>, k: CapabilityKey) {
    events != [] && (Is(Last(events), RemoveDevice) || Switches(Last(events), k))
  }

  /** The last callback says that the peer offers the capability. */
  ghost predicate Admits(events: seq<Event>, k: CapabilityKey) {
    SpeaksInTime(events, k) &&
    match Last(events).op
    case RecordSupport(_, advertised) => advertised
    case RecordSourceSupport(_, _, _) => AnyReported(events, k)
    case _ => false
  }

  /** The last callback says that it does not. */
  ghost predicate Refuses(events: seq<Event>, k: CapabilityKey) {
    SpeaksInTime(events, k) &&
    match Last(events).op
    case RecordSupport(_, advertised) => !advertised
    case RecordSourceSupport(_, _, _) => !AnyReported(events, k)
    case RecordMissingEntity(_) => AnyBound(Init(events))
    case _ => false
  }

  ghost function Refusing(k: CapabilityKey): Question { es => Refuses(es, k) }

  ghost function Reopening(k: CapabilityKey): Question { es => Resets(es, k) || Admits(es, k) }

  /** The peer is said not to offer the capability, and nothing has reopened the question. */
  ghost predicate Refused(events: seq<Event>, k: CapabilityKey) {
    Since(Refusing(k), Reopening(k), events)
  }

  /** The last callback loses the connection, or the trust. */
  predicate LosesDevice(events: seq<Event>) {
    events != [] && !Tombstoned(Init(events)) &&
    (Is(Last(events), MarkUntrusted) || (Is(Last(events), MarkDisconnected) && Up(Init(events))))
  }

  /** The last callback opens a connection. */
  predicate Connects(events: seq<Event>) {
    events != [] && Is(Last(events), MarkConnected) && !Tombstoned(Init(events)) && !Up(Init(events))
  }

  ghost function Darkening(k: CapabilityKey): Question {
    es => (LosesDevice(es) || SpeaksLate(es, k)) && !Refused(Init(es), k)
  }

  ghost function Returning(k: CapabilityKey): Question { es => Resets(es, k) || Connects(es) }

  /** Taken down by a loss, or by a callback that came too late, and neither connected nor reset since. */
  ghost predicate Lost(events: seq<Event>, k: CapabilityKey) {
    Since(Darkening(k), Returning(k), events)
  }

  /** The last callback is this one, of a device neither away nor refusing the capability. */
  ghost predicate Answers(events: seq<Event>, k: CapabilityKey, op: Op) {
    SpeaksInTime(events, k) && Is(Last(events), op) && !Refused(Init(events), k)
  }

  ghost function Answering(k: CapabilityKey, op: Op): Question { es => Answers(es, k, op) }

  ghost function Unbinding(k: CapabilityKey): Question {
    es => Answers(es, k, RecordEntityNotBound(k)) || (Answers(es, k, RecordMissingEntity(k)) && !AnyBound(Init(es)))
  }

  ghost function Reviving(k: CapabilityKey): Question { es => Connects(es) && Lost(Init(es), k) }

  /** Anything that may change what the entry says after an answer or a reconnection. */
  ghost function Unsettling(k: CapabilityKey): Question { es => Resets(es, k) || Speaks(es, k) || LosesDevice(es) }

  // ------------------------------------------------------------------ the standing of a capability

  datatype Standing = Open | Off | Readable | Failing | Refusal | Unbound | Down | Revived

  /** What a callback finds, and what the sources have said by then. */
  datatype Setting = Setting(enabled: bool, tombstoned: bool, away: bool, up: bool, anyBound: bool, anyReported: bool)

  /** What one callback makes of a standing. */
  function Moved(was: Standing, e: Event, k: CapabilityKey, s: Setting): Standing {
    if !s.enabled then Off
    else if Is(e, RemoveDevice) || Switches(e, k) then Open
    else if e.LocalSwitch? || s.tombstoned then was
    else
      match e.op
      case MarkConnected => if was == Down && !s.up then Revived else was
      case MarkUntrusted => if was == Refusal then was else Down
      case MarkDisconnected => if was == Refusal || !s.up then was else Down
      case RecordSupport(about, advertised) =>
        if about != k then was
        else if s.away then if was == Refusal then was else Down
        else if advertised then Open else Refusal
      case RecordSourceSupport(about, _, _) =>
        if about != k then was
        else if s.away then if was == Refusal then was else Down
        else if s.anyReported then Open else Refusal
      case RecordRead(about, succeeded) =>
        if about != k || was == Refusal then was
        else if s.away then Down
        else if succeeded then Readable else Failing
      case RecordEntityNotBound(about) =>
        if about != k || was == Refusal then was
        else if s.away then Down else Unbound
      case RecordMissingEntity(about) =>
        if about != k || was == Refusal then was
        else if s.away then Down
        else if s.anyBound then Refusal else Unbound
      case _ => was
  }

  ghost function StandingOf(local: Local, events: seq<Event>, k: CapabilityKey): Standing
    decreases |events|
  {
    if events == [] then if Disabled(local, k) then Off else Open
    else
      var before := Init(events);
      Moved(StandingOf(local, before, k), Last(events), k, TraceSetting(local, events, k))
  }

  ghost function TraceSetting(local: Local, events: seq<Event>, k: CapabilityKey): Setting
    requires events != []
  {
    var before := Init(events);
    Setting(Enabled(local, events, k), Tombstoned(before), Away(before), Up(before), AnyBound(before),
            AnyReported(events, k))
  }

  /** The same, as the record has it. */
  ghost function RecordSetting(d: Device, local: Local, op: Op, now: Time, k: CapabilityKey): Setting {
    Setting(!Disabled(local, k), d.removed, Disconnected(d), HealthOf(d).connected, Entities(d) != {},
            AnySupports(Sources(Apply(d, local, op, now).support, k)))
  }

  /** The entry that a standing stands for. */
  predicate Shows(entry: Entry, v: Standing) {
    match v
    case Open => entry.state == Unknown && entry.reason == Unspecified
    case Off => entry.state == Unsupported && entry.reason == LocalDisabled
    case Readable => entry.state == Available && entry.reason == Unspecified
    case Failing => entry.state == TemporarilyUnavailable && entry.reason == ReadFailed
    case Refusal => entry.state == Unsupported && entry.reason == RemoteNotAdvertised
    case Unbound => entry.state == TemporarilyUnavailable && entry.reason == EntityNotBound
    case Down => entry.state == TemporarilyUnavailable && entry.reason == DeviceDisconnected
    case Revived => entry.state == Unknown && entry.reason == EntityNotBound
  }

  /** A table shows a standing; before there is one, the capability is open or off. */
  predicate TableShows(table: Option<Table>, k: CapabilityKey, v: Standing) {
    if table.Some? then Shows(table.value[k], v) else v == Open || v == Off
  }

  // ------------------------------------------------------------------ the table follows the standing

  lemma EnsuredShows(table: Option<Table>, local: Local, k: CapabilityKey, v: Standing, now: Time)
    requires TableShows(table, k, v) && (v == Off <==> Disabled(local, k))
    ensures Shows(Ensured(table, local, now)[k], v)
  {
  }

  lemma ConnectionShows(t: Table, local: Local, k: CapabilityKey, v: Standing, now: Time)
    requires Shows(t[k], v) && (v == Off <==> Disabled(local, k))
    ensures Shows(OnConnect(t, local, now)[k], if v == Down then Revived else v)
    ensures Shows(OnDisconnect(t, local, now)[k], if v == Off || v == Refusal then v else Down)
  {
  }

  lemma SupportShows(t: Table, local: Local, k: CapabilityKey, v: Standing, about: CapabilityKey, advertised: bool,
                     away: bool, now: Time)
    requires Shows(t[k], v) && (v == Off <==> Disabled(local, k))
    ensures Shows(OnSupport(t, local, about, advertised, away, now)[k],
                  if about != k || v == Off then v
                  else if away then if v == Refusal then v else Down
                  else if advertised then Open else Refusal)
  {
  }

  lemma AttemptShows(t: Table, local: Local, k: CapabilityKey, v: Standing, about: CapabilityKey, away: bool,
                     state: CapabilityState, reason: Reason, told: Standing, now: Time)
    requires Shows(t[k], v) && (v == Off <==> Disabled(local, k)) && told != Off && told != Down
    requires Shows(Entry(state, reason, now), told)
    ensures Shows(OnAttempt(t, local, about, away, state, reason, now)[k],
                  if about != k || v == Off || v == Refusal then v else if away then Down else told)
  {
  }

  lemma OpMoves(d: Device, local: Local, op: Op, now: Time, k: CapabilityKey, v: Standing)
    requires TableShows(d.table, k, v) && (v == Off <==> Disabled(local, k)) && !op.SetCapability?
    requires d.removed ==> d == REMOVED
    ensures TableShows(Apply(d, local, op, now).table, k, Moved(v, On(op, now), k, RecordSetting(d, local, op, now, k)))
  {
    hide OnConnect, OnDisconnect, OnSupport, OnAttempt, Ensured, Entities, AnySupports, Shows;
    EnsuredShows(d.table, local, k, v, now);
    if op.RecordSupport? || op.RecordSourceSupport? {
      ReportMoves(d, local, op, now, k, v);
      hide Apply, Moved;
    } else if op.RecordRead? || op.RecordEntityNotBound? || op.RecordMissingEntity? {
      AnswerMoves(d, local, op, now, k, v);
      hide Apply, Moved;
    } else if op == MarkConnected || op == MarkUntrusted || op == MarkDisconnected {
      LinkMoves(d, local, op, now, k, v);
      hide Apply, Moved;
    }
  }

  lemma LinkMoves(d: Device, local: Local, op: Op, now: Time, k: CapabilityKey, v: Standing)
    requires TableShows(d.table, k, v) && (v == Off <==> Disabled(local, k)) && (d.removed ==> d == REMOVED)
    requires op == MarkConnected || op == MarkUntrusted || op == MarkDisconnected
    ensures TableShows(Apply(d, local, op, now).table, k,
                       Moved(v, On(op, now), k, RecordSetting(d, local, op, now, k)))
  {
    hide OnConnect, OnDisconnect, Ensured, Shows;
    EnsuredShows(d.table, local, k, v, now);
    ConnectionShows(Ensured(d.table, local, now), local, k, v, now);
  }

  lemma ReportMoves(d: Device, local: Local, op: Op, now: Time, k: CapabilityKey, v: Standing)
    requires TableShows(d.table, k, v) && (v == Off <==> Disabled(local, k)) && (d.removed ==> d == REMOVED)
    requires op.RecordSupport? || op.RecordSourceSupport?
    ensures TableShows(Apply(d, local, op, now).table, k, Moved(v, On(op, now), k, RecordSetting(d, local, op, now, k)))
  {
    hide OnSupport, Ensured, Entities, AnySupports, Shows;
    var t := Ensured(d.table, local, now);
    EnsuredShows(d.table, local, k, v, now);
    if op.RecordSupport? {
      SupportShows(t, local, k, v, op.capability, op.advertised, Disconnected(d), now);
    } else {
      var sources := Sources(d.support, op.capability)[op.source := op.advertised];
      assert Sources(d.support[op.capability := sources], op.capability) == sources;
      SupportShows(t, local, k, v, op.capability, AnySupports(sources), Disconnected(d), now);
    }
  }

  lemma AnswerMoves(d: Device, local: Local, op: Op, now: Time, k: CapabilityKey, v: Standing)
    requires TableShows(d.table, k, v) && (v == Off <==> Disabled(local, k)) && (d.removed ==> d == REMOVED)
    requires op.RecordRead? || op.RecordEntityNotBound? || op.RecordMissingEntity?
    ensures TableShows(Apply(d, local, op, now).table, k,
                       Moved(v, On(op, now), k, RecordSetting(d, local, op, now, k)))
  {
    hide OnAttempt, Ensured, Entities, Moved, TableShows, Apply, Shows;
    if d.removed {
      RemovedStays(d, local, op, now, k, v);
    } else {
      var t, away := Ensured(d.table, local, now), Disconnected(d);
      EnsuredShows(d.table, local, k, v, now);
      AttemptTable(d, local, op, now);
      var answer := AnswerOf(op, Entities(d) != {});
      AttemptShows(t, local, k, v, op.capability, away, answer.0, answer.1, answer.2, now);
      AnswerMove(v, op, now, k, RecordSetting(d, local, op, now, k));
      AttemptTableShows(OnAttempt(t, local, op.capability, away, answer.0, answer.1, now), k,
                        Moved(v, On(op, now), k, RecordSetting(d, local, op, now, k)));
    }
  }

  /** The state, the reason and the standing that an answer stands for. */
  function AnswerOf(op: Op, anyBound: bool): (answer: (CapabilityState, Reason, Standing))
    requires op.RecordRead? || op.RecordEntityNotBound? || op.RecordMissingEntity?
    ensures Shows(Entry(answer.0, answer.1, 0), answer.2) && answer.2 != Off && answer.2 != Down
  {
    if op.RecordRead? then
      if op.succeeded then (Available, Unspecified, Readable) else (TemporarilyUnavailable, ReadFailed, Failing)
    else if op.RecordMissingEntity? && anyBound then (Unsupported, RemoteNotAdvertised, Refusal)
    else (TemporarilyUnavailable, EntityNotBound, Unbound)
  }

  lemma AttemptTable(d: Device, local: Local, op: Op, now: Time)
    requires !d.removed && (op.RecordRead? || op.RecordEntityNotBound? || op.RecordMissingEntity?)
    ensures var answer := AnswerOf(op, Entities(d) != {});
            Apply(d, local, op, now).table == Some(OnAttempt(Ensured(d.table, local, now), local, op.capability,
                                                             Disconnected(d), answer.0, answer.1, now))
  {
    hide OnAttempt, Ensured, Entities, Disconnected;
  }

  lemma AnswerMove(v: Standing, op: Op, now: Time, k: CapabilityKey, s: Setting)
    requires op.RecordRead? || op.RecordEntityNotBound? || op.RecordMissingEntity?
    requires !s.tombstoned && (v == Off <==> !s.enabled)
    ensures Moved(v, On(op, now), k, s) ==
            if op.capability != k || v == Off || v == Refusal then v
            else if s.away then Down else AnswerOf(op, s.anyBound).2
  {
  }

  lemma AttemptTableShows(t: Table, k: CapabilityKey, v: Standing)
    requires Shows(t[k], v)
    ensures TableShows(Some(t), k, v)
  {
  }

  lemma RemovedStays(d: Device, local: Local, op: Op, now: Time, k: CapabilityKey, v: Standing)
    requires op.RecordRead? || op.RecordEntityNotBound? || op.RecordMissingEntity?
    requires d.removed && TableShows(d.table, k, v) && (v == Off <==> Disabled(local, k))
    ensures TableShows(Apply(d, local, op, now).table, k,
                       Moved(v, On(op, now), k, RecordSetting(d, local, op, now, k)))
  {
  }

  // ------------------------------------------------------------------ the rest of the record

  /** What the record says besides the table. */
  ghost predicate RecordSays(d: Device, events: seq<Event>) {
    && d.health.Some? == Known(events)
    && (forall entity :: entity in Entities(d) <==> Bound(events, entity))
    && (forall k, source :: (source in Sources(d.support, k) && Sources(d.support, k)[source])
                            <==> Reported(events, k, source))
  }

  lemma OpSays(d: Device, local: Local, events: seq<Event>)
    requires events != [] && Last(events).On? && RecordSays(d, Init(events)) && d.removed == Tombstoned(Init(events))
    requires d.removed ==> d == REMOVED
    ensures RecordSays(Apply(d, local, Last(events).op, Last(events).now), events)
  {
    hide Apply;
    OpBooks(d, local, events);
    forall entity ensures entity in Entities(Apply(d, local, Last(events).op, Last(events).now))
                     <==> Bound(events, entity) {
      OpBinds(d, local, events, entity);
    }
    forall k, source
      ensures var sources := Sources(Apply(d, local, Last(events).op, Last(events).now).support, k);
              source in sources && sources[source] <==> Reported(events, k, source)
    {
      OpReports(d, local, events, k, source);
    }
  }

  lemma OpBooks(d: Device, local: Local, events: seq<Event>)
    requires events != [] && Last(events).On? && d.health.Some? == Known(Init(events))
    requires d.removed == Tombstoned(Init(events)) && (d.removed ==> d == REMOVED)
    ensures Apply(d, local, Last(events).op, Last(events).now).health.Some? == Known(events)
  {
    hide OnConnect, OnDisconnect, OnSupport, OnAttempt, Ensured, Entities, AnySupports;
  }

  lemma OpBinds(d: Device, local: Local, events: seq<Event>, entity: Entity)
    requires events != [] && Last(events).On? && (entity in Entities(d) <==> Bound(Init(events), entity))
    requires d.removed == Tombstoned(Init(events)) && (d.removed ==> d == REMOVED)
    ensures entity in Entities(Apply(d, local, Last(events).op, Last(events).now)) <==> Bound(events, entity)
  {
    hide OnConnect, OnDisconnect, OnSupport, OnAttempt, Ensured, AnySupports;
  }

  lemma OpReports(d: Device, local: Local, events: seq<Event>, k: CapabilityKey, source: Source)
    requires events != [] && Last(events).On?
    requires source in Sources(d.support, k) && Sources(d.support, k)[source] <==> Reported(Init(events), k, source)
    requires d.removed == Tombstoned(Init(events)) && (d.removed ==> d == REMOVED)
    ensures var sources := Sources(Apply(d, local, Last(events).op, Last(events).now).support, k);
            source in sources && sources[source] <==> Reported(events, k, source)
  {
    hide Apply;
    SupportAfter(d, local, Last(events).op, Last(events).now);
  }

  lemma SupportAfter(d: Device, local: Local, op: Op, now: Time)
    ensures Apply(d, local, op, now).support ==
            if op.RemoveDevice? then map[]
            else if op.RecordSourceSupport? && !d.removed
            then d.support[op.capability := Sources(d.support, op.capability)[op.source := op.advertised]]
            else d.support
  {
    hide OnConnect, OnDisconnect, OnSupport, OnAttempt, Ensured, Entities, AnySupports;
  }

  lemma {:induction false} TraceTells(local: Local, events: seq<Event>)
    ensures RecordSays(After(local, events), events)
    decreases |events|
  {
    if events != [] {
      TraceTells(local, Init(events));
      TraceDecides(local, Init(events));
      var w := Run(World(UNKNOWN_DEVICE, local), Init(events));
      match Last(events)
      case On(op, now) => OpSays(w.device, w.local, events);
      case LocalSwitch(k, enabled, now) =>
        SwitchSays(w.device, w.local[k := enabled], events);
    }
  }

  lemma SwitchSays(d: Device, local: Local, events: seq<Event>)
    requires events != [] && Last(events).LocalSwitch? && RecordSays(d, Init(events))
    ensures RecordSays(Switched(d, local, Last(events).capability, Last(events).now), events)
  {
  }

  // ------------------------------------------------------------------ the table over a run

  lemma {:induction false} OffMeansDisabled(local: Local, events: seq<Event>, k: CapabilityKey)
    ensures StandingOf(local, events, k) == Off <==> !Enabled(local, events, k)
    decreases |events|
  {
    if events != [] {
      OffMeansDisabled(local, Init(events), k);
    }
  }

  lemma {:induction false} SwitchesTell(local: Local, events: seq<Event>, k: CapabilityKey)
    ensures Enabled(local, events, k) <==> !Disabled(Run(World(UNKNOWN_DEVICE, local), events).local, k)
    decreases |events|
  {
    hide Apply, Switched;
    if events != [] {
      SwitchesTell(local, Init(events), k);
    }
  }

  /** In every run without hand-written states the table shows each capability's standing. */
  lemma {:induction false} TableFollowsTrace(local: Local, events: seq<Event>, k: CapabilityKey)
    requires forall e | e in events :: !ByHand(e)
    ensures TableShows(After(local, events).table, k, StandingOf(local, events, k))
    decreases |events|
  {
    hide Apply, Switched, Moved, TableShows, Shows, Known, Tombstoned, Up, Bound, Reported, Enabled, AnySupports;
    if events == [] {
      NothingShown(local, k);
    } else {
      var before := Init(events);
      TableFollowsTrace(local, before, k);
      OffMeansDisabled(local, before, k);
      SwitchesTell(local, before, k);
      SwitchesTell(local, events, k);
      var w := Run(World(UNKNOWN_DEVICE, local), before);
      assert Last(events) in events;
      match Last(events)
      case On(op, now) =>
        OpMoves(w.device, w.local, op, now, k, StandingOf(local, before, k)) by { TraceDecides(local, before); }
        SettingAgrees(local, events, k);
      case LocalSwitch(about, enabled, now) =>
        SwitchMoves(w.device, w.local, about, enabled, now, k, StandingOf(local, before, k),
                    TraceSetting(local, events, k));
    }
  }

  lemma NothingShown(local: Local, k: CapabilityKey)
    ensures TableShows(After(local, []).table, k, StandingOf(local, [], k))
  {
  }

  /** The record's own view of what a callback finds is the trace's. */
  lemma SettingAgrees(local: Local, events: seq<Event>, k: CapabilityKey)
    requires events != [] && Last(events).On?
    ensures var w := Run(World(UNKNOWN_DEVICE, local), Init(events));
            TraceSetting(local, events, k) == RecordSetting(w.device, w.local, Last(events).op, Last(events).now, k)
  {
    hide Apply, Known, Bound, Reported, Enabled, Tombstoned, Up, AnySupports, Entities, Sources, AnyBound, AnyReported;
    TraceDecides(local, Init(events));
    RecordAgrees(local, Init(events), k);
    RecordAgrees(local, events, k);
    SwitchesTell(local, Init(events), k);
    SwitchesTell(local, events, k);
  }

  lemma RecordAgrees(local: Local, events: seq<Event>, k: CapabilityKey)
    ensures var d := After(local, events);
            && Disconnected(d) == Away(events)
            && HealthOf(d).connected == Up(events)
            && (Entities(d) != {}) == AnyBound(events)
            && AnySupports(Sources(d.support, k)) == AnyReported(events, k)
  {
    hide Known, Bound, Reported, Run, Entities, Sources, Tombstoned, Advertised, Up;
    TraceDecides(local, events);
    TraceTells(local, events);
    var d := After(local, events);
    if AnyBound(events) {
      var entity :| Bound(events, entity);
      assert entity in Entities(d);
    }
    if AnyReported(events, k) {
      var source :| Reported(events, k, source);
      assert source in Sources(d.support, k) && Sources(d.support, k)[source];
    }
  }

  lemma SwitchMoves(d: Device, local: Local, about: CapabilityKey, enabled: bool, now: Time, k: CapabilityKey,
                    v: Standing, s: Setting)
    requires TableShows(d.table, k, v) && (v == Off <==> Disabled(local, k))
    requires s.enabled <==> !Disabled(local[about := enabled], k)
    ensures TableShows(Switched(d, local[about := enabled], about, now).table, k,
                       Moved(v, LocalSwitch(about, enabled, now), k, s))
  {
    hide Set, Shows;
    if d.table.Some? {
      SwitchShows(d.table.value, local[about := enabled], about, k, v, now);
    }
  }

  lemma SwitchShows(t: Table, local: Local, about: CapabilityKey, k: CapabilityKey, v: Standing, now: Time)
    requires Shows(t[k], v)
    ensures Disabled(local, about) ==>
              Shows(Set(t, local, about, Unsupported, LocalDisabled, now)[k], if about == k then Off else v)
    ensures !Disabled(local, about) ==>
              Shows(Set(t, local, about, Unknown, Unspecified, now)[k], if about == k then Open else v)
  {
  }

  // ------------------------------------------------------------------ what each standing points to

  /** Each standing, and the callback it points to. */
  ghost predicate Points(v: Standing, events: seq<Event>, k: CapabilityKey) {
    && (v == Refusal <==> Refused(events, k))
    && (v == Down <==> Lost(events, k))
    && (v == Readable <==> Since(Answering(k, RecordRead(k, true)), Unsettling(k), events))
    && (v == Failing <==> Since(Answering(k, RecordRead(k, false)), Unsettling(k), events))
    && (v == Unbound <==> Since(Unbinding(k), Unsettling(k), events))
    && (v == Revived <==> Since(Reviving(k), Unsettling(k), events))
    && (v == Down ==> Away(events))
  }

  lemma DownIsAway(was: Standing, local: Local, events: seq<Event>, k: CapabilityKey)
    requires events != [] && (was == Down ==> Away(Init(events)))
    ensures Moved(was, Last(events), k, TraceSetting(local, events, k)) == Down ==> Away(events)
  {
    hide Enabled, AnyBound, AnyReported;
    KnownIsPresent(Init(events));
  }

  lemma RefusalStep(was: Standing, local: Local, events: seq<Event>, k: CapabilityKey)
    requires events != [] && (was == Off <==> !Enabled(local, Init(events), k))
    requires was != Off ==> (was == Refusal <==> Refused(Init(events), k))
    ensures var v := Moved(was, Last(events), k, TraceSetting(local, events, k));
            v != Off ==> (v == Refusal <==> Refused(events, k))
  {
    hide Since, Known, Up, Tombstoned, AnyBound, AnyReported;
    SinceGrows(Refusing(k), Reopening(k), events);
  }

  lemma DownStep(was: Standing, local: Local, events: seq<Event>, k: CapabilityKey)
    requires events != [] && (was == Off <==> !Enabled(local, Init(events), k))
    requires was != Off ==> (was == Refusal <==> Refused(Init(events), k)) && (was == Down <==> Lost(Init(events), k))
    requires was == Down ==> Away(Init(events))
    ensures var v := Moved(was, Last(events), k, TraceSetting(local, events, k));
            v != Off ==> (v == Down <==> Lost(events, k))
  {
    hide Since, Known, Up, Tombstoned, AnyBound, AnyReported, Refused;
    KnownIsPresent(Init(events));
    SinceGrows(Darkening(k), Returning(k), events);
  }

  lemma ReadStep(was: Standing, local: Local, events: seq<Event>, k: CapabilityKey, succeeded: bool)
    requires events != [] && (was == Off <==> !Enabled(local, Init(events), k))
    requires was != Off ==> (was == Refusal <==> Refused(Init(events), k))
    requires was != Off ==> (was == (if succeeded then Readable else Failing) <==>
                             Since(Answering(k, RecordRead(k, succeeded)), Unsettling(k), Init(events)))
    ensures var v := Moved(was, Last(events), k, TraceSetting(local, events, k));
            v != Off ==> (v == (if succeeded then Readable else Failing) <==>
                          Since(Answering(k, RecordRead(k, succeeded)), Unsettling(k), events))
  {
    hide Since, Known, Up, Tombstoned, AnyBound, AnyReported, Refused;
    SinceGrows(Answering(k, RecordRead(k, succeeded)), Unsettling(k), events);
  }

  lemma UnboundStep(was: Standing, local: Local, events: seq<Event>, k: CapabilityKey)
    requires events != [] && (was == Off <==> !Enabled(local, Init(events), k))
    requires was != Off ==> (was == Refusal <==> Refused(Init(events), k))
    requires was != Off ==> (was == Unbound <==> Since(Unbinding(k), Unsettling(k), Init(events)))
    ensures var v := Moved(was, Last(events), k, TraceSetting(local, events, k));
            v != Off ==> (v == Unbound <==> Since(Unbinding(k), Unsettling(k), events))
  {
    hide Since, Known, Up, Tombstoned, AnyBound, AnyReported, Refused;
    SinceGrows(Unbinding(k), Unsettling(k), events);
  }

  lemma RevivedStep(was: Standing, local: Local, events: seq<Event>, k: CapabilityKey)
    requires events != [] && (was == Off <==> !Enabled(local, Init(events), k))
    requires was != Off ==> (was == Down <==> Lost(Init(events), k))
    requires was != Off ==> (was == Revived <==> Since(Reviving(k), Unsettling(k), Init(events)))
    ensures var v := Moved(was, Last(events), k, TraceSetting(local, events, k));
            v != Off ==> (v == Revived <==> Since(Reviving(k), Unsettling(k), events))
  {
    hide Since, Known, Up, Tombstoned, AnyBound, AnyReported, Refused, Lost;
    SinceGrows(Reviving(k), Unsettling(k), events);
  }

  lemma {:induction false} StandingPoints(local: Local, events: seq<Event>, k: CapabilityKey)
    requires Enabled(local, events, k)
    ensures Points(StandingOf(local, events, k), events, k)
    decreases |events|
  {
    hide Since, Moved, Refused, Lost, Known, Up, Tombstoned, AnyBound, AnyReported;
    if events == [] {
      NothingPoints(k);
    } else {
      var before := Init(events);
      var was := StandingOf(local, before, k);
      OffMeansDisabled(local, before, k);
      OffMeansDisabled(local, events, k);
      if was != Off {
        StandingPoints(local, before, k);
      }
      RefusalStep(was, local, events, k);
      DownStep(was, local, events, k);
      DownIsAway(was, local, events, k);
      ReadStep(was, local, events, k, true);
      ReadStep(was, local, events, k, false);
      UnboundStep(was, local, events, k);
      RevivedStep(was, local, events, k);
    }
  }

  lemma NothingPoints(k: CapabilityKey)
    ensures Points(Open, [], k)
  {
  }

  // ------------------------------------------------------------------ the trace law

  ghost predicate Says(d: Device, k: CapabilityKey, state: CapabilityState, reason: Reason) {
    d.table.Some? && d.table.value[k].state == state && d.table.value[k].reason == reason
  }

  /**
    In every run without hand-written states each entry says what its callbacks say. It reads Available exactly
    when the capability is enabled and a successful read, of a device that was not away and had not refused it,
    is the last word: no later switch or removal, no later callback about the capability, no later loss. The
    reasons point to callbacks in the same way.
   */
  lemma EntryRestsOnTrace(local: Local, events: seq<Event>, k: CapabilityKey)
    requires forall e | e in events :: !ByHand(e)
    ensures var d, enabled := After(local, events), Enabled(local, events, k);
            && (Says(d, k, Available, Unspecified) <==>
                enabled && Since(Answering(k, RecordRead(k, true)), Unsettling(k), events))
            && (Says(d, k, TemporarilyUnavailable, ReadFailed) <==>
                enabled && Since(Answering(k, RecordRead(k, false)), Unsettling(k), events))
            && (Says(d, k, Unsupported, RemoteNotAdvertised) <==> enabled && Refused(events, k))
            && (Says(d, k, TemporarilyUnavailable, EntityNotBound) <==>
                enabled && Since(Unbinding(k), Unsettling(k), events))
            && (Says(d, k, Unknown, EntityNotBound) <==> enabled && Since(Reviving(k), Unsettling(k), events))
            && (Says(d, k, TemporarilyUnavailable, DeviceDisconnected) <==> enabled && Lost(events, k))
            && (Says(d, k, Unsupported, LocalDisabled) <==> !enabled && d.table.Some?)
  {
    hide Since, StandingOf, Refused, Lost, Known, Up, Tombstoned, Run;
    TableFollowsTrace(local, events, k);
    OffMeansDisabled(local, events, k);
    if Enabled(local, events, k) {
      StandingPoints(local, events, k);
    }
  }

  /** ... and no entry ever says anything else but Unknown without a reason. */
  lemma EntrySaysNothingElse(local: Local, events: seq<Event>, k: CapabilityKey)
    requires (forall e | e in events :: !ByHand(e)) && After(local, events).table.Some?
    ensures var entry := After(local, events).table.value[k];
            && (entry.state == Available <==> Says(After(local, events), k, Available, Unspecified))
            && (entry.reason == ReadFailed ==> entry.state == TemporarilyUnavailable)
            && (entry.reason == RemoteNotAdvertised ==> entry.state == Unsupported)
            && (entry.reason == LocalDisabled ==> entry.state == Unsupported)
            && (entry.reason == DeviceDisconnected ==> entry.state == TemporarilyUnavailable)
            && (entry.reason == EntityNotBound ==> entry.state == TemporarilyUnavailable || entry.state == Unknown)
            && (entry.reason == Unspecified ==> entry.state == Available || entry.state == Unknown)
  {
    hide StandingOf, Run;
    TableFollowsTrace(local, events, k);
  }

  /** A state set by hand stands, unless the capability is switched off; the other entries stay. */
  lemma HandIsObeyed(w: World, k: CapabilityKey, state: CapabilityState, reason: Reason, now: Time,
                     other: CapabilityKey)
    requires !w.device.removed
    ensures var after := Step(w, On(SetCapability(k, state, reason), now)).device;
            && (if Disabled(w.local, k) then Says(after, k, Unsupported, LocalDisabled)
                else Says(after, k, state, reason))
            && (other != k && w.device.table.Some? ==> after.table.value[other] == w.device.table.value[other])
  {
  }

  // ------------------------------------------------------------------ what is on the books

  /** The last callback enters the device in the catalog. */
  function Entering(): Question {
    es => es != [] && Last(es).On? && !Tombstoned(Init(es))
          && (Last(es).op.AddDevice? || Last(es).op.UpsertObservation? || Last(es).op.UpsertDescription?)
  }

  function Removing(): Question { es => es != [] && Is(Last(es), RemoveDevice) }

  /** The last callback writes the capability table. */
  function Tabulating(): Question {
    es => es != [] && Last(es).On? && !Tombstoned(Init(es))
          && (LosesDevice(es) || Connects(es) || Last(es).op.SetCapability? || Last(es).op.AddDevice?
              || Last(es).op.UpsertObservation? || exists k :: IsAbout(Last(es).op, k))
  }

  lemma OpEnters(d: Device, local: Local, events: seq<Event>)
    requires events != [] && Last(events).On? && d.removed == Tombstoned(Init(events)) && (d.removed ==> d == REMOVED)
    ensures var after := Apply(d, local, Last(events).op, Last(events).now);
            after.catalog.Some? <==> Entering()(events) || (d.catalog.Some? && !Removing()(events))
  {
    hide OnConnect, OnDisconnect, OnSupport, OnAttempt, Ensured, Entities, AnySupports, Sources;
  }

  lemma OpTabulates(d: Device, local: Local, events: seq<Event>)
    requires events != [] && Last(events).On? && d.removed == Tombstoned(Init(events)) && (d.removed ==> d == REMOVED)
    requires HealthOf(d).connected == Up(Init(events))
    ensures var after := Apply(d, local, Last(events).op, Last(events).now);
            after.table.Some? <==> Tabulating()(events) || (d.table.Some? && !Removing()(events))
  {
    hide OnConnect, OnDisconnect, OnSupport, OnAttempt, Ensured, Entities, AnySupports, Sources, Up, Tombstoned;
    var op := Last(events).op;
    if op.RecordSupport? || op.RecordSourceSupport? || op.RecordRead? || op.RecordEntityNotBound?
       || op.RecordMissingEntity? {
      assert IsAbout(op, op.capability);
    }
  }

  /** A device is in the catalog, and has a table, exactly if a callback of this lifetime put it there. */
  lemma {:induction false} BooksRestOnTrace(local: Local, events: seq<Event>)
    ensures After(local, events).catalog.Some? <==> Since(Entering(), Removing(), events)
    ensures After(local, events).table.Some? <==> Since(Tabulating(), Removing(), events)
    decreases |events|
  {
    hide Since, Entering, Removing, Tabulating;
    if events == [] {
      NothingSince(Entering(), Removing());
      NothingSince(Tabulating(), Removing());
    } else {
      BooksRestOnTrace(local, Init(events));
      SinceGrows(Entering(), Removing(), events);
      SinceGrows(Tabulating(), Removing(), events);
      TraceDecides(local, Init(events));
      var w := Run(World(UNKNOWN_DEVICE, local), Init(events));
      match Last(events)
      case On(op, now) =>
        OpEnters(w.device, w.local, events);
        OpTabulates(w.device, w.local, events);
        hide Apply;
      case LocalSwitch(k, enabled, now) => SwitchEnters(w.device, w.local[k := enabled], events);
    }
  }

  lemma SwitchEnters(d: Device, local: Local, events: seq<Event>)
    requires events != [] && Last(events).LocalSwitch?
    ensures !Entering()(events) && !Tabulating()(events) && !Removing()(events)
    ensures var after := Switched(d, local, Last(events).capability, Last(events).now);
            after.catalog == d.catalog && after.table.Some? == d.table.Some?
  {
  }

  // ------------------------------------------------------------------ trust and time

  /** The last callback grants trust. */
  function Granting(): Question { es => es != [] && (Is(Last(es), MarkTrusted) || Connects(es)) }

  function Revoking(): Question { es => es != [] && (Is(Last(es), MarkUntrusted) || Is(Last(es), RemoveDevice)) }

  /** The last callback that changed the connection or the trust of a device. */
  predicate Transits(events: seq<Event>) {
    events != [] &&
    (Is(Last(events), MarkTrusted) || Connects(events) || LosesDevice(events))
  }

  function LastTransition(events: seq<Event>): Time
    decreases |events|
  {
    if events == [] then 0
    else if Transits(events) then Last(events).now
    else LastTransition(Init(events))
  }

  /**
    The health record of a device that is known says that its trust is known, that it is trusted exactly
    when the last word on trust was a grant or a connection, and when its connection or trust last changed.
   */
  lemma {:induction false} TrustRestsOnTrace(local: Local, events: seq<Event>)
    ensures var d := After(local, events);
            && d.health.Some? == Known(events)
            && (Known(events) ==>
                  && d.health.value.trustKnown
                  && (d.health.value.trusted <==> Since(Granting(), Revoking(), events))
                  && d.health.value.lastTransitionAt == LastTransition(events))
    decreases |events|
  {
    hide Since;
    TraceTells(local, events);
    if events != [] {
      TrustRestsOnTrace(local, Init(events));
      SinceGrows(Granting(), Revoking(), events);
      TraceDecides(local, Init(events));
      KnownIsPresent(Init(events));
      var w := Run(World(UNKNOWN_DEVICE, local), Init(events));
      match Last(events)
      case On(op, now) => OpTransits(w.device, w.local, events);
      case LocalSwitch(k, enabled, now) => SwitchKeepsHealth(w.device, w.local[k := enabled], k, now);
    }
  }

  lemma OpTransits(d: Device, local: Local, events: seq<Event>)
    requires events != [] && Last(events).On? && d.removed == Tombstoned(Init(events)) && (d.removed ==> d == REMOVED)
    requires d.health.Some? == Known(Init(events)) && HealthOf(d).connected == Up(Init(events))
    requires Known(Init(events)) ==> !Tombstoned(Init(events)) && d.health.value.trustKnown
    ensures var after, e := Apply(d, local, Last(events).op, Last(events).now), Last(events);
            after.health.Some? ==>
              && after.health.value.trustKnown
              && (after.health.value.trusted <==>
                  Is(e, MarkTrusted) || Connects(events)
                  || (d.health.Some? && d.health.value.trusted && !Is(e, MarkUntrusted)))
              && after.health.value.lastTransitionAt ==
                 if Transits(events) then e.now else HealthOf(d).lastTransitionAt
  {
    hide OnConnect, OnDisconnect, OnSupport, OnAttempt, Ensured, Entities, AnySupports, Sources;
    var op := Last(events).op;
    if !(op.MarkConnected? || op.MarkTrusted? || op.MarkUntrusted? || op.MarkDisconnected? || op.RemoveDevice?) {
      OpKeepsTrust(d, local, op, Last(events).now);
      hide Apply;
    }
  }

  lemma OpKeepsTrust(d: Device, local: Local, op: Op, now: Time)
    requires !op.MarkConnected? && !op.MarkTrusted? && !op.MarkUntrusted? && !op.MarkDisconnected? && !op.RemoveDevice?
    ensures var after := Apply(d, local, op, now);
            && after.health.Some? == d.health.Some?
            && (d.health.Some? ==>
                  && after.health.value.trustKnown == d.health.value.trustKnown
                  && after.health.value.trusted == d.health.value.trusted
                  && after.health.value.lastTransitionAt == d.health.value.lastTransitionAt)
  {
    hide OnConnect, OnDisconnect, OnSupport, OnAttempt, Ensured, Entities, AnySupports, Sources;
  }

  /** The last callback is a success on a connection. */
  function Proving(): Question { es => es != [] && Is(Last(es), RecordMonitoringSuccess) && Up(Init(es)) }

  /** The last callback begins a connection or removes the device, or is a success that came without a connection. */
  function Disproving(): Question {
    es => es != [] && (Connects(es) || Is(Last(es), RemoveDevice)
                       || (Is(Last(es), RecordMonitoringSuccess) && !Up(Init(es))))
  }

  lemma OpProves(d: Device, local: Local, events: seq<Event>)
    requires events != [] && Last(events).On? && d.removed == Tombstoned(Init(events)) && (d.removed ==> d == REMOVED)
    requires HealthOf(d).connected == Up(Init(events))
    ensures HealthOf(Apply(d, local, Last(events).op, Last(events).now)).monitoringSuccessOnConnect <==>
            Proving()(events) || (HealthOf(d).monitoringSuccessOnConnect && !Disproving()(events))
  {
    hide Apply, Tombstoned, Up;
    OpSetsProof(d, local, Last(events).op, Last(events).now);
  }

  lemma OpSetsProof(d: Device, local: Local, op: Op, now: Time)
    requires d.removed ==> d == REMOVED
    ensures HealthOf(Apply(d, local, op, now)).monitoringSuccessOnConnect ==
            if op == RecordMonitoringSuccess then HealthOf(d).connected
            else if op == RemoveDevice || (op == MarkConnected && !d.removed && !HealthOf(d).connected) then false
            else HealthOf(d).monitoringSuccessOnConnect
  {
    hide OnConnect, OnDisconnect, OnSupport, OnAttempt, Ensured, Entities, AnySupports, Sources;
  }

  /** The record says "success on this connection" exactly while the trace does, up to the next connection. */
  lemma {:induction false} ProofRestsOnTrace(local: Local, events: seq<Event>)
    ensures HealthOf(After(local, events)).monitoringSuccessOnConnect <==> Since(Proving(), Disproving(), events)
    decreases |events|
  {
    hide Since, Proving, Disproving;
    if events == [] {
      NothingSince(Proving(), Disproving());
    } else {
      ProofRestsOnTrace(local, Init(events));
      SinceGrows(Proving(), Disproving(), events);
      TraceDecides(local, Init(events));
      var w := Run(World(UNKNOWN_DEVICE, local), Init(events));
      match Last(events)
      case On(op, now) =>
        OpProves(w.device, w.local, events);
        hide Apply;
      case LocalSwitch(k, enabled, now) =>
        SwitchKeepsHealth(w.device, w.local[k := enabled], k, now);
        SwitchProvesNothing(events);
    }
  }

  lemma SwitchProvesNothing(events: seq<Event>)
    requires events != [] && Last(events).LocalSwitch?
    ensures !Proving()(events) && !Disproving()(events)
  {
  }

  /** An entry that says the same as before is the same; a new one, or one that says something new, carries the time. */
  predicate Stamped(before: Option<Entry>, after: Option<Entry>, now: Time) {
    after.Some? ==>
      if before.Some? && after.value.state == before.value.state && after.value.reason == before.value.reason
      then after == before else after.value.lastChanged == now
  }

  function EntryOf(table: Option<Table>, k: CapabilityKey): Option<Entry> {
    if table.Some? then Some(table.value[k]) else None
  }

  lemma EnsuredStamps(table: Option<Table>, local: Local, now: Time, k: CapabilityKey)
    ensures var t := Ensured(table, local, now)[k];
            if table.Some? then t == table.value[k] else t.lastChanged == now
  {
  }

  lemma SetStamps(t: Table, local: Local, about: CapabilityKey, state: CapabilityState, reason: Reason, now: Time,
                  k: CapabilityKey)
    ensures Stamped(Some(t[k]), Some(Set(t, local, about, state, reason, now)[k]), now)
  {
  }

  lemma LinkStamps(t: Table, local: Local, now: Time, k: CapabilityKey)
    ensures Stamped(Some(t[k]), Some(OnConnect(t, local, now)[k]), now)
    ensures Stamped(Some(t[k]), Some(OnDisconnect(t, local, now)[k]), now)
  {
  }

  lemma SupportStamps(t: Table, local: Local, about: CapabilityKey, advertised: bool, away: bool, now: Time,
                      k: CapabilityKey)
    ensures Stamped(Some(t[k]), Some(OnSupport(t, local, about, advertised, away, now)[k]), now)
  {
    hide Set;
    SetStamps(t, local, about, TemporarilyUnavailable, DeviceDisconnected, now, k);
    SetStamps(t, local, about, Unknown, Unspecified, now, k);
    SetStamps(t, local, about, Unsupported, RemoteNotAdvertised, now, k);
  }

  lemma AttemptStamps(t: Table, local: Local, about: CapabilityKey, away: bool, state: CapabilityState, reason: Reason,
                      now: Time, k: CapabilityKey)
    ensures Stamped(Some(t[k]), Some(OnAttempt(t, local, about, away, state, reason, now)[k]), now)
  {
    hide Set;
    SetStamps(t, local, about, TemporarilyUnavailable, DeviceDisconnected, now, k);
    SetStamps(t, local, about, state, reason, now, k);
  }

  lemma OpStamps(d: Device, local: Local, op: Op, now: Time, k: CapabilityKey)
    ensures Stamped(EntryOf(d.table, k), EntryOf(Apply(d, local, op, now).table, k), now)
  {
    hide OnConnect, OnDisconnect, OnSupport, OnAttempt, Ensured, Entities, AnySupports, Sources, Set;
    var t := Ensured(d.table, local, now);
    EnsuredStamps(d.table, local, now, k);
    if !d.removed && (op.RecordRead? || op.RecordEntityNotBound? || op.RecordMissingEntity?) {
      var answer := AnswerOf(op, Entities(d) != {});
      AttemptTable(d, local, op, now);
      AttemptStamps(t, local, op.capability, Disconnected(d), answer.0, answer.1, now, k);
      hide Apply;
    } else if op.RecordSupport? {
      SupportStamps(t, local, op.capability, op.advertised, Disconnected(d), now, k);
    } else if op.RecordSourceSupport? {
      SupportStamps(t, local, op.capability, AnySupports(Sources(d.support, op.capability)[op.source := op.advertised]),
                    Disconnected(d), now, k);
    } else if op.SetCapability? {
      SetStamps(t, local, op.capability, op.state, op.reason, now, k);
    } else {
      LinkStamps(t, local, now, k);
    }
  }

  /** A table entry carries the time of the callback that last changed its state or its reason. */
  lemma ChangeIsStamped(w: World, e: Event, k: CapabilityKey)
    ensures Stamped(EntryOf(w.device.table, k), EntryOf(Step(w, e).device.table, k), e.now)
  {
    match e
    case On(op, now) =>
      OpStamps(w.device, w.local, op, now, k);
      hide Apply, Stamped;
    case LocalSwitch(about, enabled, now) =>
      if w.device.table.Some? {
        SetStamps(w.device.table.value, w.local[about := enabled], about, Unsupported, LocalDisabled, now, k);
        SetStamps(w.device.table.value, w.local[about := enabled], about, Unknown, Unspecified, now, k);
      }
      hide Set;
  }
}
