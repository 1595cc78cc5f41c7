/**
  Whole runs of one device in the registry: callbacks in any order, late or repeated, with
  capabilities switched on and off locally at any point
  (eebus-bridge/internal/eebus/registry.go, eebus-bridge/internal/eebus/capabilities.go).
 */
module RegistryRuns {
  import opened Common
  import opened State
  import opened Registry

  datatype World = World(device: Device, local: Local)

  datatype Event =
    | On(op: Op, now: Time)
    | LocalSwitch(capability: CapabilityKey, enabled: bool, now: Time)

  function Step(w: World, e: Event): World {
    match e
    case On(op, now) => w.(device := Apply(w.device, w.local, op, now))
    case LocalSwitch(k, enabled, now) =>
      var local := w.local[k := enabled];
      World(Switched(w.device, local, k, now), local)
  }

  function Run(w: World, events: seq<Event>): World
    decreases |events|
  {
    if events == [] then w else Step(Run(w, Init(events)), Last(events))
  }

  function Init(events: seq<Event>): seq<Event>
    requires events != []
  {
    events[..|events| - 1]
  }

  function Last(events: seq<Event>): Event
    requires events != []
  {
    events[|events| - 1]
  }

  predicate Is(e: Event, op: Op) {
    e.On? && e.op == op
  }

  // ------------------------------------------------------------------ tombstones and local switches

  const REMOVED := UNKNOWN_DEVICE.(removed := true)

  /** A removed device leaves nothing behind, and a disabled capability reads as unsupported. */
  predicate Coherent(w: World) {
    && (w.device.removed ==> w.device == REMOVED)
    && (w.device.table.Some? ==> Obeys(w.device.table.value, w.local))
  }

  lemma StepKeepsCoherent(w: World, e: Event)
    requires Coherent(w)
    ensures Coherent(Step(w, e))
  {
    if e.On? {
      TableFollows(w.device, w.local, e.op, e.now);
    }
  }

  /** A table that respects the local switches. */
  predicate Obeys(t: Table, local: Local) {
    forall k | Disabled(local, k) :: t[k].state == Unsupported && t[k].reason == LocalDisabled
  }

  lemma EnsuredObeys(table: Option<Table>, local: Local, now: Time)
    requires table.Some? ==> Obeys(table.value, local)
    ensures Obeys(Ensured(table, local, now), local)
  {}

  lemma ConnectionObeys(t: Table, local: Local, now: Time)
    requires Obeys(t, local)
    ensures Obeys(OnConnect(t, local, now), local) && Obeys(OnDisconnect(t, local, now), local)
  {}

  lemma SetObeys(t: Table, local: Local, k: CapabilityKey, state: CapabilityState, reason: Reason, now: Time)
    requires Obeys(t, local)
    ensures Obeys(Set(t, local, k, state, reason, now), local)
  {}

  lemma SupportObeys(t: Table, local: Local, k: CapabilityKey, advertised: bool, disconnected: bool, now: Time)
    requires Obeys(t, local)
    ensures Obeys(OnSupport(t, local, k, advertised, disconnected, now), local)
  {
    hide Set, Obeys;
    SetObeys(t, local, k, TemporarilyUnavailable, DeviceDisconnected, now);
    SetObeys(t, local, k, Unknown, Unspecified, now);
    SetObeys(t, local, k, Unsupported, RemoteNotAdvertised, now);
  }

  lemma AttemptObeys(
    t: Table, local: Local, k: CapabilityKey, disconnected: bool, state: CapabilityState, reason: Reason, now: Time)
    requires Obeys(t, local)
    ensures Obeys(OnAttempt(t, local, k, disconnected, state, reason, now), local)
  {
    hide Set, Obeys;
    SetObeys(t, local, k, TemporarilyUnavailable, DeviceDisconnected, now);
    SetObeys(t, local, k, state, reason, now);
  }

  /** Whatever an operation writes into a table respects the local switches. */
  lemma TableFollows(d: Device, local: Local, op: Op, now: Time)
    requires Coherent(World(d, local))
    ensures Coherent(World(Apply(d, local, op, now), local))
  {
    hide OnConnect, OnDisconnect, OnSupport, OnAttempt, Set, Ensured, Obeys, AnySupports, Entities;
    var t := Ensured(d.table, local, now);
    EnsuredObeys(d.table, local, now);
    if op == MarkConnected || op == MarkUntrusted || op == MarkDisconnected {
      ConnectionObeys(t, local, now);
    } else if op.SetCapability? {
      SetObeys(t, local, op.capability, op.state, op.reason, now);
    } else if op.RecordSupport? {
      SupportObeys(t, local, op.capability, op.advertised, Disconnected(d), now);
    } else if op.RecordSourceSupport? {
      var sources := Sources(d.support, op.capability)[op.source := op.advertised];
      SupportObeys(t, local, op.capability, AnySupports(sources), Disconnected(d), now);
    } else if op.RecordRead? || op.RecordEntityNotBound? || op.RecordMissingEntity? {
      AttemptFollows(d, local, op, now);
      hide Apply;
    }
  }

  lemma AttemptFollows(d: Device, local: Local, op: Op, now: Time)
    requires Coherent(World(d, local)) && Obeys(Ensured(d.table, local, now), local)
    requires op.RecordRead? || op.RecordEntityNotBound? || op.RecordMissingEntity?
    ensures Coherent(World(Apply(d, local, op, now), local))
  {
    hide OnAttempt, Ensured, Obeys, Entities;
    var t, k, off := Ensured(d.table, local, now), op.capability, Disconnected(d);
    if op.RecordRead? && op.succeeded {
      AttemptObeys(t, local, k, off, Available, Unspecified, now);
    } else if op.RecordRead? {
      AttemptObeys(t, local, k, off, TemporarilyUnavailable, ReadFailed, now);
    } else if op.RecordMissingEntity? && Entities(d) != {} {
      AttemptObeys(t, local, k, off, Unsupported, RemoteNotAdvertised, now);
    } else {
      AttemptObeys(t, local, k, off, TemporarilyUnavailable, EntityNotBound, now);
    }
  }

  /** Every reachable state is coherent, whatever the order of the callbacks. */
  lemma {:induction false} RunKeepsCoherent(w: World, events: seq<Event>)
    requires Coherent(w)
    ensures Coherent(Run(w, events))
    decreases |events|
  {
    if events != [] {
      RunKeepsCoherent(w, Init(events));
      StepKeepsCoherent(Run(w, Init(events)), Last(events));
    }
  }

  /** Removal is final: no callback but a trust grant changes anything about a removed device. */
  lemma {:induction false} TombstoneHolds(w: World, events: seq<Event>)
    requires Coherent(w) && w.device.removed
    requires forall e | e in events :: !Is(e, MarkTrusted)
    ensures Run(w, events).device == REMOVED
    decreases |events|
  {
    if events != [] {
      TombstoneHolds(w, Init(events));
      assert Last(events) in events;
      RunKeepsCoherent(w, Init(events));
    }
  }

  /** The trust grant that ends a tombstone finds an empty device, connected to nothing. */
  lemma TrustStartsAfresh(w: World, events: seq<Event>, now: Time)
    requires Coherent(w) && w.device.removed
    requires forall e | e in events :: !Is(e, MarkTrusted)
    ensures Step(Run(w, events), On(MarkTrusted, now)).device ==
            UNKNOWN_DEVICE.(health := Some(NO_HEALTH.(trusted := true, trustKnown := true, lastTransitionAt := now)))
  {
    TombstoneHolds(w, events);
  }

  // ------------------------------------------------------------------ what the reasons mean

  predicate EntryReasoned(entry: Entry, disabled: bool) {
    && (entry.reason == LocalDisabled <==> disabled)
    && (entry.reason == LocalDisabled ==> entry.state == Unsupported)
    && (entry.reason == DeviceDisconnected ==> entry.state == TemporarilyUnavailable)
  }

  predicate TableReasoned(t: Table, local: Local) {
    forall k: CapabilityKey :: EntryReasoned(t[k], Disabled(local, k))
  }

  /** What the reasons mean; states written by hand through SetCapability are excluded. */
  predicate Reasoned(w: World) {
    w.device.table.Some? ==> TableReasoned(w.device.table.value, w.local)
  }

  predicate ByHand(e: Event) {
    e.On? && e.op.SetCapability?
  }

  lemma StepKeepsReasoned(w: World, e: Event)
    requires Reasoned(w) && !ByHand(e)
    ensures Reasoned(Step(w, e))
  {
    if e.On? {
      OpKeepsReasoned(w.device, w.local, e.op, e.now);
    }
  }

  lemma OpKeepsReasoned(d: Device, local: Local, op: Op, now: Time)
    requires Reasoned(World(d, local)) && !op.SetCapability?
    ensures Reasoned(World(Apply(d, local, op, now), local))
  {
    hide OnConnect, OnDisconnect, OnSupport, OnAttempt, Ensured, TableReasoned, AnySupports, Entities;
    var t := Ensured(d.table, local, now);
    EnsuredReasoned(d.table, local, now);
    if op == MarkConnected || op == MarkUntrusted || op == MarkDisconnected {
      TableKeepsReasoned(t, local, now);
    } else if op.RecordSupport? {
      SupportKeepsReasoned(t, local, op.capability, op.advertised, Disconnected(d), now);
    } else if op.RecordSourceSupport? {
      var sources := Sources(d.support, op.capability)[op.source := op.advertised];
      SupportKeepsReasoned(t, local, op.capability, AnySupports(sources), Disconnected(d), now);
    } else if op.RecordRead? || op.RecordEntityNotBound? || op.RecordMissingEntity? {
      AttemptOpKeepsReasoned(d, local, op, now);
      hide Apply;
    }
  }

  lemma AttemptOpKeepsReasoned(d: Device, local: Local, op: Op, now: Time)
    requires Reasoned(World(d, local)) && TableReasoned(Ensured(d.table, local, now), local)
    requires op.RecordRead? || op.RecordEntityNotBound? || op.RecordMissingEntity?
    ensures Reasoned(World(Apply(d, local, op, now), local))
  {
    hide OnAttempt, Ensured, TableReasoned, Entities;
    var t, k, off := Ensured(d.table, local, now), op.capability, Disconnected(d);
    if op.RecordRead? && op.succeeded {
      AttemptKeepsReasoned(t, local, k, off, Available, Unspecified, now);
    } else if op.RecordRead? {
      AttemptKeepsReasoned(t, local, k, off, TemporarilyUnavailable, ReadFailed, now);
    } else if op.RecordMissingEntity? && Entities(d) != {} {
      AttemptKeepsReasoned(t, local, k, off, Unsupported, RemoteNotAdvertised, now);
    } else {
      AttemptKeepsReasoned(t, local, k, off, TemporarilyUnavailable, EntityNotBound, now);
    }
  }

  lemma EnsuredReasoned(table: Option<Table>, local: Local, now: Time)
    requires table.Some? ==> TableReasoned(table.value, local)
    ensures TableReasoned(Ensured(table, local, now), local)
  {}

  lemma TableKeepsReasoned(t: Table, local: Local, now: Time)
    requires TableReasoned(t, local)
    ensures TableReasoned(OnConnect(t, local, now), local)
    ensures TableReasoned(OnDisconnect(t, local, now), local)
  {}

  lemma SupportKeepsReasoned(t: Table, local: Local, k: CapabilityKey, advertised: bool, disconnected: bool, now: Time)
    requires TableReasoned(t, local)
    ensures TableReasoned(OnSupport(t, local, k, advertised, disconnected, now), local)
  {}

  lemma AttemptKeepsReasoned(
    t: Table, local: Local, k: CapabilityKey, disconnected: bool, state: CapabilityState, reason: Reason, now: Time)
    requires TableReasoned(t, local) && reason != LocalDisabled && reason != DeviceDisconnected
    ensures TableReasoned(OnAttempt(t, local, k, disconnected, state, reason, now), local)
  {}

  /** "Locally disabled" is said of a capability exactly while it is switched off. */
  lemma {:induction false} RunKeepsReasoned(w: World, events: seq<Event>)
    requires Reasoned(w) && forall e | e in events :: !ByHand(e)
    ensures Reasoned(Run(w, events))
    decreases |events|
  {
    if events != [] {
      RunKeepsReasoned(w, Init(events));
      assert Last(events) in events;
      StepKeepsReasoned(Run(w, Init(events)), Last(events));
    }
  }

  // ------------------------------------------------------------------ frozen while disconnected

  predicate TableDark(t: Table) {
    forall k: CapabilityKey ::
      t[k].state == Unsupported || (t[k].state == TemporarilyUnavailable && t[k].reason == DeviceDisconnected)
  }

  /** Known, not connected, and every entry either unsupported or waiting for the connection. */
  predicate Dark(w: World) {
    var d := w.device;
    !d.removed && Disconnected(d) && d.table.Some? && TableDark(d.table.value)
  }

  /** A connection is lost: the device was connected, or its trust was withdrawn. */
  predicate Loses(d: Device, op: Op) {
    && !d.removed
    && (op == MarkUntrusted || (op == MarkDisconnected && d.health.Some? && d.health.value.connected))
  }

  /** Anything short of a reconnection, a removal, a state set by hand or a local switch. */
  predicate Quiet(e: Event) {
    e.On? && e.op != MarkConnected && e.op != RemoveDevice && !e.op.SetCapability?
  }

  lemma LossDarkens(w: World, op: Op, now: Time)
    requires Reasoned(w) && Loses(w.device, op)
    ensures Dark(Step(w, On(op, now))) && Reasoned(Step(w, On(op, now)))
  {
    StepKeepsReasoned(w, On(op, now));
  }

  lemma QuietStepFreezes(w: World, e: Event)
    requires Dark(w) && Reasoned(w) && Quiet(e)
    ensures Step(w, e).device.table == w.device.table && Dark(Step(w, e)) && Step(w, e).local == w.local
  {
    DarkTableStands(w.device.table.value, w.local, e.now);
    hide OnConnect, OnDisconnect, OnSupport, OnAttempt, FreshTable, TableReasoned, TableDark;
  }

  lemma DarkTableStands(t: Table, local: Local, now: Time)
    requires TableDark(t) && TableReasoned(t, local)
    ensures OnDisconnect(t, local, now) == t
    ensures forall k, advertised :: OnSupport(t, local, k, advertised, true, now) == t
    ensures forall k, state, reason :: OnAttempt(t, local, k, true, state, reason, now) == t
  {
    forall k: CapabilityKey
      ensures t[k := t[k]] == t
    {}
  }

  /** States, reasons and times all stand still, however many late callbacks arrive. */
  lemma {:induction false} QuietRunFreezes(w: World, events: seq<Event>)
    requires Dark(w) && Reasoned(w) && forall e | e in events :: Quiet(e)
    ensures Run(w, events).device.table == w.device.table
    ensures Dark(Run(w, events)) && Reasoned(Run(w, events)) && Run(w, events).local == w.local
    decreases |events|
  {
    if events != [] {
      QuietRunFreezes(w, Init(events));
      assert Last(events) in events;
      QuietStepFreezes(Run(w, Init(events)), Last(events));
    }
  }

  ghost predicate Frozen(w: World) {
    forall events | forall e | e in events :: Quiet(e) :: Run(w, events).device.table == w.device.table
  }

  /**
    A trust grant can make a device known without a connection and without touching its capabilities, so
    being disconnected does not freeze a table by itself: it stands still exactly when every entry has
    already been taken down.
   */
  lemma FrozenExactlyWhenDark(w: World)
    requires Reasoned(w) && !w.device.removed && Disconnected(w.device) && w.device.table.Some?
    ensures Frozen(w) <==> Dark(w)
  {
    if Dark(w) {
      forall events | forall e | e in events :: Quiet(e)
        ensures Run(w, events).device.table == w.device.table
      {
        QuietRunFreezes(w, events);
      }
    } else {
      var t := w.device.table.value;
      var k: CapabilityKey :| !(t[k].state == Unsupported
                                || (t[k].state == TemporarilyUnavailable && t[k].reason == DeviceDisconnected));
      var read := On(RecordRead(k, true), 0);
      assert Run(w, []) == w && Init([read]) == [];
      assert Run(w, [read]).device.table.value[k].reason == DeviceDisconnected;
      assert Run(w, [read]).device.table != w.device.table;
    }
  }

  /** Such a device is within reach: catalogued, then trusted, and never connected. */
  lemma TrustAloneIsNotDark()
    ensures var w := Run(World(UNKNOWN_DEVICE, map[]), [On(AddDevice({}), 1), On(MarkTrusted, 2)]);
            && Reasoned(w) && !w.device.removed && Disconnected(w.device) && w.device.table.Some?
            && !Dark(w) && !Frozen(w)
  {
    var start := World(UNKNOWN_DEVICE, map[]);
    var added, trusted := On(AddDevice({}), 1), On(MarkTrusted, 2);
    assert Init([added, trusted]) == [added] && Init([added]) == [];
    assert Run(start, []) == start;
    var one := Run(start, [added]);
    assert one == Step(start, added);
    var w := Run(start, [added, trusted]);
    assert w == Step(one, trusted);
    hide Run;
    assert w.device.table == Some(FreshTable(map[], 1));
    assert w.device.table.value[Lpc] == Entry(Unknown, Unspecified, 1);
    FrozenExactlyWhenDark(w);
  }

  lemma ReconnectRevives(w: World, now: Time)
    requires Dark(w) && Reasoned(w)
    ensures var table' := Step(w, On(MarkConnected, now)).device.table;
            && table'.Some?
            && forall k: CapabilityKey ::
                 table'.value[k] == if w.device.table.value[k].state == Unsupported then w.device.table.value[k]
                 else Entry(Unknown, EntityNotBound, now)
  {}

  /**
    A whole outage, end to end: between the loss and the reconnection the table stands still, and the
    reconnection keeps exactly the entries that were unsupported before the loss, untouched, and makes
    every other one wait for its entity.
   */
  lemma OutageForgetsAllButUnsupported(w: World, loss: Op, lost: Time, events: seq<Event>, now: Time)
    requires Reasoned(w) && Loses(w.device, loss) && forall e | e in events :: Quiet(e)
    ensures var dark := Step(w, On(loss, lost));
            var back := Step(Run(dark, events), On(MarkConnected, now)).device.table;
            var t := Ensured(w.device.table, w.local, lost);
            && Run(dark, events).device.table == dark.device.table
            && back.Some?
            && forall k: CapabilityKey ::
                 back.value[k] == if t[k].state == Unsupported then t[k] else Entry(Unknown, EntityNotBound, now)
  {
    hide Apply;
    var dark := Step(w, On(loss, lost));
    LossDarkens(w, loss, lost);
    QuietRunFreezes(dark, events);
    ReconnectRevives(Run(dark, events), now);
    LossDisconnectsTable(w, loss, lost);
    EnsuredReasoned(w.device.table, w.local, lost);
  }

  lemma LossDisconnectsTable(w: World, loss: Op, lost: Time)
    requires Loses(w.device, loss)
    ensures Step(w, On(loss, lost)).device.table == Some(OnDisconnect(Ensured(w.device.table, w.local, lost), w.local,
                                                                      lost))
  {}
}
