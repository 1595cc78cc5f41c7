/**
  What the bridge knows of one device: catalog, connection health and capability table, three
  projections that late callbacks reach in any order
  (eebus-bridge/internal/eebus/registry.go, eebus-bridge/internal/eebus/capabilities.go).

  Times are natural numbers; 0 is the zero time.
 */
module Registry {
  import opened Common
  import opened State

  type Time = nat

  datatype Reason = Unspecified | LocalDisabled | RemoteNotAdvertised | EntityNotBound | ReadFailed | DeviceDisconnected

  datatype Entry = Entry(state: CapabilityState, reason: Reason, lastChanged: Time)

  type Table = m: map<CapabilityKey, Entry> | forall k: CapabilityKey :: k in m
    witness map k: CapabilityKey | true :: Entry(Unknown, Unspecified, 0)

  datatype Health = Health(
    connected: bool,
    trusted: bool,
    trustKnown: bool,
    connectedAt: Time,
    lastTransitionAt: Time,
    lastMonitoringSuccess: Time,
    monitoringSuccessOnConnect: bool,
    heartbeatRequired: bool,
    lastRemoteHeartbeat: Time)

  const NO_HEALTH := Health(false, false, false, 0, 0, 0, false, false, 0)

  const ALL_CAPABILITIES: set<CapabilityKey> :=
    {Monitoring, Lpc, Failsafe, Heartbeat, Ohpcf, Dhw, DhwSystemFunction, RoomHeating}

  lemma AllListed()
    ensures forall k: CapabilityKey :: k in ALL_CAPABILITIES
  {
    forall k: CapabilityKey ensures k in ALL_CAPABILITIES {
      match k case Monitoring => case _ =>
    }
  }

  type Entity = nat
  type Source = string
  type Local = map<CapabilityKey, bool>
  type Support = map<CapabilityKey, map<Source, bool>>

  /** Everything the registry holds under one SKI. */
  datatype Device = Device(
    removed: bool,
    catalog: Option<set<Entity>>,
    health: Option<Health>,
    heartbeatLatch: bool,
    table: Option<Table>,
    support: Support)

  const UNKNOWN_DEVICE := Device(false, None, None, false, None, map[])

  datatype Op =
    | MarkConnected
    | MarkTrusted
    | MarkUntrusted
    | MarkDisconnected
    | RecordMonitoringSuccess
    | RecordRemoteHeartbeat
    | AddDevice(entities: set<Entity>)
    | UpsertObservation(entity: Option<Entity>)
    | UpsertDescription
    | ClearEntities
    | RemoveEntity(entity': Entity)
    | RemoveDevice
    | SetCapability(capability: CapabilityKey, state: CapabilityState, reason: Reason)
    | RecordSupport(capability: CapabilityKey, advertised: bool)
    | RecordSourceSupport(capability: CapabilityKey, source: Source, advertised: bool)
    | RecordRead(capability: CapabilityKey, succeeded: bool)
    | RecordEntityNotBound(capability: CapabilityKey)
    | RecordMissingEntity(capability: CapabilityKey)

  // ------------------------------------------------------------------ the capability table

  predicate Disabled(local: Local, k: CapabilityKey) {
    k in local && !local[k]
  }

  /** One entry written: a locally disabled capability only ever becomes Unsupported/LocalDisabled. */
  function EntryAfter(entry: Entry, disabled: bool, state: CapabilityState, reason: Reason, now: Time): Entry {
    var state' := if disabled then Unsupported else state;
    var reason' := if disabled then LocalDisabled else reason;
    if entry.state == state' && entry.reason == reason' then entry else Entry(state', reason', now)
  }

  function Set(t: Table, local: Local, k: CapabilityKey, state: CapabilityState, reason: Reason, now: Time): Table {
    t[k := EntryAfter(t[k], Disabled(local, k), state, reason, now)]
  }

  function FreshTable(local: Local, now: Time): Table {
    map k: CapabilityKey | true ::
      if Disabled(local, k) then Entry(Unsupported, LocalDisabled, now) else Entry(Unknown, Unspecified, now)
  }

  function Ensured(t: Option<Table>, local: Local, now: Time): Table {
    if t.Some? then t.value else FreshTable(local, now)
  }

  function OnConnectEntry(entry: Entry, disabled: bool, now: Time): Entry {
    if entry.reason == DeviceDisconnected then EntryAfter(entry, disabled, Unknown, EntityNotBound, now) else entry
  }

  function OnConnect(t: Table, local: Local, now: Time): Table {
    map k: CapabilityKey | true :: OnConnectEntry(t[k], Disabled(local, k), now)
  }

  function OnDisconnectEntry(entry: Entry, disabled: bool, now: Time): Entry {
    if entry.state != Unsupported then EntryAfter(entry, disabled, TemporarilyUnavailable, DeviceDisconnected, now)
    else entry
  }

  function OnDisconnect(t: Table, local: Local, now: Time): Table {
    map k: CapabilityKey | true :: OnDisconnectEntry(t[k], Disabled(local, k), now)
  }

  function OnSupport(t: Table, local: Local, k: CapabilityKey, advertised: bool, disconnected: bool, now: Time): Table {
    if disconnected then
      if t[k].reason != LocalDisabled && t[k].state != Unsupported
      then Set(t, local, k, TemporarilyUnavailable, DeviceDisconnected, now) else t
    else if advertised then Set(t, local, k, Unknown, Unspecified, now)
    else Set(t, local, k, Unsupported, RemoteNotAdvertised, now)
  }

  /** Reads and missing entities: no effect on an unsupported entry, overruled by a lost connection. */
  function OnAttempt(t: Table, local: Local, k: CapabilityKey, disconnected: bool, state: CapabilityState,
                     reason: Reason, now: Time): Table {
    if t[k].state == Unsupported then t
    else if disconnected then Set(t, local, k, TemporarilyUnavailable, DeviceDisconnected, now)
    else Set(t, local, k, state, reason, now)
  }

  predicate Disconnected(d: Device) {
    d.health.Some? && !d.health.value.connected
  }

  predicate AnySupports(sources: map<Source, bool>) {
    exists s :: s in sources && sources[s]
  }

  function Sources(support: Support, k: CapabilityKey): map<Source, bool> {
    if k in support then support[k] else map[]
  }

  // ------------------------------------------------------------------ one operation

  function HealthOf(d: Device): Health {
    if d.health.Some? then d.health.value else NO_HEALTH
  }

  function Entities(d: Device): set<Entity> {
    if d.catalog.Some? then d.catalog.value else {}
  }

  /** The peer advertised heartbeats: they stay required until the device is removed. */
  function Latched(d: Device): Device {
    d.(heartbeatLatch := true,
    health := if d.health.Some? then Some(d.health.value.(heartbeatRequired := true)) else None)
  }

  function Apply(d: Device, local: Local, op: Op, now: Time): Device {
    if d.removed && op != MarkTrusted && op != RemoveDevice then d
    else
      var h := HealthOf(d);
      var t := Ensured(d.table, local, now);
      match op
      case MarkConnected =>
        if h.connected then d
        else
          d.(health := Some(h.(connected := true, trusted := true, trustKnown := true, connectedAt := now,
                            lastTransitionAt := now, monitoringSuccessOnConnect := false, lastRemoteHeartbeat := 0,
                            heartbeatRequired := d.heartbeatLatch)),
          table := Some(OnConnect(t, local, now)))
      case MarkTrusted =>
        d.(removed := false, health := Some(h.(trusted := true, trustKnown := true, lastTransitionAt := now)))
      case MarkUntrusted =>
        d.(health := Some(h.(connected := false, trusted := false, trustKnown := true, lastTransitionAt := now)),
        table := Some(OnDisconnect(t, local, now)))
      case MarkDisconnected =>
        if !h.connected then d
        else d.(health := Some(h.(connected := false, lastTransitionAt := now)),
             table := Some(OnDisconnect(t, local, now)))
      case RecordMonitoringSuccess =>
        if d.health.None? then d
        else d.(health := Some(h.(lastMonitoringSuccess := now, monitoringSuccessOnConnect := h.connected)))
      case RecordRemoteHeartbeat =>
        if !h.connected then d else d.(health := Some(h.(lastRemoteHeartbeat := now)))
      case AddDevice(entities) =>
        d.(catalog := Some(entities), table := Some(t))
      case UpsertObservation(entity) =>
        d.(catalog := Some(Entities(d) + if entity.Some? then {entity.value} else {}), table := Some(t))
      case UpsertDescription =>
        d.(catalog := Some(Entities(d)))
      case ClearEntities =>
        if d.catalog.None? then d else d.(catalog := Some({}))
      case RemoveEntity(entity) =>
        if d.catalog.None? then d else d.(catalog := Some(d.catalog.value - {entity}))
      case RemoveDevice =>
        UNKNOWN_DEVICE.(removed := true)
      case SetCapability(k, state, reason) =>
        d.(table := Some(Set(t, local, k, state, reason, now)))
      case RecordSupport(k, advertised) =>
        var latched := if k == Heartbeat && advertised then Latched(d) else d;
        latched.(table := Some(OnSupport(t, local, k, advertised, Disconnected(d), now)))
      case RecordSourceSupport(k, source, advertised) =>
        var sources := Sources(d.support, k)[source := advertised];
        d.(support := d.support[k := sources],
        table := Some(OnSupport(t, local, k, AnySupports(sources), Disconnected(d), now)))
      case RecordRead(k, succeeded) =>
        var (state, reason) := if succeeded then (Available, Unspecified) else (TemporarilyUnavailable, ReadFailed);
        d.(table := Some(OnAttempt(t, local, k, Disconnected(d), state, reason, now)))
      case RecordEntityNotBound(k) =>
        d.(table := Some(OnAttempt(t, local, k, Disconnected(d), TemporarilyUnavailable, EntityNotBound, now)))
      case RecordMissingEntity(k) =>
        var (state, reason) := if Entities(d) != {} then (Unsupported, RemoteNotAdvertised)
                               else (TemporarilyUnavailable, EntityNotBound);
        d.(table := Some(OnAttempt(t, local, k, Disconnected(d), state, reason, now)))
  }

  /** A capability has just been switched on or off locally: an existing table is rewritten at that entry. */
  function Switched(d: Device, local: Local, k: CapabilityKey, now: Time): Device {
    if d.table.None? then d
    else
      d.(table := Some(if Disabled(local, k) then Set(d.table.value, local, k, Unsupported, LocalDisabled, now)
                       else Set(d.table.value, local, k, Unknown, Unspecified, now)))
  }

  // ------------------------------------------------------------------ evidence of life

  const HEARTBEAT_TOLERANCE: Time := 120

  predicate HeartbeatOnConnection(h: Health) {
    !h.heartbeatRequired || h.lastRemoteHeartbeat != 0
  }

  /** Past its grace period without a recent success, and a recent heartbeat if one is due, on this connection. */
  predicate Stale(h: Health, threshold: Time, gracePeriod: Time, now: Time) {
    && h.connected
    && now - h.connectedAt > gracePeriod
    && (|| !h.monitoringSuccessOnConnect
        || now - h.lastMonitoringSuccess > threshold
        || (h.heartbeatRequired && (!HeartbeatOnConnection(h) || now - h.lastRemoteHeartbeat > HEARTBEAT_TOLERANCE)))
  }

  /** A success since an instant, and a heartbeat since then if one is due. */
  predicate SuccessSince(h: Health, since: Time) {
    h.lastMonitoringSuccess != 0 && h.lastMonitoringSuccess > since
    && (!h.heartbeatRequired || h.lastRemoteHeartbeat > since)
  }

  // ------------------------------------------------------------------ the registry object

  /** Part of the way round a table: the entries still to do are as at the start, the others as in the goal. */
  predicate Underway(table: Table, start: Table, goal: Table, todo: set<CapabilityKey>) {
    forall k: CapabilityKey :: table[k] == if k in todo then start[k] else goal[k]
  }

  lemma EntryDone(table: Table, after: Table, start: Table, goal: Table, todo: set<CapabilityKey>, k: CapabilityKey)
    requires Underway(table, start, goal, todo) && k in todo
    requires after == table[k := goal[k]]
    ensures table[k] == start[k] && Underway(after, start, goal, todo - {k})
  {}

  lemma TableDone(table: Table, start: Table, goal: Table)
    requires Underway(table, start, goal, {})
    ensures table == goal
  {
    assert table.Keys == goal.Keys by {
      forall k: CapabilityKey ensures k in table && k in goal {}
    }
  }

  class DeviceRegistry {
    var removed: set<Ski>
    var devices: map<Ski, set<Entity>>
    var monitoring: map<Ski, Health>
    var heartbeatRequired: set<Ski>
    var entries: map<Ski, Table>
    var support: map<Ski, Support>
    var localCapabilities: Local

    ghost function TableOf(ski: Ski): Option<Table>
      reads this`entries
    {
      if ski in entries then Some(entries[ski]) else None
    }

    ghost function View(ski: Ski): Device
      reads this
    {
      Device(
        ski in removed,
        if ski in devices then Some(devices[ski]) else None,
        if ski in monitoring then Some(monitoring[ski]) else None,
        ski in heartbeatRequired,
        TableOf(ski),
        if ski in support then support[ski] else map[])
    }

    /** An operation took effect on one device and on nothing else. */
    twostate predicate Did(ski: Ski, op: Op, now: Time)
      reads this
    {
      && localCapabilities == old(localCapabilities)
      && View(ski) == Apply(old(View(ski)), localCapabilities, op, now)
      && forall other | other != ski :: View(other) == old(View(other))
    }

    predicate IsRemoved(ski: Ski): (r: bool)
      reads this
      ensures r == View(ski).removed
    {
      ski in removed
    }

    predicate IsDisconnected(ski: Ski): (r: bool)
      reads this
      ensures r == Disconnected(View(ski))
    {
      ski in monitoring && !monitoring[ski].connected
    }

    predicate IsHeartbeatRequired(ski: Ski): (r: bool)
      reads this
      ensures r == View(ski).heartbeatLatch
    {
      ski in heartbeatRequired
    }

    predicate HasEntities(ski: Ski): (r: bool)
      reads this
      ensures r == (Entities(View(ski)) != {})
    {
      ski in devices && devices[ski] != {}
    }

    constructor ()
      ensures localCapabilities == map[] && forall ski :: View(ski) == UNKNOWN_DEVICE
    {
      removed, devices, monitoring, heartbeatRequired := {}, map[], map[], {};
      entries, support, localCapabilities := map[], map[], map[];
    }

    /** One table stored. */
    method StoreTable(ski: Ski, table: Table)
      modifies this`entries
      ensures View(ski) == old(View(ski)).(table := Some(table))
      ensures forall other | other != ski :: View(other) == old(View(other))
    {
      entries := entries[ski := table];
    }

    function TableAt(ski: Ski): (t: Table)
      reads this
      requires View(ski).table.Some?
      ensures View(ski).table == Some(t)
    {
      entries[ski]
    }

    /** One health record stored. */
    method StoreHealth(ski: Ski, health: Health)
      modifies this`monitoring
      ensures View(ski) == old(View(ski)).(health := Some(health))
      ensures forall other | other != ski :: View(other) == old(View(other))
    {
      monitoring := monitoring[ski := health];
    }

    function HealthAt(ski: Ski): (h: Health)
      reads this
      ensures h == HealthOf(View(ski))
    {
      if ski in monitoring then monitoring[ski] else NO_HEALTH
    }

    method EnsureCapabilities(ski: Ski, now: Time)
      modifies this`entries
      ensures View(ski) == old(View(ski)).(table := Some(Ensured(old(View(ski)).table, localCapabilities, now)))
      ensures forall other | other != ski :: View(other) == old(View(other))
    {
      if ski !in entries {
        AllListed();
        var table: map<CapabilityKey, Entry> := map[];
        var todo := ALL_CAPABILITIES;
        while todo != {}
          invariant forall k: CapabilityKey :: k in table <==> k !in todo
          invariant forall k | k in table :: table[k] == FreshTable(localCapabilities, now)[k]
          decreases todo
        {
          var k :| k in todo;
          todo := todo - {k};
          var entry := Entry(Unknown, Unspecified, now);
          if k in localCapabilities && !localCapabilities[k] {
            entry := Entry(Unsupported, LocalDisabled, now);
          }
          table := table[k := entry];
        }
        assert table == FreshTable(localCapabilities, now);
        entries := entries[ski := table];
      }
    }

    /** Writes one entry of a table, unless it already reads that way. */
    method WriteEntry(table: Table, k: CapabilityKey, state: CapabilityState, reason: Reason,
                      now: Time) returns (after: Table)
      ensures after == Set(table, localCapabilities, k, state, reason, now)
    {
      var state', reason' := state, reason;
      if k in localCapabilities && !localCapabilities[k] {
        state', reason' := Unsupported, LocalDisabled;
      }
      var current := table[k];
      if current.state == state' && current.reason == reason' {
        after := table;
      } else {
        after := table[k := Entry(state', reason', now)];
      }
    }

    method SetCapabilityLocked(ski: Ski, k: CapabilityKey, state: CapabilityState, reason: Reason, now: Time)
      modifies this`entries
      ensures var t := Ensured(old(View(ski)).table, localCapabilities, now);
              View(ski) == old(View(ski)).(table := Some(Set(t, localCapabilities, k, state, reason, now)))
      ensures forall other | other != ski :: View(other) == old(View(other))
    {
      hide Set, Ensured, View;
      EnsureCapabilities(ski, now);
      var table := WriteEntry(TableAt(ski), k, state, reason, now);
      StoreTable(ski, table);
    }

    lemma ConnectTableStep(table: Table, start: Table, goal: Table, todo: set<CapabilityKey>, k: CapabilityKey,
                           now: Time)
      requires Underway(table, start, goal, todo) && k in todo && goal == OnConnect(start, localCapabilities, now)
      ensures var after := if table[k].reason == DeviceDisconnected
                           then Set(table, localCapabilities, k, Unknown, EntityNotBound, now) else table;
              Underway(after, start, goal, todo - {k})
    {
      hide EntryAfter;
      assert goal[k] == OnConnectEntry(start[k], Disabled(localCapabilities, k), now);
      hide OnConnect;
      EntryDone(table, table[k := goal[k]], start, goal, todo, k);
      assert table[k := table[k]] == table;
    }

    /** A connection returns: entries that the disconnect took away wait for their entities again. */
    method ConnectTable(start: Table, now: Time) returns (table: Table)
      ensures table == OnConnect(start, localCapabilities, now)
    {
      ghost var goal := OnConnect(start, localCapabilities, now);
      AllListed();
      table := start;
      var todo := ALL_CAPABILITIES;
      assert Underway(start, start, goal, todo);
      hide EntryAfter, OnConnect, Underway;
      while todo != {}
        invariant Underway(table, start, goal, todo)
        decreases todo
      {
        var k :| k in todo;
        ConnectTableStep(table, start, goal, todo, k, now);
        todo := todo - {k};
        if table[k].reason == DeviceDisconnected {
          table := WriteEntry(table, k, Unknown, EntityNotBound, now);
        }
      }
      TableDone(table, start, goal);
    }

    method MarkCapabilitiesConnected(ski: Ski, now: Time)
      modifies this`entries
      ensures var t := Ensured(old(View(ski)).table, localCapabilities, now);
              View(ski) == old(View(ski)).(table := Some(OnConnect(t, localCapabilities, now)))
      ensures forall other | other != ski :: View(other) == old(View(other))
    {
      hide OnConnect, Ensured, View;
      EnsureCapabilities(ski, now);
      var table := ConnectTable(TableAt(ski), now);
      StoreTable(ski, table);
    }

    lemma DisconnectTableStep(table: Table, start: Table, goal: Table, todo: set<CapabilityKey>, k: CapabilityKey,
                              now: Time)
      requires Underway(table, start, goal, todo) && k in todo && goal == OnDisconnect(start, localCapabilities, now)
      ensures var after := if table[k].state != Unsupported
                           then Set(table, localCapabilities, k, TemporarilyUnavailable, DeviceDisconnected, now)
                           else table;
              Underway(after, start, goal, todo - {k})
    {
      hide EntryAfter;
      assert goal[k] == OnDisconnectEntry(start[k], Disabled(localCapabilities, k), now);
      hide OnDisconnect;
      EntryDone(table, table[k := goal[k]], start, goal, todo, k);
      assert table[k := table[k]] == table;
    }

    /** A connection is lost: every supported entry goes with it. */
    method DisconnectTable(start: Table, now: Time) returns (table: Table)
      ensures table == OnDisconnect(start, localCapabilities, now)
    {
      ghost var goal := OnDisconnect(start, localCapabilities, now);
      AllListed();
      table := start;
      var todo := ALL_CAPABILITIES;
      assert Underway(start, start, goal, todo);
      hide EntryAfter, OnDisconnect, Underway;
      while todo != {}
        invariant Underway(table, start, goal, todo)
        decreases todo
      {
        var k :| k in todo;
        DisconnectTableStep(table, start, goal, todo, k, now);
        todo := todo - {k};
        if table[k].state != Unsupported {
          table := WriteEntry(table, k, TemporarilyUnavailable, DeviceDisconnected, now);
        }
      }
      TableDone(table, start, goal);
    }

    method MarkCapabilitiesDisconnected(ski: Ski, now: Time)
      modifies this`entries
      ensures var t := Ensured(old(View(ski)).table, localCapabilities, now);
              View(ski) == old(View(ski)).(table := Some(OnDisconnect(t, localCapabilities, now)))
      ensures forall other | other != ski :: View(other) == old(View(other))
    {
      hide OnDisconnect, Ensured, View;
      EnsureCapabilities(ski, now);
      var table := DisconnectTable(TableAt(ski), now);
      StoreTable(ski, table);
    }

    method MarkConnected(ski: Ski, now: Time)
      modifies this
      ensures Did(ski, Op.MarkConnected, now)
    {
      hide OnConnect, Ensured, View;
      if IsRemoved(ski) {
        return;
      }
      var state := HealthAt(ski);
      if state.connected {
        return;
      }
      state := state.(connected := true, trusted := true, trustKnown := true, connectedAt := now,
      lastTransitionAt := now);
      state := state.(monitoringSuccessOnConnect := false, lastRemoteHeartbeat := 0,
      heartbeatRequired := IsHeartbeatRequired(ski));
      StoreHealth(ski, state);
      MarkCapabilitiesConnected(ski, now);
    }

    method MarkTrusted(ski: Ski, now: Time)
      modifies this
      ensures Did(ski, Op.MarkTrusted, now)
    {
      removed := removed - {ski};
      var state := if ski in monitoring then monitoring[ski] else NO_HEALTH;
      monitoring := monitoring[ski := state.(trusted := true, trustKnown := true, lastTransitionAt := now)];
    }

    method MarkUntrusted(ski: Ski, now: Time)
      modifies this
      ensures Did(ski, Op.MarkUntrusted, now)
    {
      hide OnDisconnect, Ensured, View;
      if IsRemoved(ski) {
        return;
      }
      StoreHealth(ski, HealthAt(ski).(connected := false, trusted := false, trustKnown := true,
                  lastTransitionAt := now));
      MarkCapabilitiesDisconnected(ski, now);
    }

    method MarkDisconnected(ski: Ski, now: Time)
      modifies this
      ensures Did(ski, Op.MarkDisconnected, now)
    {
      hide OnDisconnect, Ensured, View;
      if IsRemoved(ski) || !HealthAt(ski).connected {
        return;
      }
      StoreHealth(ski, HealthAt(ski).(connected := false, lastTransitionAt := now));
      MarkCapabilitiesDisconnected(ski, now);
    }

    method RecordMonitoringSuccess(ski: Ski, now: Time)
      modifies this
      ensures Did(ski, Op.RecordMonitoringSuccess, now)
    {
      if ski in removed || ski !in monitoring {
        return;
      }
      var state := monitoring[ski];
      monitoring := monitoring[ski := state.(lastMonitoringSuccess := now,
      monitoringSuccessOnConnect := state.connected)];
    }

    method RecordRemoteHeartbeat(ski: Ski, now: Time)
      modifies this
      ensures Did(ski, Op.RecordRemoteHeartbeat, now)
    {
      if ski in removed || ski !in monitoring || !monitoring[ski].connected {
        return;
      }
      monitoring := monitoring[ski := monitoring[ski].(lastRemoteHeartbeat := now)];
    }

    method AddDevice(ski: Ski, entities: set<Entity>, now: Time)
      modifies this
      ensures Did(ski, Op.AddDevice(entities), now)
    {
      hide Ensured;
      if ski in removed {
        return;
      }
      devices := devices[ski := entities];
      EnsureCapabilities(ski, now);
    }

    method StoreObservation(ski: Ski, entity: Option<Entity>)
      modifies this`devices
      ensures View(ski) == old(View(ski)).(catalog := Some(Entities(old(View(ski)))
                                                           + if entity.Some? then {entity.value} else {}))
      ensures forall other | other != ski :: View(other) == old(View(other))
    {
      var entities := if ski in devices then devices[ski] else {};
      if entity.Some? {
        entities := entities + {entity.value};
      }
      assert entities == Entities(old(View(ski))) + if entity.Some? then {entity.value} else {};
      devices := devices[ski := entities];
    }

    method UpsertObservation(ski: Ski, entity: Option<Entity>, now: Time)
      modifies this
      ensures Did(ski, Op.UpsertObservation(entity), now)
    {
      hide Ensured, View;
      if IsRemoved(ski) {
        return;
      }
      EnsureCapabilities(ski, now);
      StoreObservation(ski, entity);
    }

    method UpsertDescription(ski: Ski, now: Time)
      modifies this
      ensures Did(ski, Op.UpsertDescription, now)
    {
      if ski in removed {
        return;
      }
      devices := devices[ski := if ski in devices then devices[ski] else {}];
    }

    method ClearEntities(ski: Ski, now: Time)
      modifies this
      ensures Did(ski, Op.ClearEntities, now)
    {
      if ski in removed || ski !in devices {
        return;
      }
      devices := devices[ski := {}];
    }

    method RemoveEntity(ski: Ski, entity: Entity, now: Time)
      modifies this
      ensures Did(ski, Op.RemoveEntity(entity), now)
    {
      if ski in removed || ski !in devices {
        return;
      }
      devices := devices[ski := devices[ski] - {entity}];
    }

    method RemoveDevice(ski: Ski, now: Time)
      modifies this
      ensures Did(ski, Op.RemoveDevice, now)
    {
      hide OnConnect, OnDisconnect, OnSupport, OnAttempt, Ensured, Latched, Entities, AnySupports;
      removed := removed + {ski};
      devices := devices - {ski};
      monitoring := monitoring - {ski};
      heartbeatRequired := heartbeatRequired - {ski};
      entries := entries - {ski};
      support := support - {ski};
    }

    method SetCapability(ski: Ski, k: CapabilityKey, state: CapabilityState, reason: Reason, now: Time)
      modifies this
      ensures Did(ski, Op.SetCapability(k, state, reason), now)
    {
      hide Set, Ensured, View;
      if IsRemoved(ski) {
        return;
      }
      SetCapabilityLocked(ski, k, state, reason, now);
    }

    method SupportTable(start: Table, k: CapabilityKey, advertised: bool, disconnected: bool,
                        now: Time) returns (table: Table)
      ensures table == OnSupport(start, localCapabilities, k, advertised, disconnected, now)
    {
      hide Set;
      table := start;
      if disconnected {
        if start[k].reason != LocalDisabled && start[k].state != Unsupported {
          table := WriteEntry(start, k, TemporarilyUnavailable, DeviceDisconnected, now);
        }
        return;
      }
      if advertised {
        table := WriteEntry(start, k, Unknown, Unspecified, now);
        return;
      }
      table := WriteEntry(start, k, Unsupported, RemoteNotAdvertised, now);
    }

    method RequireHeartbeat(ski: Ski)
      modifies this`heartbeatRequired, this`monitoring
      ensures View(ski) == Latched(old(View(ski)))
      ensures forall other | other != ski :: View(other) == old(View(other))
    {
      heartbeatRequired := heartbeatRequired + {ski};
      if ski in monitoring {
        monitoring := monitoring[ski := monitoring[ski].(heartbeatRequired := true)];
      }
    }

    method SupportLocked(ski: Ski, k: CapabilityKey, advertised: bool, disconnected: bool, now: Time)
      modifies this`entries
      ensures var t := Ensured(old(View(ski)).table, localCapabilities, now);
              var after := OnSupport(t, localCapabilities, k, advertised, disconnected, now);
              View(ski) == old(View(ski)).(table := Some(after))
      ensures forall other | other != ski :: View(other) == old(View(other))
    {
      hide OnSupport, Ensured, View;
      EnsureCapabilities(ski, now);
      var table := SupportTable(TableAt(ski), k, advertised, disconnected, now);
      StoreTable(ski, table);
    }

    method RecordSupport(ski: Ski, k: CapabilityKey, advertised: bool, now: Time)
      modifies this
      ensures Did(ski, Op.RecordSupport(k, advertised), now)
    {
      hide OnSupport, Ensured, View;
      if IsRemoved(ski) {
        return;
      }
      var disconnected := IsDisconnected(ski);
      if k == Heartbeat && advertised {
        RequireHeartbeat(ski);
      }
      SupportLocked(ski, k, advertised, disconnected, now);
    }

    method AnySource(sources: map<Source, bool>) returns (any: bool)
      ensures any <==> AnySupports(sources)
    {
      any := false;
      var todo := sources.Keys;
      while todo != {} && !any
        invariant todo <= sources.Keys
        invariant any ==> AnySupports(sources)
        invariant !any ==> forall s :: s in sources && sources[s] ==> s in todo
        decreases todo
      {
        var s :| s in todo;
        todo := todo - {s};
        any := sources[s];
      }
    }

    method NoteSource(ski: Ski, k: CapabilityKey, source: Source, advertised: bool) returns (any: bool)
      modifies this`support
      ensures any <==> AnySupports(Sources(old(View(ski)).support, k)[source := advertised])
      ensures View(ski) == old(View(ski)).(support := old(View(ski)).support[k := Sources(old(View(ski)).support,
                                                                                          k)[source := advertised]])
      ensures forall other | other != ski :: View(other) == old(View(other))
    {
      hide AnySupports;
      var byCapability := if ski in support then support[ski] else map[];
      var sources := (if k in byCapability then byCapability[k] else map[])[source := advertised];
      support := support[ski := byCapability[k := sources]];
      any := AnySource(sources);
    }

    /** Several use cases contribute to one capability: it is unsupported only when every source says so. */
    method RecordSourceSupport(ski: Ski, k: CapabilityKey, source: Source, advertised: bool, now: Time)
      modifies this
      ensures Did(ski, Op.RecordSourceSupport(k, source, advertised), now)
    {
      hide OnSupport, Ensured, View;
      if IsRemoved(ski) {
        return;
      }
      var disconnected := IsDisconnected(ski);
      var anySupports := NoteSource(ski, k, source, advertised);
      SupportLocked(ski, k, anySupports, disconnected, now);
    }

    method AttemptTable(start: Table, k: CapabilityKey, disconnected: bool, state: CapabilityState, reason: Reason,
                        now: Time) returns (table: Table)
      ensures table == OnAttempt(start, localCapabilities, k, disconnected, state, reason, now)
    {
      hide Set;
      table := start;
      if start[k].state == Unsupported {
        return;
      }
      if disconnected {
        table := WriteEntry(start, k, TemporarilyUnavailable, DeviceDisconnected, now);
        return;
      }
      table := WriteEntry(start, k, state, reason, now);
    }

    method AttemptLocked(ski: Ski, k: CapabilityKey, disconnected: bool, state: CapabilityState, reason: Reason,
                         now: Time)
      modifies this`entries
      ensures var t := Ensured(old(View(ski)).table, localCapabilities, now);
              var after := OnAttempt(t, localCapabilities, k, disconnected, state, reason, now);
              View(ski) == old(View(ski)).(table := Some(after))
      ensures forall other | other != ski :: View(other) == old(View(other))
    {
      hide OnAttempt, Ensured, View;
      EnsureCapabilities(ski, now);
      var table := AttemptTable(TableAt(ski), k, disconnected, state, reason, now);
      StoreTable(ski, table);
    }

    method RecordRead(ski: Ski, k: CapabilityKey, succeeded: bool, now: Time)
      modifies this
      ensures Did(ski, Op.RecordRead(k, succeeded), now)
    {
      hide OnAttempt, Ensured, View;
      if IsRemoved(ski) {
        return;
      }
      var disconnected := IsDisconnected(ski);
      var state, reason := TemporarilyUnavailable, ReadFailed;
      if succeeded {
        state, reason := Available, Unspecified;
      }
      AttemptLocked(ski, k, disconnected, state, reason, now);
    }

    method RecordEntityNotBound(ski: Ski, k: CapabilityKey, now: Time)
      modifies this
      ensures Did(ski, Op.RecordEntityNotBound(k), now)
    {
      hide OnAttempt, Ensured, View;
      if IsRemoved(ski) {
        return;
      }
      AttemptLocked(ski, k, IsDisconnected(ski), TemporarilyUnavailable, EntityNotBound, now);
    }

    method RecordMissingEntity(ski: Ski, k: CapabilityKey, now: Time)
      modifies this
      ensures Did(ski, Op.RecordMissingEntity(k), now)
    {
      hide OnAttempt, Ensured, View;
      if IsRemoved(ski) {
        return;
      }
      var disconnected := IsDisconnected(ski);
      var hasEntities := HasEntities(ski);
      var state, reason := TemporarilyUnavailable, EntityNotBound;
      if hasEntities {
        state, reason := Unsupported, RemoteNotAdvertised;
      }
      AttemptLocked(ski, k, disconnected, state, reason, now);
    }

    method SwitchEntry(ski: Ski, k: CapabilityKey, enabled: bool, now: Time)
      requires View(ski).table.Some? && k in localCapabilities && localCapabilities[k] == enabled
      modifies this`entries
      ensures View(ski) == Switched(old(View(ski)), localCapabilities, k, now)
      ensures forall other | other != ski :: View(other) == old(View(other))
    {
      hide View, Set;
      if enabled {
        SetCapabilityLocked(ski, k, Unknown, Unspecified, now);
      } else {
        SetCapabilityLocked(ski, k, Unsupported, LocalDisabled, now);
      }
    }

    method StoreSwitch(k: CapabilityKey, enabled: bool) returns (skis: set<Ski>)
      modifies this`localCapabilities
      ensures localCapabilities == old(localCapabilities)[k := enabled]
      ensures forall ski :: View(ski) == old(View(ski)) && (ski in skis <==> View(ski).table.Some?)
    {
      localCapabilities := localCapabilities[k := enabled];
      skis := entries.Keys;
    }

    /** Rewrites one entry of every existing table, removed devices having none. */
    method SetLocalCapabilityEnabled(k: CapabilityKey, enabled: bool, now: Time)
      modifies this
      ensures localCapabilities == old(localCapabilities)[k := enabled]
      ensures forall ski :: View(ski) == Switched(old(View(ski)), localCapabilities, k, now)
    {
      hide View, Set;
      var todo := StoreSwitch(k, enabled);
      assert forall ski | ski !in todo :: View(ski) == Switched(View(ski), localCapabilities, k, now);
      hide Switched;
      while todo != {}
        invariant localCapabilities == old(localCapabilities)[k := enabled]
        invariant forall ski | ski in todo :: View(ski).table.Some? && View(ski) == old(View(ski))
        invariant forall ski | ski !in todo :: View(ski) == Switched(old(View(ski)), localCapabilities, k, now)
        decreases todo
      {
        var ski :| ski in todo;
        todo := todo - {ski};
        SwitchEntry(ski, k, enabled, now);
      }
    }

    /** The connected devices whose evidence of life is missing or too old. */
    method StaleDevices(threshold: Time, gracePeriod: Time, now: Time) returns (result: set<Ski>)
      ensures result == set ski | ski in monitoring && Stale(monitoring[ski], threshold, gracePeriod, now)
    {
      result := {};
      var todo := monitoring.Keys;
      while todo != {}
        invariant todo <= monitoring.Keys
        invariant result == set ski | ski in monitoring.Keys - todo
                                      && Stale(monitoring[ski], threshold, gracePeriod, now)
        decreases todo
      {
        var ski :| ski in todo;
        todo := todo - {ski};
        var state := monitoring[ski];
        if state.connected && now - state.connectedAt > gracePeriod {
          var heartbeatStale := state.heartbeatRequired &&
                                (!HeartbeatOnConnection(state)
                                 || now - state.lastRemoteHeartbeat > HEARTBEAT_TOLERANCE);
          if !state.monitoringSuccessOnConnect || now - state.lastMonitoringSuccess > threshold || heartbeatStale {
            result := result + {ski};
          }
        }
      }
    }
  }
}
