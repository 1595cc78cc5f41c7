/**
  The device state a client holds, and the reducer that folds one observation into it
  (custom_components/eebus/state.py).

  A leaf value is an opaque integer. Leaf values live in a map whose missing keys stand for
  Python's `None`. A leaf revision missing from the revision table reads as 0.
 */
module State {
  import opened Common

  datatype StateField =
    | Connected | LocalSki | SkiRegistered | DeviceInfo | DeviceOperatingState
    | PowerL1 | PowerL2 | PowerL3 | CurrentL1 | CurrentL2 | CurrentL3
    | VoltageL1 | VoltageL2 | VoltageL3 | Frequency | EnergyProduced
    | DhwTemperature | RoomTemperature | OutdoorTemperature | FlowTemperature
    | ReturnTemperature | CompressorTemperature | CompressorPower | PowerWatts
    | EnergyConsumedHeating | EnergyConsumedDhw | EnergyConsumed
    | ConsumptionLimit | FailsafeLimit | HeartbeatStatus | CompressorFlexibility
    | DhwSetpoint | DhwSystemFunctionState
    | RoomHeatingSetpoint | RoomHeatingSystemFunction | RoomHeatingZoneLabel

  datatype CapabilityKey =
    | Monitoring | Lpc | Failsafe | Heartbeat | Ohpcf | Dhw | DhwSystemFunction | RoomHeating

  datatype CapabilityState = Unknown | Available | TemporarilyUnavailable | Unsupported

  datatype StatusCode = StatusUnknown | StatusUnimplemented | StatusNotFound | StatusUnavailable | StatusOther

  type Capabilities = m: map<CapabilityKey, CapabilityState> | forall k: CapabilityKey :: k in m
    witness map k: CapabilityKey | true :: Unknown

  datatype Metadata = Metadata(reason: int, lastChanged: int)

  datatype DeviceState = DeviceState(
    values: map<StateField, int>,
    capabilities: Capabilities,
    metadata: map<CapabilityKey, Metadata>,
    explicitContract: bool,
    freshFields: set<StateField>)

  /** One capability attempt; a status of `None` is a successful read. */
  datatype CapabilityResult = CapabilityResult(
    capability: CapabilityKey,
    status: Option<StatusCode>,
    explicitSupport: bool,
    explicitState: Option<CapabilityState>,
    metadata: Metadata)

  datatype Observation = Observation(
    values: map<StateField, int>,
    observed: set<StateField>,
    unavailable: set<StateField>,
    results: seq<CapabilityResult>,
    explicitContract: Option<bool>,
    base: Option<nat>)

  const EMPTY_STATE: DeviceState :=
    DeviceState(map[], map k: CapabilityKey | true :: Unknown, map[], false, {})

  const NOTHING_SEEN: Observation := Observation(map[], {}, {}, [], None, None)

  /** The capability that owns a leaf, if any. */
  function Owner(f: StateField): Option<CapabilityKey> {
    match f
    case ConsumptionLimit => Some(Lpc)
    case FailsafeLimit => Some(Failsafe)
    case HeartbeatStatus => Some(Heartbeat)
    case CompressorFlexibility => Some(Ohpcf)
    case DhwSetpoint => Some(Dhw)
    case DhwSystemFunctionState => Some(DhwSystemFunction)
    case RoomHeatingSetpoint => Some(RoomHeating)
    case RoomHeatingSystemFunction => Some(RoomHeating)
    case RoomHeatingZoneLabel => Some(RoomHeating)
    case _ => None
  }

  function ValueFields(k: CapabilityKey): (fields: set<StateField>)
    ensures forall f :: f in fields <==> Owner(f) == Some(k)
  {
    match k
    case Monitoring => {}
    case Lpc => {ConsumptionLimit}
    case Failsafe => {FailsafeLimit}
    case Heartbeat => {HeartbeatStatus}
    case Ohpcf => {CompressorFlexibility}
    case Dhw => {DhwSetpoint}
    case DhwSystemFunction => {DhwSystemFunctionState}
    case RoomHeating => {RoomHeatingSetpoint, RoomHeatingSystemFunction, RoomHeatingZoneLabel}
  }

  function NextCapabilityState(current: CapabilityState, result: CapabilityResult): CapabilityState {
    if result.explicitState.Some? then
      result.explicitState.value
    else if current == Unsupported && !result.explicitSupport then
      Unsupported
    else if result.explicitSupport && result.status == Some(StatusUnknown) then
      Unknown
    else
      match result.status
      case None => Available
      case Some(StatusUnimplemented) => Unsupported
      case Some(StatusNotFound) => TemporarilyUnavailable
      case Some(StatusUnavailable) => TemporarilyUnavailable
      case Some(_) => current
  }

  // ------------------------------------------------------------------ leaves

  /** Everything the reducer knows about one leaf. */
  datatype Leaf = Leaf(value: Option<int>, isFresh: bool, revision: nat)

  /** The pair the reducer works on: the published state and the caller's revision table. */
  datatype Reduction = Reduction(state: DeviceState, revisions: map<StateField, nat>)

  function Lookup(values: map<StateField, int>, f: StateField): Option<int> {
    if f in values then Some(values[f]) else None
  }

  function Store(values: map<StateField, int>, f: StateField, v: Option<int>): map<StateField, int> {
    match v
    case Some(x) => values[f := x]
    case None => values - {f}
  }

  function RevisionOf(revisions: map<StateField, nat>, f: StateField): nat {
    if f in revisions then revisions[f] else 0
  }

  function View(r: Reduction, f: StateField): Leaf {
    Leaf(Lookup(r.state.values, f), f in r.state.freshFields, RevisionOf(r.revisions, f))
  }

  predicate Newer(revision: nat, base: Option<nat>) {
    base.Some? && revision > base.value
  }

  function ContractAfter(current: DeviceState, o: Observation): bool {
    match o.explicitContract
    case None => current.explicitContract
    case Some(b) => b
  }

  /** The last explicit state named for a capability: the entry a dictionary built in order ends up with. */
  function LastExplicit(results: seq<CapabilityResult>, k: CapabilityKey): Option<CapabilityState> {
    if results == [] then None
    else
      var last := results[|results| - 1];
      if last.capability == k && last.explicitState.Some? then last.explicitState
      else LastExplicit(results[..|results| - 1], k)
  }

  /** What the explicit contract says about a capability while this observation is reduced. */
  function ContractState(current: DeviceState, o: Observation, k: CapabilityKey): CapabilityState {
    var explicit := LastExplicit(o.results, k);
    if explicit.Some? then explicit.value else current.capabilities[k]
  }

  /** The explicit contract withholds an observed leaf unless its capability is available. */
  predicate Withheld(current: DeviceState, o: Observation, f: StateField) {
    ContractAfter(current, o) && Owner(f).Some? && ContractState(current, o, Owner(f).value) != Available
  }

  /** An observed leaf is written unless it is newer than the poll or withheld by the contract. */
  predicate Written(o: Observation, f: StateField, withheld: bool, leaf: Leaf) {
    f in o.observed && !Newer(leaf.revision, o.base) && !withheld
  }

  function AfterObserved(o: Observation, f: StateField, withheld: bool, leaf: Leaf, revision: nat): Leaf {
    if Written(o, f, withheld, leaf) then Leaf(Lookup(o.values, f), true, revision)
    else if f in o.observed && !Newer(leaf.revision, o.base) then leaf.(isFresh := false)
    else leaf
  }

  /** An unavailable leaf is withdrawn unless it is newer, perhaps only since this observation wrote it. */
  predicate Withdrawn(o: Observation, f: StateField, leaf: Leaf) {
    f in o.unavailable && !Newer(leaf.revision, o.base)
  }

  function AfterUnavailable(o: Observation, f: StateField, leaf: Leaf, revision: nat): Leaf {
    if Withdrawn(o, f, leaf) then leaf.(isFresh := false, revision := revision) else leaf
  }

  /** One leaf after the observed and the unavailable leaves have been folded in. */
  function AfterReads(current: DeviceState, o: Observation, f: StateField, leaf: Leaf, revision: nat): Leaf {
    AfterUnavailable(o, f, AfterObserved(o, f, Withheld(current, o, f), leaf, revision), revision)
  }

  function WithheldLeaves(current: DeviceState, o: Observation): set<StateField> {
    set f | f in o.observed && Withheld(current, o, f)
  }

  function ObservedPhase(r: Reduction, o: Observation, withheld: set<StateField>, revision: nat): (after: Reduction)
    ensures forall f :: View(after, f) == AfterObserved(o, f, f in withheld, View(r, f), revision)
    ensures forall f :: f in after.revisions <==> f in r.revisions || Written(o, f, f in withheld, View(r, f))
  {
    var leaf := (f: StateField) => AfterObserved(o, f, f in withheld, View(r, f), revision);
    Reduction(
      r.state.(
      values := map f: StateField | leaf(f).value.Some? :: leaf(f).value.value,
                                                             freshFields := set f: StateField | leaf(f).isFresh),
      map f: StateField | f in r.revisions || Written(o, f, f in withheld, View(r, f)) :: leaf(f).revision)
  }

  function UnavailablePhase(r: Reduction, o: Observation, revision: nat): (after: Reduction)
    ensures forall f :: View(after, f) == AfterUnavailable(o, f, View(r, f), revision)
    ensures forall f :: f in after.revisions <==> f in r.revisions || Withdrawn(o, f, View(r, f))
  {
    Reduction(
      r.state.(freshFields := set f: StateField | AfterUnavailable(o, f, View(r, f), revision).isFresh),
      map f: StateField | f in r.revisions || Withdrawn(o, f, View(r, f))
        :: AfterUnavailable(o, f, View(r, f), revision).revision)
  }

  function ReadPhase(r: Reduction, o: Observation, revision: nat): (after: Reduction)
    ensures forall f :: View(after, f) == AfterReads(r.state, o, f, View(r, f), revision)
    ensures after.state == r.state.(values := after.state.values, freshFields := after.state.freshFields)
  {
    UnavailablePhase(ObservedPhase(r, o, WithheldLeaves(r.state, o), revision), o, revision)
  }

  // ------------------------------------------------------------------ capability results

  predicate Skipped(r: Reduction, explicit: bool, base: Option<nat>, result: CapabilityResult) {
    result.explicitState.None? &&
    (explicit || exists f :: f in ValueFields(result.capability) && Newer(RevisionOf(r.revisions, f), base))
  }

  function Stamp(revisions: map<StateField, nat>, fields: set<StateField>, revision: nat): map<StateField, nat> {
    map f | f in revisions.Keys + fields :: if f in fields then revision else revisions[f]
  }

  /** The leaves of a capability made stale, and emptied as well when the capability is unsupported. */
  function Retired(r: Reduction, fields: set<StateField>, clear: bool, revision: nat): Reduction {
    Reduction(
      r.state.(
      values := if clear then r.state.values - fields else r.state.values,
      freshFields := r.state.freshFields - fields),
      Stamp(r.revisions, fields, revision))
  }

  /** The capability state and metadata one result leaves behind. */
  function Named(state: DeviceState, result: CapabilityResult): DeviceState {
    var k := result.capability;
    state.(
    capabilities := state.capabilities[k := NextCapabilityState(state.capabilities[k], result)],
    metadata := if result.explicitState.Some? then state.metadata[k := result.metadata] else state.metadata)
  }

  function ApplyResult(r: Reduction, explicit: bool, base: Option<nat>, result: CapabilityResult,
                       revision: nat): Reduction {
    if Skipped(r, explicit, base, result) then r
    else
      var next := NextCapabilityState(r.state.capabilities[result.capability], result);
      var named := r.(state := Named(r.state, result));
      if next == Unsupported then
        Retired(named, ValueFields(result.capability), true, revision)
      else if next == TemporarilyUnavailable || (result.explicitSupport && result.explicitState.None?) then
        Retired(named, ValueFields(result.capability), false, revision)
      else
        named
  }

  function ApplyResults(r: Reduction, explicit: bool, base: Option<nat>, results: seq<CapabilityResult>,
                        revision: nat): Reduction {
    if results == [] then r
    else
      var before := ApplyResults(r, explicit, base, results[..|results| - 1], revision);
      ApplyResult(before, explicit, base, results[|results| - 1], revision)
  }

  /** The whole reducer, leaf by leaf and then result by result. */
  function Reduce(r: Reduction, o: Observation, revision: nat): Reduction {
    var explicit := ContractAfter(r.state, o);
    var reduced := ApplyResults(ReadPhase(r, o, revision), explicit, o.base, o.results, revision);
    reduced.(state := reduced.state.(explicitContract := explicit))
  }

  /** The revision table a store hands to every reduction, changed in place. */
  class RevisionTable {
    var at: map<StateField, nat>

    constructor ()
      ensures at == map[]
    {
      at := map[];
    }
  }

  /** Two reductions with the same leaves, the same table domain and the same other parts are equal. */
  lemma SameReduction(a: Reduction, b: Reduction)
    requires a.state.(values := b.state.values, freshFields := b.state.freshFields) == b.state
    requires forall f :: View(a, f) == View(b, f)
    requires a.revisions.Keys == b.revisions.Keys
    ensures a == b
  {
    forall f ensures (f in a.state.values <==> f in b.state.values)
                     && (f in a.state.freshFields <==> f in b.state.freshFields)
      ensures f in a.state.values ==> a.state.values[f] == b.state.values[f]
      ensures f in a.revisions ==> a.revisions[f] == b.revisions[f]
    {
      assert View(a, f) == View(b, f);
    }
    assert a.state.values == b.state.values;
    assert a.state.freshFields == b.state.freshFields;
    assert a.revisions == b.revisions;
  }

  /** A reduction with one leaf written. */
  function WithLeaf(r: Reduction, f: StateField, value: Option<int>, revision: nat): Reduction {
    Reduction(
      r.state.(values := Store(r.state.values, f, value), freshFields := r.state.freshFields + {f}),
      r.revisions[f := revision])
  }

  /** One observed leaf folded in: what the body of the first loop does. */
  function Observe(o: Observation, f: StateField, withheld: bool, r: Reduction, revision: nat): Reduction {
    if Newer(RevisionOf(r.revisions, f), o.base) then r
    else if withheld then r.(state := r.state.(freshFields := r.state.freshFields - {f}))
    else WithLeaf(r, f, Lookup(o.values, f), revision)
  }

  lemma WithLeafView(r: Reduction, f: StateField, value: Option<int>, revision: nat)
    ensures var after := WithLeaf(r, f, value, revision);
            forall g :: View(after, g) == if g == f then Leaf(value, true, revision) else View(r, g)
  {
    var after := WithLeaf(r, f, value, revision);
    forall g | g != f ensures View(after, g) == View(r, g) {
      assert g in after.state.values <==> g in r.state.values;
    }
  }

  lemma ObserveView(o: Observation, f: StateField, withheld: bool, r: Reduction, revision: nat)
    requires f in o.observed
    ensures var after := Observe(o, f, withheld, r, revision);
            && after.state == r.state.(values := after.state.values, freshFields := after.state.freshFields)
            && after.revisions.Keys == r.revisions.Keys + (if Written(o, f, withheld, View(r, f)) then {f} else {})
            && View(after, f) == AfterObserved(o, f, withheld, View(r, f), revision)
            && forall g | g != f :: View(after, g) == View(r, g)
  {
    if Newer(RevisionOf(r.revisions, f), o.base) {
    } else if withheld {
    } else {
      WithLeafView(r, f, Lookup(o.values, f), revision);
    }
  }

  method ObserveLeaf(o: Observation, f: StateField, withheld: bool, working: DeviceState, table: RevisionTable,
                     revision: nat)
    returns (after: DeviceState)
    modifies table
    ensures Reduction(after, table.at) == Observe(o, f, withheld, Reduction(working, old(table.at)), revision)
  {
    after := working;
    if !Newer(RevisionOf(table.at, f), o.base) {
      if withheld {
        after := after.(freshFields := after.freshFields - {f});
      } else {
        after := after.(values := Store(after.values, f, Lookup(o.values, f)));
        after := after.(freshFields := after.freshFields + {f});
        table.at := table.at[f := revision];
      }
    }
  }

  /** Part of the way through a loop: the leaves still to do are as at the start, the others as in the goal. */
  ghost predicate Partway(now: Reduction, start: Reduction, goal: Reduction, todo: set<StateField>) {
    && now.state == start.state.(values := now.state.values, freshFields := now.state.freshFields)
    && (forall f :: View(now, f) == View(if f in todo then start else goal, f))
    && (forall f :: f in now.revisions <==> f in (if f in todo then start else goal).revisions)
  }

  lemma ObserveStep(now: Reduction, start: Reduction, goal: Reduction, todo: set<StateField>,
                    o: Observation, f: StateField, withheld: bool, revision: nat)
    requires Partway(now, start, goal, todo) && f in todo && f in o.observed
    requires View(goal, f) == AfterObserved(o, f, withheld, View(start, f), revision)
    requires f in goal.revisions <==> f in start.revisions || Written(o, f, withheld, View(start, f))
    ensures Partway(Observe(o, f, withheld, now, revision), start, goal, todo - {f})
  {
    ObserveView(o, f, withheld, now, revision);
    var next := Observe(o, f, withheld, now, revision);
    hide Observe;
    ViewsAdvance(now, next, start, goal, todo, f);
    KeysAdvance(now, next, start, goal, todo, f);
  }

  lemma ViewsAdvance(now: Reduction, next: Reduction, start: Reduction, goal: Reduction, todo: set<StateField>,
                     f: StateField)
    requires Partway(now, start, goal, todo) && f in todo
    requires View(next, f) == View(goal, f) && forall g | g != f :: View(next, g) == View(now, g)
    ensures forall g :: View(next, g) == View(if g in todo - {f} then start else goal, g)
  {
    hide View;
  }

  lemma KeysAdvance(now: Reduction, next: Reduction, start: Reduction, goal: Reduction, todo: set<StateField>,
                    f: StateField)
    requires Partway(now, start, goal, todo) && f in todo
    requires forall g | g != f :: g in next.revisions <==> g in now.revisions
    requires f in next.revisions <==> f in goal.revisions
    ensures forall g :: g in next.revisions <==> g in (if g in todo - {f} then start else goal).revisions
  {
    hide View;
  }

  /** The first loop of the reducer; the observed leaves come in any order. */
  method FoldObserved(current: DeviceState, o: Observation, withheld: set<StateField>, table: RevisionTable,
                      revision: nat)
    returns (updated: DeviceState)
    modifies table
    ensures Reduction(updated, table.at) == ObservedPhase(Reduction(current, old(table.at)), o, withheld, revision)
  {
    ghost var start := Reduction(current, table.at);
    ghost var goal := ObservedPhase(start, o, withheld, revision);
    updated := current;
    var todo := o.observed;
    Starts(start, goal, o, withheld, revision);
    hide ObservedPhase, Observe, Partway;
    while todo != {}
      invariant todo <= o.observed
      invariant Partway(Reduction(updated, table.at), start, goal, todo)
      decreases todo
    {
      var f :| f in todo;
      ObserveStep(Reduction(updated, table.at), start, goal, todo, o, f, f in withheld, revision);
      todo := todo - {f};
      updated := ObserveLeaf(o, f, f in withheld, updated, table, revision);
    }
    Arrived(Reduction(updated, table.at), start, goal, o, withheld, revision);
  }

  lemma Starts(start: Reduction, goal: Reduction, o: Observation, withheld: set<StateField>, revision: nat)
    requires goal == ObservedPhase(start, o, withheld, revision)
    ensures Partway(start, start, goal, o.observed)
  {
    hide ObservedPhase;
  }

  lemma Arrived(now: Reduction, start: Reduction, goal: Reduction, o: Observation, withheld: set<StateField>,
                revision: nat)
    requires goal == ObservedPhase(start, o, withheld, revision) && Partway(now, start, goal, {})
    ensures now == goal
  {
    SameReduction(now, goal);
  }

  /** The second loop; the unavailable leaves come in any order. */
  method FoldUnavailable(current: DeviceState, o: Observation, table: RevisionTable, revision: nat)
    returns (updated: DeviceState)
    modifies table
    ensures Reduction(updated, table.at) == UnavailablePhase(Reduction(current, old(table.at)), o, revision)
  {
    ghost var start := Reduction(current, table.at);
    ghost var goal := UnavailablePhase(start, o, revision);
    var live := current.freshFields;
    var todo := o.unavailable;
    while todo != {}
      invariant todo <= o.unavailable
      invariant forall f :: f in live <==> if f in todo then f in current.freshFields else f in goal.state.freshFields
      invariant forall f :: f in table.at <==> if f in todo then f in start.revisions else f in goal.revisions
      invariant forall f :: RevisionOf(table.at, f) == if f in todo then RevisionOf(start.revisions, f)
                                                       else View(goal, f).revision
      decreases todo
    {
      var f :| f in todo;
      todo := todo - {f};
      assert View(goal, f) == AfterUnavailable(o, f, View(start, f), revision);
      if !Newer(RevisionOf(table.at, f), o.base) {
        live := live - {f};
        ghost var before := table.at;
        table.at := table.at[f := revision];
        assert forall g | g != f :: RevisionOf(table.at, g) == RevisionOf(before, g);
      }
    }
    updated := current.(freshFields := live);
    SameReduction(Reduction(updated, table.at), goal);
  }

  /** The third loop: the leaves of one capability, emptied or only made stale. */
  method Retire(fields: set<StateField>, clear: bool, current: DeviceState, table: RevisionTable, revision: nat)
    returns (updated: DeviceState)
    modifies table
    ensures Reduction(updated, table.at) == Retired(Reduction(current, old(table.at)), fields, clear, revision)
  {
    var values, live := current.values, current.freshFields;
    var done: set<StateField> := {};
    assert values - done == values && live - done == live && Stamp(table.at, done, revision) == table.at;
    while fields - done != {}
      invariant done <= fields
      invariant values == if clear then current.values - done else current.values
      invariant live == current.freshFields - done
      invariant table.at == Stamp(old(table.at), done, revision)
      decreases fields - done
    {
      var f :| f in fields - done;
      done := done + {f};
      if clear {
        values := values - {f};
      }
      live := live - {f};
      table.at := table.at[f := revision];
    }
    assert done == fields;
    updated := current.(values := values, freshFields := live);
  }

  /** One pass of the last loop. */
  method FoldResult(current: DeviceState, explicit: bool, base: Option<nat>, result: CapabilityResult,
                    table: RevisionTable, revision: nat)
    returns (updated: DeviceState)
    modifies table
    ensures Reduction(updated, table.at) == ApplyResult(Reduction(current, old(table.at)), explicit, base, result,
                                                        revision)
  {
    updated := current;
    var fields := ValueFields(result.capability);
    if result.explicitState.None? && (explicit || exists f | f in fields :: Newer(RevisionOf(table.at, f), base)) {
      return;
    }
    var next := NextCapabilityState(updated.capabilities[result.capability], result);
    updated := updated.(capabilities := updated.capabilities[result.capability := next]);
    if result.explicitState.Some? {
      updated := updated.(metadata := updated.metadata[result.capability := result.metadata]);
    }
    if next == Unsupported {
      updated := Retire(fields, true, updated, table, revision);
    } else if next == TemporarilyUnavailable || (result.explicitSupport && result.explicitState.None?) {
      updated := Retire(fields, false, updated, table, revision);
    }
  }

  /** The last loop, over the capability results in their given order. */
  method FoldResults(current: DeviceState, explicit: bool, base: Option<nat>, results: seq<CapabilityResult>,
                     table: RevisionTable, revision: nat)
    returns (updated: DeviceState)
    modifies table
    ensures Reduction(updated, table.at) == ApplyResults(Reduction(current, old(table.at)), explicit, base, results,
                                                         revision)
  {
    ghost var start := Reduction(current, table.at);
    updated := current;
    for i := 0 to |results|
      invariant Reduction(updated, table.at) == ApplyResults(start, explicit, base, results[..i], revision)
    {
      assert results[..i + 1][..i] == results[..i];
      updated := FoldResult(updated, explicit, base, results[i], table, revision);
    }
    assert results[..|results|] == results;
  }

  /**
    One observation folded into the current state: a loop over the observed leaves, one over the
    unavailable leaves, one over the capability results. The caller's table changes on the way, so a
    leaf this very observation wrote already counts as newer when the later loops look at it.
   */
  method ReduceObservation(current: DeviceState, o: Observation, table: RevisionTable, revision: nat)
    returns (updated: DeviceState)
    modifies table
    ensures Reduction(updated, table.at) == Reduce(Reduction(current, old(table.at)), o, revision)
  {
    var explicit := if o.explicitContract.None? then current.explicitContract else o.explicitContract.value;
    updated := FoldObserved(current, o, WithheldLeaves(current, o), table, revision);
    updated := FoldUnavailable(updated, o, table, revision);
    updated := FoldResults(updated, explicit, o.base, o.results, table, revision);
    updated := updated.(explicitContract := explicit);
  }
}
