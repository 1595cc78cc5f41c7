/**
  Capability results without an explicit state, as older bridges send them: what they leave of a capability
  and of its leaves, said outright (custom_components/eebus/state.py:264-284, 388-416).
 */
module Legacy {
  import opened Common
  import opened State
  import opened Reducer

  /** A result that says something about its capability; other statuses leave the capability as it is. */
  predicate Telling(result: CapabilityResult) {
    || result.status == None
    || result.status == Some(StatusUnimplemented)
    || result.status == Some(StatusNotFound)
    || result.status == Some(StatusUnavailable)
    || (result.status == Some(StatusUnknown) && result.explicitSupport)
  }

  predicate AllLegacy(results: seq<CapabilityResult>) {
    forall i :: 0 <= i < |results| ==> results[i].explicitState.None?
  }

  /** The results about one capability, in order. */
  function About(results: seq<CapabilityResult>, k: CapabilityKey): seq<CapabilityResult> {
    if results == [] then []
    else
      var before, last := About(results[..|results| - 1], k), results[|results| - 1];
      if last.capability == k then before + [last] else before
  }

  /**
    Whether results leave a capability unsupported: it sticks, until a result that carries explicit support
    says otherwise.
   */
  predicate Stuck(current: CapabilityState, results: seq<CapabilityResult>) {
    if results == [] then current == Unsupported
    else
      var before, last := Stuck(current, results[..|results| - 1]), results[|results| - 1];
      if last.status == Some(StatusUnimplemented) then true
      else before && !(last.explicitSupport && Telling(last))
  }

  /** What the last telling result says. */
  function LastTold(current: CapabilityState, results: seq<CapabilityResult>): CapabilityState {
    if results == [] then current
    else
      var last := results[|results| - 1];
      match last.status
      case None => Available
      case Some(StatusUnimplemented) => Unsupported
      case Some(StatusNotFound) => TemporarilyUnavailable
      case Some(StatusUnavailable) => TemporarilyUnavailable
      case Some(StatusUnknown) =>
        if last.explicitSupport then Unknown else LastTold(current, results[..|results| - 1])
      case Some(StatusOther) => LastTold(current, results[..|results| - 1])
  }

  /** The state that results leave: unsupported while stuck, otherwise what the last telling one said. */
  function Told(current: CapabilityState, results: seq<CapabilityResult>): CapabilityState {
    if Stuck(current, results) then Unsupported else LastTold(current, results)
  }

  lemma ToldNext(current: CapabilityState, results: seq<CapabilityResult>, last: CapabilityResult)
    requires last.explicitState.None?
    ensures NextCapabilityState(Told(current, results), last) == Told(current, results + [last])
    ensures Told(current, []) == current
  {
    var all := results + [last];
    assert all[..|all| - 1] == results;
    if !Stuck(current, results) {
      UnstuckIsSupported(current, results);
    }
  }

  lemma {:induction false} UnstuckIsSupported(current: CapabilityState, results: seq<CapabilityResult>)
    requires !Stuck(current, results)
    ensures LastTold(current, results) != Unsupported
    decreases |results|
  {
    if results != [] {
      var rest := results[..|results| - 1];
      if !Stuck(current, rest) {
        UnstuckIsSupported(current, rest);
      }
    }
  }

  // ------------------------------------------------------------------ stream observations

  /** Legacy results in a stream observation all count, in their order. */
  lemma {:induction false} ResultsTell(r: Reduction, results: seq<CapabilityResult>, revision: nat, k: CapabilityKey)
    requires AllLegacy(results)
    ensures ApplyResults(r, false, None, results, revision).state.capabilities[k] ==
            Told(r.state.capabilities[k], About(results, k))
  {
    hide ApplyResult, NextCapabilityState, Told, ValueFields;
    if results == [] {
      ToldNothing(r.state.capabilities[k]);
    } else {
      var rest, last := results[..|results| - 1], results[|results| - 1];
      ResultsTell(r, rest, revision, k);
      ApplyResultCapability(ApplyResults(r, false, None, rest, revision), false, None, last, revision);
      ToldNext(r.state.capabilities[k], About(rest, k), last);
    }
  }

  lemma ToldNothing(current: CapabilityState)
    ensures Told(current, []) == current
  {
  }

  /** A run of stream observations of an older bridge. */
  predicate LegacyStream(os: seq<Observation>) {
    forall i :: 0 <= i < |os| ==>
                  os[i].base.None? && os[i].explicitContract != Some(true) && AllLegacy(os[i].results)
  }

  function AllResults(os: seq<Observation>): seq<CapabilityResult> {
    if os == [] then [] else AllResults(os[..|os| - 1]) + os[|os| - 1].results
  }

  /**
    Over any run of an older bridge's stream the state of a capability is read off its results alone: it is
    unsupported from an Unimplemented on, until a result with explicit support lifts that, and otherwise what
    the last telling result said: success means Available, Not-Found and Unavailable mean temporarily
    unavailable, Unknown with explicit support means Unknown, and any other status says nothing.
   */
  lemma {:induction false} LegacyRunTells(r: Reduction, first: nat, os: seq<Observation>, k: CapabilityKey)
    requires !r.state.explicitContract && LegacyStream(os)
    ensures var after := Fold(r, first, os).state;
            && !after.explicitContract
            && after.capabilities[k] == Told(r.state.capabilities[k], About(AllResults(os), k))
  {
    hide Told, ReadPhase, ApplyResults;
    if os == [] {
      ToldNothing(r.state.capabilities[k]);
    } else {
      var rest, o := os[..|os| - 1], os[|os| - 1];
      var before := Fold(r, first, rest);
      LegacyRunTells(r, first, rest, k);
      ResultsTell(ReadPhase(before, o, first + |os|), o.results, first + |os|, k);
      AboutConcat(AllResults(rest), o.results, k);
      AboutLegacy(o.results, k);
      ToldConcat(r.state.capabilities[k], About(AllResults(rest), k), About(o.results, k));
    }
  }

  lemma {:induction false} AboutConcat(a: seq<CapabilityResult>, b: seq<CapabilityResult>, k: CapabilityKey)
    ensures About(a + b, k) == About(a, k) + About(b, k)
    decreases |b|
  {
    if b == [] {
      assert a + b == a;
    } else {
      assert (a + b)[..|a + b| - 1] == a + b[..|b| - 1];
      AboutConcat(a, b[..|b| - 1], k);
    }
  }

  lemma {:induction false} AboutLegacy(results: seq<CapabilityResult>, k: CapabilityKey)
    requires AllLegacy(results)
    ensures AllLegacy(About(results, k))
  {
    if results != [] {
      AboutLegacy(results[..|results| - 1], k);
    }
  }

  lemma {:induction false} ToldConcat(current: CapabilityState, a: seq<CapabilityResult>, b: seq<CapabilityResult>)
    requires AllLegacy(b)
    ensures Told(Told(current, a), b) == Told(current, a + b)
    decreases |b|
  {
    hide Told, NextCapabilityState;
    if b == [] {
      ToldNothing(Told(current, a));
      assert a + b == a;
    } else {
      var rest, last := b[..|b| - 1], b[|b| - 1];
      ToldConcat(current, a, rest);
      ToldNext(Told(current, a), rest, last);
      ToldNext(current, a + rest, last);
      assert rest + [last] == b && a + rest + [last] == a + b;
    }
  }

  // ------------------------------------------------------------------ one result

  /** The i-th result is the only one about its capability, and names no state. */
  predicate Sole(results: seq<CapabilityResult>, i: nat) {
    && i < |results| && results[i].explicitState.None?
    && forall j | 0 <= j < |results| && j != i :: results[j].capability != results[i].capability
  }

  /** What the result loop makes of a capability and a leaf of it when one legacy result speaks of them. */
  lemma {:induction false} SoleApplies(r: Reduction, base: Option<nat>, results: seq<CapabilityResult>, i: nat,
                                       revision: nat, f: StateField)
    requires Sole(results, i) && Owner(f) == Some(results[i].capability)
    requires !AnyNewer(r, base, results[i].capability)
    ensures var k, after := results[i].capability, ApplyResults(r, false, base, results, revision);
            var next := NextCapabilityState(r.state.capabilities[k], results[i]);
            && after.state.capabilities[k] == next
            && View(after, f) ==
               if next == Unsupported then Leaf(None, false, revision)
               else if next == TemporarilyUnavailable || results[i].explicitSupport
               then View(r, f).(isFresh := false, revision := revision)
               else View(r, f)
    decreases |results|
  {
    hide ApplyResult, Owner, ValueFields, NextCapabilityState;
    var rest, last := results[..|results| - 1], results[|results| - 1];
    var before := ApplyResults(r, false, base, rest, revision);
    ApplyResultView(before, false, base, last, revision, f);
    ApplyResultCapability(before, false, base, last, revision);
    if i < |rest| {
      SoleApplies(r, base, rest, i, revision, f);
    } else {
      OthersLeave(r, base, rest, revision, f, last.capability);
    }
  }

  /** Results about other capabilities leave this one, its leaves and their revisions as they are. */
  lemma OthersLeave(r: Reduction, base: Option<nat>, results: seq<CapabilityResult>, revision: nat, f: StateField,
                    k: CapabilityKey)
    requires forall j | 0 <= j < |results| :: results[j].capability != k
    requires Owner(f) == Some(k)
    ensures var after := ApplyResults(r, false, base, results, revision);
            && after.state.capabilities[k] == r.state.capabilities[k] && View(after, f) == View(r, f)
            && AnyNewer(after, base, k) == AnyNewer(r, base, k)
  {
    hide ApplyResults, Owner, ValueFields;
    UnnamedCapabilityKept(r, false, base, results, revision, f);
    var after := ApplyResults(r, false, base, results, revision);
    forall g | Owner(g) == Some(k) ensures View(after, g) == View(r, g) {
      UnnamedLeafKept(r, false, base, results, revision, g);
    }
    assert forall g | g in ValueFields(k) :: View(after, g).revision == RevisionOf(after.revisions, g)
                                             && View(r, g).revision == RevisionOf(r.revisions, g);
  }

  /**
    A legacy result that is the only one about its capability, in a stream observation or in a poll that was
    not overtaken there. A success makes the capability available, Unimplemented unsupported, Not-Found and
    Unavailable temporarily unavailable, Unknown with explicit support unknown, and any other status leaves it
    alone; but an unsupported capability stays so unless the result carries explicit support. The leaf is then
    empty, or stale, or what the observation itself read of it.
   */
  lemma LegacyResultDecides(r: Reduction, o: Observation, revision: nat, i: nat, f: StateField)
    requires !ContractAfter(r.state, o) && Sole(o.results, i) && Owner(f) == Some(o.results[i].capability)
    requires o.base.Some? ==> o.base.value < revision && !Overtaken(r, o, o.results[i].capability)
    ensures var result, k, after := o.results[i], o.results[i].capability, Reduce(r, o, revision);
            var was, now := r.state.capabilities[k], after.state.capabilities[k];
            var read := if f in o.unavailable
                        then Leaf(if f in o.observed then Lookup(o.values, f) else View(r, f).value, false, revision)
                        else if f in o.observed then Leaf(Lookup(o.values, f), true, revision) else View(r, f);
            && (if was == Unsupported && !result.explicitSupport then now == Unsupported
                else match result.status
                     case None => now == Available
                     case Some(StatusUnimplemented) => now == Unsupported
                     case Some(StatusNotFound) => now == TemporarilyUnavailable
                     case Some(StatusUnavailable) => now == TemporarilyUnavailable
                     case Some(StatusUnknown) => now == if result.explicitSupport then Unknown else was
                     case Some(StatusOther) => now == was)
            && View(after, f) ==
               if now == Unsupported then Leaf(None, false, revision)
               else if now == TemporarilyUnavailable || result.explicitSupport
               then read.(isFresh := false, revision := revision) else read
  {
    hide ReadPhase, ApplyResults, AnyNewer, Owner, ValueFields;
    var k := o.results[i].capability;
    var folded := ReadPhase(r, o, revision);
    NotOvertaken(r, o, revision, f, k);
    SoleApplies(folded, o.base, o.results, i, revision, f);
  }

  lemma NotOvertaken(r: Reduction, o: Observation, revision: nat, f: StateField, k: CapabilityKey)
    requires !ContractAfter(r.state, o) && Owner(f) == Some(k)
    requires o.base.Some? ==> o.base.value < revision && !Overtaken(r, o, k)
    ensures !AnyNewer(ReadPhase(r, o, revision), o.base, k)
    ensures View(ReadPhase(r, o, revision), f) ==
            if f in o.unavailable
            then Leaf(if f in o.observed then Lookup(o.values, f) else View(r, f).value, false, revision)
            else if f in o.observed then Leaf(Lookup(o.values, f), true, revision) else View(r, f)
  {
    hide ReadPhase, Owner, ValueFields;
    if o.base.Some? {
      ReadsOvertake(r, o, revision, k);
      assert f in ValueFields(k);
    }
  }

  // ------------------------------------------------------------------ polls

  /** A result after which a poll's later results about the capability are passed over. */
  predicate Closes(current: CapabilityState, heeded: seq<CapabilityResult>, k: CapabilityKey) {
    && k != Monitoring && heeded != []
    && (|| Told(current, heeded) == Unsupported || Told(current, heeded) == TemporarilyUnavailable
        || heeded[|heeded| - 1].explicitSupport)
  }

  /** The results of a poll that count for a capability: those about it, up to the first that closes it. */
  function Heeded(current: CapabilityState, results: seq<CapabilityResult>, k: CapabilityKey): seq<CapabilityResult> {
    if results == [] then []
    else
      var before, last := Heeded(current, results[..|results| - 1], k), results[|results| - 1];
      if last.capability != k || Closes(current, before, k) then before else before + [last]
  }

  lemma {:induction false} HeededDecides(current: CapabilityState, results: seq<CapabilityResult>, k: CapabilityKey)
    requires NoneExplicit(results, k)
    ensures var heeded := Heeded(current, results, k);
            LegacyState(current, results, k) == (Told(current, heeded), Closes(current, heeded, k))
  {
    hide Told, NextCapabilityState;
    if results == [] {
      ToldNothing(current);
    } else {
      var rest, last := results[..|results| - 1], results[|results| - 1];
      HeededDecides(current, rest, k);
      if last.capability == k {
        ToldNext(current, Heeded(current, rest, k), last);
      }
    }
  }

  /**
    What a legacy poll leaves of a capability. The reducer asks `is_newer` after its own loops have
    stamped the table, so a poll that read any leaf of a capability, or was overtaken on one, leaves the
    capability's state as it was. Otherwise its results count, up to the first that stamps the leaves itself.
   */
  lemma LegacyPollTells(r: Reduction, o: Observation, revision: nat, k: CapabilityKey)
    requires !ContractAfter(r.state, o) && Newer(revision, o.base) && NoneExplicit(o.results, k)
    ensures Reduce(r, o, revision).state.capabilities[k] ==
            if Overtaken(r, o, k) then r.state.capabilities[k]
            else Told(r.state.capabilities[k], Heeded(r.state.capabilities[k], o.results, k))
  {
    hide Reduce, Overtaken, Told, Heeded, LegacyState;
    LegacyPollCounts(r, o, revision, k);
    HeededDecides(r.state.capabilities[k], o.results, k);
  }

  // ------------------------------------------------------------------ what results say of themselves

  /** The metadata that came with the last explicit state of a capability. */
  function LastMetadata(os: seq<Observation>, k: CapabilityKey): Option<Metadata> {
    if os == [] then None
    else
      var last := LastNoted(os[|os| - 1].results, k);
      if last.Some? then last else LastMetadata(os[..|os| - 1], k)
  }

  function LastNoted(results: seq<CapabilityResult>, k: CapabilityKey): Option<Metadata> {
    if results == [] then None
    else
      var last := results[|results| - 1];
      if last.capability == k && last.explicitState.Some? then Some(last.metadata)
      else LastNoted(results[..|results| - 1], k)
  }

  /** The last observation that speaks of the contract. */
  function LastContract(os: seq<Observation>): Option<bool> {
    if os == [] then None
    else if os[|os| - 1].explicitContract.Some? then os[|os| - 1].explicitContract
    else LastContract(os[..|os| - 1])
  }

  lemma {:induction false} ResultsNote(r: Reduction, explicit: bool, base: Option<nat>, results: seq<CapabilityResult>,
                                       revision: nat, k: CapabilityKey)
    ensures var after, last := ApplyResults(r, explicit, base, results, revision).state, LastNoted(results, k);
            && after.explicitContract == r.state.explicitContract
            && (if last.Some? then k in after.metadata && after.metadata[k] == last.value
                else (k in after.metadata <==> k in r.state.metadata)
                     && (k in after.metadata ==> after.metadata[k] == r.state.metadata[k]))
  {
    hide ApplyResult;
    if results != [] {
      var rest, last := results[..|results| - 1], results[|results| - 1];
      ResultsNote(r, explicit, base, rest, revision, k);
      ResultNotes(ApplyResults(r, explicit, base, rest, revision), explicit, base, last, revision);
    }
  }

  lemma ResultNotes(r: Reduction, explicit: bool, base: Option<nat>, result: CapabilityResult, revision: nat)
    ensures var after := ApplyResult(r, explicit, base, result, revision).state;
            && after.explicitContract == r.state.explicitContract
            && after.metadata ==
               if result.explicitState.Some? then r.state.metadata[result.capability := result.metadata]
               else r.state.metadata
  {
    hide ValueFields, NextCapabilityState, Retired;
    var named := r.(state := Named(r.state, result));
    RetiredNotes(named, ValueFields(result.capability), true, revision);
    RetiredNotes(named, ValueFields(result.capability), false, revision);
  }

  lemma RetiredNotes(r: Reduction, fields: set<StateField>, clear: bool, revision: nat)
    ensures var after := Retired(r, fields, clear, revision).state;
            after.explicitContract == r.state.explicitContract && after.metadata == r.state.metadata
  {
  }

  /**
    Over any run the metadata of a capability are those of the last explicit state named for it, taken from
    polls and stream alike, and the contract in force is the last one stated.
   */
  lemma {:induction false} LastWordStands(r: Reduction, first: nat, os: seq<Observation>, k: CapabilityKey)
    ensures var after := Fold(r, first, os).state;
            var last, contract := LastMetadata(os, k), LastContract(os);
            && after.explicitContract == (if contract.Some? then contract.value else r.state.explicitContract)
            && (if last.Some? then k in after.metadata && after.metadata[k] == last.value
                else (k in after.metadata <==> k in r.state.metadata)
                     && (k in after.metadata ==> after.metadata[k] == r.state.metadata[k]))
  {
    hide ReadPhase, ApplyResults;
    if os != [] {
      var rest, o := os[..|os| - 1], os[|os| - 1];
      LastWordStands(r, first, rest, k);
      var before := Fold(r, first, rest);
      ResultsNote(ReadPhase(before, o, first + |os|), ContractAfter(before.state, o), o.base, o.results, first + |os|,
                  k);
    }
  }
}
