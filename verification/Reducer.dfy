/** What the reducer guarantees, leaf by leaf, step by step and over whole runs. */
module Reducer {
  import opened Common
  import opened State

  // ------------------------------------------------------------------ the result loop

  /** No result of the list can have touched this leaf. */
  predicate Unnamed(results: seq<CapabilityResult>, f: StateField) {
    forall i :: 0 <= i < |results| ==> Owner(f) != Some(results[i].capability)
  }

  lemma RetiredView(r: Reduction, fields: set<StateField>, clear: bool, revision: nat, f: StateField)
    ensures View(Retired(r, fields, clear, revision), f) ==
            if f !in fields then View(r, f)
            else if clear then Leaf(None, false, revision)
            else View(r, f).(isFresh := false, revision := revision)
  {
  }

  lemma ApplyResultView(r: Reduction, explicit: bool, base: Option<nat>, result: CapabilityResult, revision: nat,
                        f: StateField)
    ensures var after := ApplyResult(r, explicit, base, result, revision);
            var next := NextCapabilityState(r.state.capabilities[result.capability], result);
            View(after, f) ==
            if Skipped(r, explicit, base, result) || Owner(f) != Some(result.capability) then View(r, f)
            else if next == Unsupported then Leaf(None, false, revision)
            else if next == TemporarilyUnavailable || (result.explicitSupport && result.explicitState.None?)
            then View(r, f).(isFresh := false, revision := revision)
            else View(r, f)
  {
    hide Owner, ValueFields, NextCapabilityState, Retired, Skipped;
    var named := r.(state := Named(r.state, result));
    assert View(named, f) == View(r, f);
    RetiredView(named, ValueFields(result.capability), true, revision, f);
    RetiredView(named, ValueFields(result.capability), false, revision, f);
  }

  lemma ApplyResultCapability(r: Reduction, explicit: bool, base: Option<nat>, result: CapabilityResult, revision: nat)
    ensures var k := result.capability;
            ApplyResult(r, explicit, base, result, revision).state.capabilities ==
            if Skipped(r, explicit, base, result) then r.state.capabilities
            else r.state.capabilities[k := NextCapabilityState(r.state.capabilities[k], result)]
  {
    hide Owner, ValueFields, NextCapabilityState, Skipped, Stamp;
  }

  /** A leaf whose capability no result names, or that has no capability, comes through the result loop unchanged. */
  lemma {:induction false} UnnamedLeafKept(r: Reduction, explicit: bool, base: Option<nat>,
                                           results: seq<CapabilityResult>, revision: nat, f: StateField)
    requires Unnamed(results, f)
    ensures View(ApplyResults(r, explicit, base, results, revision), f) == View(r, f)
  {
    hide ApplyResult, Owner, ValueFields, NextCapabilityState;
    if results != [] {
      var rest := results[..|results| - 1];
      UnnamedLeafKept(r, explicit, base, rest, revision, f);
      ApplyResultView(ApplyResults(r, explicit, base, rest, revision), explicit, base, results[|results| - 1],
                      revision, f);
    }
  }

  /** Results about different capabilities commute on every leaf: only the order within one capability matters. */
  lemma ResultsCommute(r: Reduction, explicit: bool, base: Option<nat>, a: CapabilityResult, b: CapabilityResult,
                       revision: nat, f: StateField)
    requires a.capability != b.capability
    ensures View(ApplyResult(ApplyResult(r, explicit, base, a, revision), explicit, base, b, revision), f) ==
            View(ApplyResult(ApplyResult(r, explicit, base, b, revision), explicit, base, a, revision), f)
  {
    hide ApplyResult, Skipped, NextCapabilityState, ValueFields, Owner, View;
    SkipsAgree(r, explicit, base, a, b, revision);
    SkipsAgree(r, explicit, base, b, a, revision);
    ApplyResultView(r, explicit, base, a, revision, f);
    ApplyResultView(r, explicit, base, b, revision, f);
    ApplyResultView(ApplyResult(r, explicit, base, a, revision), explicit, base, b, revision, f);
    ApplyResultView(ApplyResult(r, explicit, base, b, revision), explicit, base, a, revision, f);
  }

  lemma SkipsAgree(r: Reduction, explicit: bool, base: Option<nat>, a: CapabilityResult, b: CapabilityResult,
                   revision: nat)
    requires a.capability != b.capability
    ensures var ra := ApplyResult(r, explicit, base, a, revision);
            && Skipped(ra, explicit, base, b) == Skipped(r, explicit, base, b)
            && ra.state.capabilities[b.capability] == r.state.capabilities[b.capability]
  {
    hide ApplyResult, Owner, ValueFields, NextCapabilityState;
    var ra := ApplyResult(r, explicit, base, a, revision);
    ApplyResultCapability(r, explicit, base, a, revision);
    forall f | f in ValueFields(b.capability) ensures RevisionOf(ra.revisions, f) == RevisionOf(r.revisions, f) {
      ApplyResultView(r, explicit, base, a, revision, f);
      assert View(ra, f) == View(r, f);
    }
  }

  // ------------------------------------------------------------------ one step, one leaf

  /** The whole step for a leaf whose capability no result names. */
  lemma ReduceLeaf(r: Reduction, o: Observation, revision: nat, f: StateField)
    requires Unnamed(o.results, f)
    ensures View(Reduce(r, o, revision), f) == AfterReads(r.state, o, f, View(r, f), revision)
  {
    hide ApplyResults, ReadPhase;
    UnnamedLeafKept(ReadPhase(r, o, revision), ContractAfter(r.state, o), o.base, o.results, revision, f);
  }

  /** The explicit states that a list of results gives the capability of a leaf. */
  function Verdicts(results: seq<CapabilityResult>, f: StateField): set<CapabilityState> {
    if results == [] then {}
    else
      var last := results[|results| - 1];
      Verdicts(results[..|results| - 1], f) +
      if Owner(f) == Some(last.capability) && last.explicitState.Some? then {last.explicitState.value} else {}
  }

  /**
    A leaf that changed after the poll began keeps its value, freshness and revision, unless the
    poll carries an explicit verdict on its capability: Unsupported empties it, otherwise
    TemporarilyUnavailable makes it stale and leaves its value.
   */
  lemma NewerLeafKept(r: Reduction, o: Observation, revision: nat, f: StateField)
    requires Newer(View(r, f).revision, o.base) && Newer(revision, o.base)
    ensures View(Reduce(r, o, revision), f) ==
            if Unsupported in Verdicts(o.results, f) then Leaf(None, false, revision)
            else if TemporarilyUnavailable in Verdicts(o.results, f) then View(r, f).(isFresh := false,
                                                                          revision := revision)
            else View(r, f)
  {
    hide ApplyResults, ReadPhase, Verdicts, Owner, Withheld;
    NewerThroughResults(ReadPhase(r, o, revision), ContractAfter(r.state, o), o.base, o.results, revision, f);
  }

  lemma {:induction false} NewerThroughResults(r: Reduction, explicit: bool, base: Option<nat>,
                                               results: seq<CapabilityResult>, revision: nat, f: StateField)
    requires Newer(View(r, f).revision, base) && Newer(revision, base)
    ensures View(ApplyResults(r, explicit, base, results, revision), f) ==
            if Unsupported in Verdicts(results, f) then Leaf(None, false, revision)
            else if TemporarilyUnavailable in Verdicts(results, f) then View(r, f).(isFresh := false,
                                                                        revision := revision)
            else View(r, f)
  {
    hide ApplyResult, Owner, ValueFields;
    if results != [] {
      var rest, last := results[..|results| - 1], results[|results| - 1];
      var before := ApplyResults(r, explicit, base, rest, revision);
      NewerThroughResults(r, explicit, base, rest, revision, f);
      ApplyResultView(before, explicit, base, last, revision, f);
      if Owner(f) == Some(last.capability) && last.explicitState.None? {
        assert f in ValueFields(last.capability) && Newer(RevisionOf(before.revisions, f), base);
        assert Skipped(before, explicit, base, last);
      }
    }
  }

  /** Some leaf of the capability counts as newer than the poll once the poll's own reads are folded in. */
  predicate Overtaken(r: Reduction, o: Observation, k: CapabilityKey) {
    exists f :: f in ValueFields(k) && (Newer(View(r, f).revision, o.base) || f in o.observed || f in o.unavailable)
  }

  predicate AnyNewer(r: Reduction, base: Option<nat>, k: CapabilityKey) {
    exists f :: f in ValueFields(k) && Newer(RevisionOf(r.revisions, f), base)
  }

  /** A result that stamps the leaves of its capability. */
  predicate Stamps(next: CapabilityState, result: CapabilityResult) {
    ValueFields(result.capability) != {} && (next == Unsupported || next == TemporarilyUnavailable
                                             || result.explicitSupport)
  }

  /** What legacy results make of a capability, one by one, up to the first that stamps its leaves. */
  function LegacyState(current: CapabilityState, results: seq<CapabilityResult>, k: CapabilityKey): (CapabilityState,
    bool) {
    if results == [] then (current, false)
    else
      var last := results[|results| - 1];
      var before := LegacyState(current, results[..|results| - 1], k);
      if last.capability != k || before.1 then before
      else var next := NextCapabilityState(before.0, last); (next, Stamps(next, last))
  }

  predicate NoneExplicit(results: seq<CapabilityResult>, k: CapabilityKey) {
    forall i :: 0 <= i < |results| && results[i].capability == k ==> results[i].explicitState.None?
  }

  lemma ReadsOvertake(r: Reduction, o: Observation, revision: nat, k: CapabilityKey)
    requires !ContractAfter(r.state, o) && Newer(revision, o.base)
    ensures AnyNewer(ReadPhase(r, o, revision), o.base, k) <==> Overtaken(r, o, k)
  {
    hide ReadPhase, ValueFields, Owner;
    var after := ReadPhase(r, o, revision);
    forall f
      ensures Newer(RevisionOf(after.revisions, f), o.base) <==>
              Newer(View(r, f).revision, o.base) || f in o.observed || f in o.unavailable
    {
      assert View(after, f) == AfterReads(r.state, o, f, View(r, f), revision);
    }
  }

  /** One result, for the capability it may name. */
  lemma LegacyStep(r: Reduction, base: Option<nat>, result: CapabilityResult, revision: nat, k: CapabilityKey)
    requires Newer(revision, base) && (result.capability == k ==> result.explicitState.None?)
    ensures var after := ApplyResult(r, false, base, result, revision);
            var next := NextCapabilityState(r.state.capabilities[k], result);
            if result.capability != k || AnyNewer(r, base, k) then
              after.state.capabilities[k] == r.state.capabilities[k] && AnyNewer(after, base, k) == AnyNewer(r, base, k)
            else
              after.state.capabilities[k] == next && AnyNewer(after, base, k) == Stamps(next, result)
  {
    hide ApplyResult, NextCapabilityState, ValueFields, Owner;
    ApplyResultCapability(r, false, base, result, revision);
    var after := ApplyResult(r, false, base, result, revision);
    forall f | f in ValueFields(k)
      ensures RevisionOf(after.revisions, f) ==
              if result.capability != k || Skipped(r, false, base, result) then RevisionOf(r.revisions, f)
              else if Stamps(NextCapabilityState(r.state.capabilities[k], result), result) then revision
              else RevisionOf(r.revisions, f)
    {
      ApplyResultView(r, false, base, result, revision, f);
      assert View(after, f).revision == RevisionOf(after.revisions, f);
    }
    if result.capability == k && !AnyNewer(r, base, k) && ValueFields(k) != {} {
      var f :| f in ValueFields(k);
      assert Newer(RevisionOf(after.revisions, f), base)
        <==> Stamps(NextCapabilityState(r.state.capabilities[k], result), result);
    }
  }

  lemma {:induction false} LegacyResults(r: Reduction, base: Option<nat>, results: seq<CapabilityResult>,
                                         revision: nat, k: CapabilityKey)
    requires Newer(revision, base) && NoneExplicit(results, k)
    ensures var after := ApplyResults(r, false, base, results, revision);
            var state := LegacyState(r.state.capabilities[k], results, k);
            if AnyNewer(r, base, k) then
              after.state.capabilities[k] == r.state.capabilities[k] && AnyNewer(after, base, k)
            else
              after.state.capabilities[k] == state.0 && AnyNewer(after, base, k) == state.1
  {
    hide ApplyResult, NextCapabilityState, AnyNewer, Stamps;
    if results != [] {
      var rest := results[..|results| - 1];
      LegacyResults(r, base, rest, revision, k);
      LegacyStep(ApplyResults(r, false, base, rest, revision), base, results[|results| - 1], revision, k);
    }
  }

  /** What a poll leaves of a capability: nothing new if overtaken there, otherwise what its results come to. */
  lemma LegacyPollCounts(r: Reduction, o: Observation, revision: nat, k: CapabilityKey)
    requires !ContractAfter(r.state, o) && Newer(revision, o.base) && NoneExplicit(o.results, k)
    ensures Reduce(r, o, revision).state.capabilities[k] ==
            if Overtaken(r, o, k) then r.state.capabilities[k]
            else LegacyState(r.state.capabilities[k], o.results, k).0
  {
    hide ReadPhase, ApplyResults, AnyNewer, Overtaken;
    ReadsOvertake(r, o, revision, k);
    LegacyResults(ReadPhase(r, o, revision), o.base, o.results, revision, k);
  }

  /** So a first, successful legacy read of the consumption limit shows the limit and leaves Lpc Unknown. */
  lemma SuccessfulLegacyReadStaysUnknown()
    ensures var success := CapabilityResult(Lpc, None, false, None, Metadata(0, 0));
            var poll := Observation(map[ConsumptionLimit := 7], {ConsumptionLimit}, {}, [success], None, Some(0));
            var r := Reduce(Reduction(EMPTY_STATE, map[]), poll, 1);
            r.state.capabilities[Lpc] == Unknown && View(r, ConsumptionLimit) == Leaf(Some(7), true, 1)
  {
    hide Reduce;
    var success := CapabilityResult(Lpc, None, false, None, Metadata(0, 0));
    var poll := Observation(map[ConsumptionLimit := 7], {ConsumptionLimit}, {}, [success], None, Some(0));
    var start := Reduction(EMPTY_STATE, map[]);
    assert ConsumptionLimit in ValueFields(Lpc);
    assert Overtaken(start, poll, Lpc);
    LegacyPollCounts(start, poll, 1, Lpc);
    SkippedLeafKept(start, poll, 1, ConsumptionLimit);
  }

  /** A leaf whose only result is a skipped one keeps what the reads made of it. */
  lemma SkippedLeafKept(r: Reduction, o: Observation, revision: nat, f: StateField)
    requires !ContractAfter(r.state, o) && Newer(revision, o.base) && |o.results| == 1
             && o.results[0].explicitState.None?
    requires Owner(f) == Some(o.results[0].capability) && Overtaken(r, o, o.results[0].capability)
    ensures View(Reduce(r, o, revision), f) == AfterReads(r.state, o, f, View(r, f), revision)
  {
    hide ReadPhase, ApplyResult, Overtaken;
    var after := ReadPhase(r, o, revision);
    ReadsOvertake(r, o, revision, o.results[0].capability);
    assert o.results[..0] == [];
    assert ApplyResults(after, false, o.base, o.results, revision)
        == ApplyResult(after, false, o.base, o.results[0], revision);
    ApplyResultView(after, false, o.base, o.results[0], revision, f);
  }

  // ------------------------------------------------------------------ any leaf, any observation

  /** The contract withholds what an observation read of a leaf. */
  predicate Withholds(r: Reduction, o: Observation, f: StateField) {
    f in o.observed && !Newer(View(r, f).revision, o.base) && Withheld(r.state, o, f)
  }

  lemma {:induction false} ResultsLeave(r: Reduction, explicit: bool, base: Option<nat>, results: seq<CapabilityResult>,
                                        revision: nat, f: StateField)
    ensures var after := View(ApplyResults(r, explicit, base, results, revision), f);
            after == View(r, f) || (!after.isFresh && after.revision == revision)
  {
    hide ApplyResult, Owner, ValueFields, NextCapabilityState;
    if results != [] {
      var rest, last := results[..|results| - 1], results[|results| - 1];
      ResultsLeave(r, explicit, base, rest, revision, f);
      ApplyResultView(ApplyResults(r, explicit, base, rest, revision), explicit, base, last, revision, f);
    }
  }

  /**
    What an observation, whatever it carries, can make of a leaf: nothing, if it does not touch it or is
    overtaken; its own reading, stamped; or a stale leaf, unstamped only when the contract withheld the reading.
   */
  lemma LeafOutcome(r: Reduction, o: Observation, revision: nat, f: StateField)
    requires View(r, f).revision < revision && (o.base.Some? ==> o.base.value < revision)
    ensures var leaf, after := View(r, f), View(Reduce(r, o, revision), f);
            var read := (f in o.observed || f in o.unavailable) && !Newer(leaf.revision, o.base);
            || (after == leaf && !read)
            || (after == Leaf(Lookup(o.values, f), true, revision) && f in o.observed && read)
            || (!after.isFresh && after.revision == revision)
            || (after == leaf.(isFresh := false) && Withholds(r, o, f))
  {
    hide ReadPhase, ApplyResults, Withheld;
    ResultsLeave(ReadPhase(r, o, revision), ContractAfter(r.state, o), o.base, o.results, revision, f);
  }

  // ------------------------------------------------------------------ runs

  /** The left fold of the reducer, with consecutive revisions above `first`. */
  function Fold(r: Reduction, first: nat, os: seq<Observation>): Reduction {
    if os == [] then r
    else Reduce(Fold(r, first, os[..|os| - 1]), os[|os| - 1], first + |os|)
  }

  lemma {:induction false} FoldConcat(r: Reduction, first: nat, a: seq<Observation>, b: seq<Observation>)
    ensures Fold(r, first, a + b) == Fold(Fold(r, first, a), first + |a|, b)
    decreases |b|
  {
    hide Reduce;
    if b == [] {
      assert a + b == a;
    } else {
      var rest := b[..|b| - 1];
      assert (a + b)[..|a + b| - 1] == a + rest;
      FoldConcat(r, first, a, rest);
    }
  }

  /** No leaf carries a revision above the store's. */
  predicate Bounded(r: Reduction, revision: nat) {
    forall f :: View(r, f).revision <= revision
  }

  lemma {:induction false} ResultRevisions(r: Reduction, explicit: bool, base: Option<nat>,
                                           results: seq<CapabilityResult>, revision: nat, f: StateField)
    ensures var after := ApplyResults(r, explicit, base, results, revision);
            View(after, f).revision == View(r, f).revision || View(after, f).revision == revision
  {
    hide ApplyResult, Owner, ValueFields, NextCapabilityState;
    if results != [] {
      var rest, last := results[..|results| - 1], results[|results| - 1];
      ResultRevisions(r, explicit, base, rest, revision, f);
      ApplyResultView(ApplyResults(r, explicit, base, rest, revision), explicit, base, last, revision, f);
    }
  }

  /** Leaf revisions never decrease over a run and never exceed the store's revision. */
  lemma {:induction false} RevisionsGrow(r: Reduction, first: nat, os: seq<Observation>, f: StateField)
    requires View(r, f).revision <= first
    ensures View(r, f).revision <= View(Fold(r, first, os), f).revision <= first + |os|
  {
    hide ReadPhase, ApplyResults, Owner, Withheld;
    if os != [] {
      var rest, o := os[..|os| - 1], os[|os| - 1];
      RevisionsGrow(r, first, rest, f);
      var before := Fold(r, first, rest);
      ResultRevisions(ReadPhase(before, o, first + |os|), ContractAfter(before.state, o), o.base, o.results,
                      first + |os|, f);
    }
  }

  // ------------------------------------------------------------------ a late poll and the stream

  predicate Streamed(os: seq<Observation>) {
    forall i :: 0 <= i < |os| ==> os[i].base.None?
  }

  predicate Touched(os: seq<Observation>, f: StateField) {
    os != [] &&
    var last := os[|os| - 1];
    Touched(os[..|os| - 1], f) || f in last.observed || f in last.unavailable
  }

  predicate SameReading(a: Leaf, b: Leaf) {
    a.isFresh == b.isFresh && (a.isFresh ==> a.value == b.value)
  }

  /** The contract now in force withholds what is read of this leaf. */
  predicate Barred(r: Reduction, f: StateField) {
    r.state.explicitContract && Owner(f).Some? && r.state.capabilities[Owner(f).value] != Available
  }

  /** An observation that leaves the contract and the capability of this leaf as they are, if it has one. */
  predicate Neutral(o: Observation, contract: bool, f: StateField) {
    Owner(f).Some? ==> Unnamed(o.results, f) && (o.explicitContract == None || o.explicitContract == Some(contract))
  }

  predicate AllNeutral(os: seq<Observation>, contract: bool, f: StateField) {
    forall i :: 0 <= i < |os| ==> Neutral(os[i], contract, f)
  }

  lemma {:induction false} UnnamedCapabilityKept(r: Reduction, explicit: bool, base: Option<nat>,
                                                 results: seq<CapabilityResult>, revision: nat, f: StateField)
    requires Unnamed(results, f) && Owner(f).Some?
    ensures ApplyResults(r, explicit, base, results, revision).state.capabilities[Owner(f).value] ==
            r.state.capabilities[Owner(f).value]
    ensures LastExplicit(results, Owner(f).value) == None
  {
    hide ApplyResult, Owner, ValueFields, NextCapabilityState;
    if results != [] {
      var rest := results[..|results| - 1];
      UnnamedCapabilityKept(r, explicit, base, rest, revision, f);
      ApplyResultCapability(ApplyResults(r, explicit, base, rest, revision), explicit, base,
                            results[|results| - 1], revision);
    }
  }

  /** The contract and the capability of a leaf stand as they stood, if it has one. */
  predicate StandsAs(r: Reduction, s: Reduction, f: StateField) {
    Barred(r, f) == Barred(s, f) && (Owner(f).Some? ==> r.state.explicitContract == s.state.explicitContract)
  }

  /** A neutral observation reads the leaf under the contract in force, and leaves it in force. */
  lemma NeutralStep(r: Reduction, o: Observation, revision: nat, f: StateField)
    requires Neutral(o, r.state.explicitContract, f)
    ensures StandsAs(Reduce(r, o, revision), r, f)
    ensures View(Reduce(r, o, revision), f) ==
            AfterUnavailable(o, f, AfterObserved(o, f, Barred(r, f), View(r, f), revision), revision)
  {
    hide ApplyResults, ReadPhase, Owner, AfterObserved, AfterUnavailable, LastExplicit, View;
    if Owner(f).Some? {
      UnnamedCapabilityKept(ReadPhase(r, o, revision), ContractAfter(r.state, o), o.base, o.results, revision, f);
      ReduceLeaf(r, o, revision, f);
    } else {
      UnownedUnnamed(o.results, f);
      ReduceLeaf(r, o, revision, f);
    }
    assert Withheld(r.state, o, f) == Barred(r, f);
  }

  lemma UnownedUnnamed(results: seq<CapabilityResult>, f: StateField)
    requires Owner(f).None?
    ensures Unnamed(results, f)
  {
  }

  /** What a stream observation, or a poll, makes of a leaf. */
  function StreamRead(o: Observation, f: StateField, barred: bool, leaf: Leaf, revision: nat): Leaf {
    if f in o.unavailable then
      Leaf(if f in o.observed && !barred then Lookup(o.values, f) else leaf.value, false, revision)
    else if f !in o.observed then leaf
    else if barred then leaf.(isFresh := false)
    else Leaf(Lookup(o.values, f), true, revision)
  }

  function PollRead(o: Observation, f: StateField, barred: bool, leaf: Leaf, revision: nat): Leaf {
    if Newer(leaf.revision, o.base) then leaf
    else if f in o.observed && !barred then Leaf(Lookup(o.values, f), true, revision)
    else if f in o.unavailable then leaf.(isFresh := false, revision := revision)
    else if f in o.observed then leaf.(isFresh := false)
    else leaf
  }

  lemma NeutralReads(r: Reduction, o: Observation, revision: nat, f: StateField)
    requires Neutral(o, r.state.explicitContract, f)
    requires o.base.Some? ==> o.base.value < revision
    ensures StandsAs(Reduce(r, o, revision), r, f)
    ensures View(Reduce(r, o, revision), f) ==
            if o.base.None? then StreamRead(o, f, Barred(r, f), View(r, f), revision)
            else PollRead(o, f, Barred(r, f), View(r, f), revision)
  {
    hide Reduce, Barred, View, StandsAs, AfterObserved, AfterUnavailable, StreamRead, PollRead, Neutral;
    NeutralStep(r, o, revision, f);
    ReadsAre(o, f, Barred(r, f), View(r, f), revision);
  }

  lemma ReadsAre(o: Observation, f: StateField, barred: bool, leaf: Leaf, revision: nat)
    requires o.base.Some? ==> o.base.value < revision
    ensures AfterUnavailable(o, f, AfterObserved(o, f, barred, leaf, revision), revision) ==
            if o.base.None? then StreamRead(o, f, barred, leaf, revision) else PollRead(o, f, barred, leaf, revision)
  {
  }

  lemma NeutralAcross(r: Reduction, s: Reduction, o: Observation, f: StateField)
    requires StandsAs(s, r, f) && Neutral(o, r.state.explicitContract, f)
    ensures Neutral(o, s.state.explicitContract, f)
  {
    hide Barred, Unnamed, Owner;
  }

  lemma StandsItself(r: Reduction, s: Reduction, f: StateField)
    requires StandsAs(s, r, f)
    ensures StandsAs(r, r, f) && Barred(s, f) == Barred(r, f)
  {
    hide Barred, Owner;
  }

  lemma StandsOn(r: Reduction, s: Reduction, t: Reduction, f: StateField)
    requires StandsAs(s, r, f) && StandsAs(t, s, f)
    ensures StandsAs(t, r, f) && Barred(s, f) == Barred(r, f) && Barred(t, f) == Barred(r, f) && StandsAs(r, r, f)
  {
    hide Barred, Owner;
  }

  /**
    From any two starting points under one contract the stream leaves the same reading of a leaf it
    touches: what it reads where the contract lets it through, and a stale leaf where it does not.
   */
  lemma {:induction false} StreamDecides(r: Reduction, s: Reduction, n: nat, m: nat, os: seq<Observation>,
                                         f: StateField)
    requires Streamed(os) && AllNeutral(os, r.state.explicitContract, f) && StandsAs(s, r, f)
    ensures StandsAs(Fold(r, n, os), r, f) && StandsAs(Fold(s, m, os), r, f)
    ensures Decided(Touched(os, f), Barred(r, f), n, View(Fold(r, n, os), f), View(Fold(s, m, os), f),
                    View(r, f), View(s, f))
  {
    hide Reduce, Barred, View, Owner, Neutral, StandsAs, Decided;
    StandsItself(r, s, f);
    Undecided(Barred(r, f), n, View(r, f), View(s, f));
    if os != [] {
      var rest, o := os[..|os| - 1], os[|os| - 1];
      StreamDecides(r, s, n, m, rest, f);
      StreamDecidesNext(r, Fold(r, n, rest), o, n + |os|, f);
      StreamDecidesNext(r, Fold(s, m, rest), o, m + |os|, f);
      DecidedNext(o, f, Touched(rest, f), Barred(r, f), n, m, |os|, View(Fold(r, n, rest), f),
                  View(Fold(s, m, rest), f), View(r, f), View(s, f));
    }
  }

  /** Two leaves after one stream: alike once it has touched them, and as they were before. */
  predicate Decided(touched: bool, barred: bool, n: nat, a: Leaf, b: Leaf, a0: Leaf, b0: Leaf) {
    if touched then SameReading(a, b) && (if barred then !a.isFresh else a.revision > n) else a == a0 && b == b0
  }

  lemma Undecided(barred: bool, n: nat, a: Leaf, b: Leaf)
    ensures Decided(false, barred, n, a, b, a, b)
  {
  }

  lemma DecidedNext(o: Observation, f: StateField, touched: bool, barred: bool, n: nat, m: nat, k: nat,
                    a: Leaf, b: Leaf, a0: Leaf, b0: Leaf)
    requires Decided(touched, barred, n, a, b, a0, b0) && k > 0
    ensures Decided(touched || f in o.observed || f in o.unavailable, barred, n,
                    StreamRead(o, f, barred, a, n + k), StreamRead(o, f, barred, b, m + k), a0, b0)
  {
  }

  lemma StreamDecidesNext(r: Reduction, now: Reduction, o: Observation, revision: nat, f: StateField)
    requires StandsAs(now, r, f) && Neutral(o, r.state.explicitContract, f) && o.base.None?
    ensures StandsAs(Reduce(now, o, revision), r, f)
    ensures View(Reduce(now, o, revision), f) == StreamRead(o, f, Barred(r, f), View(now, f), revision)
  {
    hide Reduce, Barred, View, Owner, Neutral, StandsAs, StreamRead, PollRead;
    NeutralAcross(r, now, o, f);
    NeutralReads(now, o, revision, f);
    StandsOn(r, now, Reduce(now, o, revision), f);
  }

  /**
    A late poll commutes with the stream. The poll began at revision `b`; the stream's observations
    arrived while it was away. Reducing them first and the poll last gives the leaf the same reading as
    reducing the poll at once and the stream's observations after it. This holds of every leaf that no
    capability owns, and of the others while the contract flag stands and no result names their capability.
   */
  lemma LatePollCommutes(r: Reduction, b: nat, stream: seq<Observation>, poll: Observation, f: StateField)
    requires Bounded(r, b) && Streamed(stream) && poll.base == Some(b)
    requires AllNeutral(stream, r.state.explicitContract, f) && Neutral(poll, r.state.explicitContract, f)
    ensures SameReading(
              View(Reduce(Fold(r, b, stream), poll, b + |stream| + 1), f),
              View(Fold(Reduce(r, poll, b + 1), b + 1, stream), f))
  {
    hide Reduce, Fold, Barred, View, Owner, Neutral, AllNeutral, StandsAs, Bounded, Streamed, StreamRead, PollRead,
      Decided, SameReading, Touched;
    BoundedAt(r, b, f);
    var after := Fold(r, b, stream);
    var early := Reduce(r, poll, b + 1);
    NeutralReads(r, poll, b + 1, f);
    StreamDecides(r, early, b, b + 1, stream, f);
    NeutralAcross(r, after, poll, f);
    NeutralReads(after, poll, b + |stream| + 1, f);
    StandsItself(r, after, f);
    PollAfterStream(poll, f, Touched(stream, f), Barred(r, f), b, View(after, f), View(Fold(early, b + 1, stream), f),
                    View(r, f), b + |stream| + 1);
  }

  lemma BoundedAt(r: Reduction, revision: nat, f: StateField)
    requires Bounded(r, revision)
    ensures View(r, f).revision <= revision
  {
    hide View;
  }

  lemma PollAfterStream(poll: Observation, f: StateField, touched: bool, barred: bool, b: nat,
                        a: Leaf, c: Leaf, before: Leaf, revision: nat)
    requires poll.base == Some(b) && before.revision <= b
    requires Decided(touched, barred, b, a, c, before, PollRead(poll, f, barred, before, b + 1))
    ensures SameReading(PollRead(poll, f, barred, a, revision), c)
  {
  }

  // ------------------------------------------------------------------ one observation of an unowned leaf

  /** One stream observation, for a leaf no capability owns. */
  lemma StreamStep(r: Reduction, o: Observation, revision: nat, f: StateField)
    requires o.base.None? && Owner(f).None?
    ensures View(Reduce(r, o, revision), f) ==
            var seen := if f in o.observed then Leaf(Lookup(o.values, f), true, revision) else View(r, f);
            if f in o.unavailable then seen.(isFresh := false, revision := revision) else seen
  {
    hide Reduce, Owner;
    ReduceLeaf(r, o, revision, f);
  }

  /** A poll, for a leaf no capability owns: it has no effect on a leaf newer than its base. */
  lemma PollStep(r: Reduction, o: Observation, revision: nat, f: StateField)
    requires o.base.Some? && o.base.value < revision && Owner(f).None?
    ensures View(Reduce(r, o, revision), f) ==
            if View(r, f).revision > o.base.value then View(r, f)
            else if f in o.observed then Leaf(Lookup(o.values, f), true, revision)
            else if f in o.unavailable then View(r, f).(isFresh := false, revision := revision)
            else View(r, f)
  {
    hide Reduce, Owner;
    ReduceLeaf(r, o, revision, f);
  }

  // ------------------------------------------------------------------ the explicit contract

  /** The contract is switched on by the first observation and never switched off. */
  predicate Explicit(os: seq<Observation>) {
    os != [] ==> os[0].explicitContract == Some(true) &&
                 forall i :: 0 <= i < |os| ==> os[i].explicitContract != Some(false)
  }

  /** The capability states and leaves the result loop ends with under the explicit contract. */
  lemma {:induction false} ExplicitResults(r: Reduction, base: Option<nat>, results: seq<CapabilityResult>,
                                           revision: nat, k: CapabilityKey)
    ensures var after := ApplyResults(r, true, base, results, revision);
            var last := LastExplicit(results, k);
            after.state.capabilities[k] == if last.Some? then last.value else r.state.capabilities[k]
  {
    hide ApplyResult, ValueFields;
    if results != [] {
      var rest := results[..|results| - 1];
      ExplicitResults(r, base, rest, revision, k);
      ApplyResultCapability(ApplyResults(r, true, base, rest, revision), true, base, results[|results| - 1], revision);
    }
  }

  lemma {:induction false} ExplicitLeaf(r: Reduction, base: Option<nat>, results: seq<CapabilityResult>,
                                        revision: nat, f: StateField)
    requires Owner(f).Some?
    ensures View(ApplyResults(r, true, base, results, revision), f) ==
            if Unsupported in Verdicts(results, f) then Leaf(None, false, revision)
            else if TemporarilyUnavailable in Verdicts(results, f) then View(r, f).(isFresh := false,
                                                                        revision := revision)
            else View(r, f)
  {
    hide ApplyResult, Owner, ValueFields;
    if results != [] {
      var rest, last := results[..|results| - 1], results[|results| - 1];
      ExplicitLeaf(r, base, rest, revision, f);
      ApplyResultView(ApplyResults(r, true, base, rest, revision), true, base, last, revision, f);
    }
  }

  lemma {:induction false} LastExplicitIsVerdict(results: seq<CapabilityResult>, f: StateField)
    requires Owner(f).Some?
    ensures var last := LastExplicit(results, Owner(f).value);
            last.Some? ==> last.value in Verdicts(results, f)
  {
    hide Owner;
    if results != [] {
      LastExplicitIsVerdict(results[..|results| - 1], f);
    }
  }

  /** The outcome of one observation for a capability and its leaves while the explicit contract is on. */
  lemma ExplicitStep(r: Reduction, o: Observation, revision: nat, f: StateField)
    requires Owner(f).Some? && ContractAfter(r.state, o)
    ensures var after := Reduce(r, o, revision);
            && after.state.explicitContract
            && after.state.capabilities[Owner(f).value] == ContractState(r.state, o, Owner(f).value)
            && View(after, f) ==
               if Unsupported in Verdicts(o.results, f) then Leaf(None, false, revision)
               else if TemporarilyUnavailable in Verdicts(o.results, f)
               then AfterReads(r.state, o, f, View(r, f), revision).(isFresh := false, revision := revision)
               else AfterReads(r.state, o, f, View(r, f), revision)
  {
    hide ApplyResults, ReadPhase, Verdicts, Owner, AfterReads, Withheld;
    var folded := ReadPhase(r, o, revision);
    ExplicitResults(folded, o.base, o.results, revision, Owner(f).value);
    ExplicitLeaf(folded, o.base, o.results, revision, f);
  }

  // ------------------------------------------------------------------ a late poll with a verdict

  /** The last thing a stream reads of a leaf, were nothing withheld. */
  function LastReading(os: seq<Observation>, f: StateField): Option<int> {
    if os == [] then None
    else
      var last := os[|os| - 1];
      if f in last.unavailable then None
      else if f in last.observed then Lookup(last.values, f)
      else LastReading(os[..|os| - 1], f)
  }

  /** ... and whether it is there to be shown. */
  predicate ReadsFresh(os: seq<Observation>, f: StateField) {
    os != [] &&
    var last := os[|os| - 1];
    f !in last.unavailable && (f in last.observed || ReadsFresh(os[..|os| - 1], f))
  }

  /** Whether a stream ever withdraws a leaf; that stamps it even while the contract withholds it. */
  predicate Withdraws(os: seq<Observation>, f: StateField) {
    os != [] && (f in os[|os| - 1].unavailable || Withdraws(os[..|os| - 1], f))
  }

  /** A leaf after a stream of neutral observations, from the leaf before it. */
  predicate AfterStream(os: seq<Observation>, f: StateField, barred: bool, n: nat, before: Leaf, after: Leaf) {
    if !Touched(os, f) then
      after == before
    else if barred then
      && !after.isFresh
      && (if Withdraws(os, f) then after.revision > n else after.revision == before.revision)
    else
      && after.revision > n && after.isFresh == ReadsFresh(os, f)
      && (after.isFresh ==> after.value == LastReading(os, f))
  }

  lemma {:induction false} StreamLeaf(r: Reduction, n: nat, os: seq<Observation>, f: StateField)
    requires Streamed(os) && AllNeutral(os, r.state.explicitContract, f)
    ensures StandsAs(Fold(r, n, os), r, f)
    ensures AfterStream(os, f, Barred(r, f), n, View(r, f), View(Fold(r, n, os), f))
  {
    hide Reduce, Barred, View, Owner, Neutral, StandsAs, AfterStream, StreamRead;
    StandsSelf(r, f);
    NothingStreamed(f, Barred(r, f), n, View(r, f));
    if os != [] {
      var rest, o := os[..|os| - 1], os[|os| - 1];
      StreamLeaf(r, n, rest, f);
      StreamDecidesNext(r, Fold(r, n, rest), o, n + |os|, f);
      AfterStreamNext(os, f, Barred(r, f), n, View(r, f), View(Fold(r, n, rest), f), n + |os|);
    }
  }

  lemma NothingStreamed(f: StateField, barred: bool, n: nat, leaf: Leaf)
    ensures AfterStream([], f, barred, n, leaf, leaf)
  {
  }

  lemma AfterStreamNext(os: seq<Observation>, f: StateField, barred: bool, n: nat, before: Leaf, mid: Leaf,
                        revision: nat)
    requires os != [] && AfterStream(os[..|os| - 1], f, barred, n, before, mid) && revision > n
    ensures AfterStream(os, f, barred, n, before, StreamRead(os[|os| - 1], f, barred, mid, revision))
  {
    var rest, o := os[..|os| - 1], os[|os| - 1];
    assert Touched(os, f) == (Touched(rest, f) || f in o.observed || f in o.unavailable);
    assert Withdraws(os, f) == (f in o.unavailable || Withdraws(rest, f));
    if !Touched(rest, f) {
      UntouchedReads(rest, f);
    }
  }

  lemma {:induction false} UntouchedReads(os: seq<Observation>, f: StateField)
    requires !Touched(os, f)
    ensures !Withdraws(os, f) && !ReadsFresh(os, f) && LastReading(os, f) == None
  {
    if os != [] {
      UntouchedReads(os[..|os| - 1], f);
    }
  }

  lemma StandsSelf(r: Reduction, f: StateField)
    ensures StandsAs(r, r, f)
  {
  }

  /** Whether the contract withholds the leaf while, and after, an observation with verdicts is reduced. */
  predicate BarredBy(o: Observation, barred: bool, k: CapabilityKey) {
    var last := LastExplicit(o.results, k);
    if last.Some? then last.value != Available else barred
  }

  /** What an observation with verdicts makes of an owned leaf. */
  function PollOutcome(o: Observation, f: StateField, barred: bool, leaf: Leaf, revision: nat): Leaf {
    if Unsupported in Verdicts(o.results, f) then Leaf(None, false, revision)
    else if TemporarilyUnavailable in Verdicts(o.results, f)
    then PollRead(o, f, barred, leaf, revision).(isFresh := false, revision := revision)
    else PollRead(o, f, barred, leaf, revision)
  }

  lemma VerdictStep(r: Reduction, o: Observation, revision: nat, f: StateField)
    requires Owner(f).Some? && r.state.explicitContract && o.explicitContract != Some(false)
    requires o.base.Some? && o.base.value < revision
    ensures var after := Reduce(r, o, revision);
            && after.state.explicitContract && Barred(after, f) == BarredBy(o, Barred(r, f), Owner(f).value)
            && View(after, f) == PollOutcome(o, f, BarredBy(o, Barred(r, f), Owner(f).value), View(r, f), revision)
  {
    hide Reduce, Verdicts, LastExplicit, View, AfterObserved, AfterUnavailable, PollRead;
    ExplicitStep(r, o, revision, f);
    ReadsAre(o, f, BarredBy(o, Barred(r, f), Owner(f).value), View(r, f), revision);
  }

  /**
    When the two orders of a late poll with verdicts and the stream give an owned leaf the same reading.
    `barred` says whether the contract withholds the leaf when the poll begins.
   */
  predicate OrdersAgree(stream: seq<Observation>, poll: Observation, f: StateField, barred: bool)
    requires Owner(f).Some?
  {
    var retired := Unsupported in Verdicts(poll.results, f) || TemporarilyUnavailable in Verdicts(poll.results, f);
    var after := BarredBy(poll, barred, Owner(f).value);
    || !Touched(stream, f)
    || (if retired || (barred && (Withdraws(stream, f) || after || f !in poll.observed))
        then after || !ReadsFresh(stream, f)
        else if !barred then after ==> !ReadsFresh(stream, f)
          else ReadsFresh(stream, f) && LastReading(stream, f) == Lookup(poll.values, f))
  }

  /**
    Where a poll speaks on a leaf's capability its place in the stream can matter, and this says exactly
    when: the explicit contract is on, and the stream itself says nothing on the capability.
   */
  lemma LatePollWithVerdicts(r: Reduction, b: nat, stream: seq<Observation>, poll: Observation, f: StateField)
    requires Owner(f).Some? && r.state.explicitContract && Bounded(r, b) && Streamed(stream)
    requires AllNeutral(stream, true, f) && poll.base == Some(b) && poll.explicitContract != Some(false)
    ensures SameReading(
              View(Reduce(Fold(r, b, stream), poll, b + |stream| + 1), f),
              View(Fold(Reduce(r, poll, b + 1), b + 1, stream), f)) <==>
            OrdersAgree(stream, poll, f, Barred(r, f))
  {
    hide Reduce, Fold, Barred, View, Owner, Neutral, AllNeutral, StandsAs, Bounded, Streamed, OrdersAgree, BarredBy,
      SameReading, Touched, AfterStream, PollOutcome, ReadsFresh, LastReading, Withdraws;
    BoundedAt(r, b, f);
    var after := Fold(r, b, stream);
    var early := Reduce(r, poll, b + 1);
    StreamLeaf(r, b, stream, f);
    StandsExplicit(after, r, f);
    VerdictStep(after, poll, b + |stream| + 1, f);
    VerdictStep(r, poll, b + 1, f);
    StreamLeaf(early, b + 1, stream, f);
    OrdersCompared(stream, poll, f, Barred(r, f), b, View(r, f), View(after, f), View(Fold(early, b + 1, stream), f));
  }

  lemma StandsExplicit(s: Reduction, r: Reduction, f: StateField)
    requires StandsAs(s, r, f) && Owner(f).Some? && r.state.explicitContract
    ensures s.state.explicitContract && Barred(s, f) == Barred(r, f)
  {
    hide Owner, Barred;
  }

  lemma OrdersCompared(stream: seq<Observation>, poll: Observation, f: StateField, barred: bool, b: nat,
                       before: Leaf, a: Leaf, c: Leaf)
    requires Owner(f).Some? && poll.base == Some(b) && before.revision <= b
    requires AfterStream(stream, f, barred, b, before, a)
    requires var after := BarredBy(poll, barred, Owner(f).value);
             AfterStream(stream, f, after, b + 1, PollOutcome(poll, f, after, before, b + 1), c)
    ensures var after := BarredBy(poll, barred, Owner(f).value);
            SameReading(PollOutcome(poll, f, after, a, b + |stream| + 1), c) <==> OrdersAgree(stream, poll, f, barred)
  {
    hide Owner, Verdicts, LastExplicit, Touched, ReadsFresh, LastReading, Withdraws, BarredBy;
  }

  /**
    And it does matter: a delta withheld while the poll was away leaves no stamp, so the poll's older
    reading, let through by the poll's own verdict, is what stays.
   */
  lemma LatePollOverwritesWithheld()
    ensures var r := Reduction(EMPTY_STATE.(explicitContract := true), map[]);
            var delta := Observation(map[ConsumptionLimit := 9], {ConsumptionLimit}, {}, [], None, None);
            var available := CapabilityResult(Lpc, None, false, Some(Available), Metadata(0, 0));
            var poll := Observation(map[ConsumptionLimit := 7], {ConsumptionLimit}, {}, [available], None, Some(0));
            && View(Reduce(Fold(r, 0, [delta]), poll, 2), ConsumptionLimit) == Leaf(Some(7), true, 2)
            && View(Fold(Reduce(r, poll, 1), 1, [delta]), ConsumptionLimit) == Leaf(Some(9), true, 2)
  {
    hide Reduce;
    var f := ConsumptionLimit;
    var r := Reduction(EMPTY_STATE.(explicitContract := true), map[]);
    var delta := Observation(map[f := 9], {f}, {}, [], None, None);
    var available := CapabilityResult(Lpc, None, false, Some(Available), Metadata(0, 0));
    var poll := Observation(map[f := 7], {f}, {}, [available], None, Some(0));
    assert [delta][..0] == [] && [available][..0] == [];
    assert Owner(f) == Some(Lpc) && Barred(r, f) && Verdicts([available], f) == {Available};
    assert LastExplicit([available], Lpc) == Some(Available);
    var early, late := Reduce(r, poll, 1), Reduce(r, delta, 1);
    assert Fold(r, 0, [delta]) == late && Fold(early, 1, [delta]) == Reduce(early, delta, 2);
    NeutralReads(r, delta, 1, f);
    VerdictStep(r, poll, 1, f);
    NeutralReads(early, delta, 2, f);
    VerdictStep(late, poll, 2, f);
  }

  // ------------------------------------------------------------------ freshness and availability

  /** An unsupported capability has empty and stale leaves, in every state the explicit contract can reach. */
  lemma {:induction false} UnsupportedIsEmpty(os: seq<Observation>, f: StateField)
    requires Explicit(os) && Owner(f).Some?
    ensures var r := Fold(Reduction(EMPTY_STATE, map[]), 0, os);
            && (os != [] ==> r.state.explicitContract)
            && (r.state.capabilities[Owner(f).value] == Unsupported ==> View(r, f).value == None && !View(r, f).isFresh)
  {
    hide Reduce;
    if os != [] {
      var rest, o := os[..|os| - 1], os[|os| - 1];
      UnsupportedIsEmpty(rest, f);
      ExplicitStep(Fold(Reduction(EMPTY_STATE, map[]), 0, rest), o, |os|, f);
      LastExplicitIsVerdict(o.results, f);
    }
  }

  /** Under the explicit contract a leaf only turns fresh in a step after which its capability is available. */
  lemma FreshNeedsAvailable(r: Reduction, o: Observation, revision: nat, f: StateField)
    requires Owner(f).Some? && ContractAfter(r.state, o)
    requires !View(r, f).isFresh
    ensures View(Reduce(r, o, revision), f).isFresh ==>
              Reduce(r, o, revision).state.capabilities[Owner(f).value] == Available
  {
    hide Reduce;
    ExplicitStep(r, o, revision, f);
  }

  /**
    What a fresh leaf says of its capability, in every state the explicit contract can reach: it is
    available, or it has been forgotten since.
   */
  lemma {:induction false} FreshIsAvailableOrUnknown(os: seq<Observation>, f: StateField)
    requires Explicit(os) && Owner(f).Some?
    ensures var r := Fold(Reduction(EMPTY_STATE, map[]), 0, os);
            View(r, f).isFresh ==>
              r.state.capabilities[Owner(f).value] == Available || r.state.capabilities[Owner(f).value] == Unknown
  {
    hide Reduce, Verdicts;
    if os != [] {
      var rest, o := os[..|os| - 1], os[|os| - 1];
      FreshIsAvailableOrUnknown(rest, f);
      UnsupportedIsEmpty(rest, f);
      ExplicitStep(Fold(Reduction(EMPTY_STATE, map[]), 0, rest), o, |os|, f);
      LastExplicitIsVerdict(o.results, f);
    }
  }

  /**
    Exactly when a step breaks "fresh means available": an explicit Unknown has the last word on the
    capability, no other verdict of the observation retires the leaf, and the observation's own reads leave
    the leaf alone.
   */
  lemma FreshOutlivesAvailability(r: Reduction, o: Observation, revision: nat, f: StateField)
    requires Owner(f).Some? && ContractAfter(r.state, o)
    requires View(r, f).isFresh ==> r.state.capabilities[Owner(f).value] == Available
    ensures var after := Reduce(r, o, revision);
            View(after, f).isFresh && after.state.capabilities[Owner(f).value] != Available <==>
            && View(r, f).isFresh
            && LastExplicit(o.results, Owner(f).value) == Some(Unknown)
            && Unsupported !in Verdicts(o.results, f) && TemporarilyUnavailable !in Verdicts(o.results, f)
            && (f in o.observed || f in o.unavailable ==> Newer(View(r, f).revision, o.base))
  {
    hide Reduce, Verdicts, LastExplicit;
    ExplicitStep(r, o, revision, f);
    LastExplicitIsVerdict(o.results, f);
  }

  /** Freshness does not mean availability: an explicit Unknown changes the capability and leaves its leaf fresh. */
  lemma UnknownKeepsFreshness()
    ensures var result := s => CapabilityResult(Lpc, None, false, Some(s), Metadata(0, 0));
            var seen := Observation(map[ConsumptionLimit := 7], {ConsumptionLimit}, {}, [result(Available)],
                                    Some(true), None);
            var forgotten := NOTHING_SEEN.(results := [result(Unknown)]);
            var r := Fold(Reduction(EMPTY_STATE, map[]), 0, [seen, forgotten]);
            r.state.capabilities[Lpc] == Unknown && View(r, ConsumptionLimit) == Leaf(Some(7), true, 1)
  {
    hide Reduce;
    var result := s => CapabilityResult(Lpc, None, false, Some(s), Metadata(0, 0));
    var seen := Observation(map[ConsumptionLimit := 7], {ConsumptionLimit}, {}, [result(Available)], Some(true), None);
    var forgotten := NOTHING_SEEN.(results := [result(Unknown)]);
    var start := Reduction(EMPTY_STATE, map[]);
    assert [seen, forgotten][..1] == [seen] && [seen][..0] == [];
    var one := Reduce(start, seen, 1);
    assert [result(Available)][..0] == [] && [result(Unknown)][..0] == [];
    ExplicitStep(start, seen, 1, ConsumptionLimit);
    assert Fold(start, 0, [seen]) == one;
    ExplicitStep(one, forgotten, 2, ConsumptionLimit);
  }
}
