/**
  Shared bridge runtimes: reference counts, and the entries whose setup, reload and unload take and give
  back references (custom_components/eebus/runtime.py, custom_components/eebus/__init__.py).

  A section under the registry's lock never suspends, and a release starts the close it decides on before
  it can be suspended, so each is one step here.
 */
module Runtimes {
  type Key = string

  /** One runtime object; two runtimes of one key differ in their serial number. */
  datatype Runtime = Runtime(serial: nat, key: Key)

  datatype Reference = Reference(runtime: Runtime, count: int)

  /** The registry, with every runtime it ever created and every close it ever started. */
  datatype Registry = Registry(runtimes: map<Key, Reference>, created: seq<Runtime>, closed: seq<Runtime>)

  const EMPTY := Registry(map[], [], [])

  predicate Registered(g: Registry, rt: Runtime) {
    rt.key in g.runtimes && g.runtimes[rt.key].runtime == rt
  }

  function Count(g: Registry, rt: Runtime): int {
    if Registered(g, rt) then g.runtimes[rt.key].count else 0
  }

  /** The runtime an acquisition of a key gets. */
  function Acquired(g: Registry, key: Key): Runtime {
    if key in g.runtimes then g.runtimes[key].runtime else Runtime(|g.created|, key)
  }

  function AfterAcquire(g: Registry, key: Key): Registry {
    if key in g.runtimes then g.(runtimes := g.runtimes[key := Reference(g.runtimes[key].runtime,
                                                                         g.runtimes[key].count + 1)])
    else
      var rt := Runtime(|g.created|, key);
      g.(runtimes := g.runtimes[key := Reference(rt, 1)], created := g.created + [rt])
  }

  function AfterRetain(g: Registry, rt: Runtime): Registry {
    if Registered(g, rt) then g.(runtimes := g.runtimes[rt.key := Reference(rt, g.runtimes[rt.key].count + 1)]) else g
  }

  function AfterRelease(g: Registry, rt: Runtime): Registry {
    if !Registered(g, rt) then g
    else if g.runtimes[rt.key].count == 1 then g.(runtimes := g.runtimes - {rt.key}, closed := g.closed + [rt])
    else g.(runtimes := g.runtimes[rt.key := Reference(rt, g.runtimes[rt.key].count - 1)])
  }

  class BridgeRuntimeRegistry {
    var runtimes: map<Key, Reference>
    var created: seq<Runtime>
    var closed: seq<Runtime>

    ghost function View(): Registry
      reads this
    {
      Registry(runtimes, created, closed)
    }

    constructor ()
      ensures View() == EMPTY
    {
      runtimes, created, closed := map[], [], [];
    }

    method Acquire(key: Key) returns (rt: Runtime)
      modifies this
      ensures View() == AfterAcquire(old(View()), key) && rt == Acquired(old(View()), key)
    {
      if key !in runtimes {
        rt := Runtime(|created|, key);
        created := created + [rt];
        runtimes := runtimes[key := Reference(rt, 0)];
      }
      var reference := runtimes[key];
      runtimes := runtimes[key := reference.(count := reference.count + 1)];
      rt := reference.runtime;
    }

    method Retain(rt: Runtime) returns (ok: bool)
      modifies this
      ensures ok == Registered(old(View()), rt) && View() == AfterRetain(old(View()), rt)
    {
      if rt.key !in runtimes || runtimes[rt.key].runtime != rt {
        return false;
      }
      runtimes := runtimes[rt.key := Reference(rt, runtimes[rt.key].count + 1)];
      ok := true;
    }

    method Release(rt: Runtime)
      modifies this
      ensures View() == AfterRelease(old(View()), rt)
    {
      if rt.key !in runtimes || runtimes[rt.key].runtime != rt {
        return;
      }
      var count := runtimes[rt.key].count - 1;
      if count == 0 {
        runtimes := runtimes - {rt.key};
        closed := closed + [rt];
        return;
      }
      runtimes := runtimes[rt.key := Reference(rt, count)];
    }

    method ReferenceCount(rt: Runtime) returns (count: int)
      ensures count == Count(View(), rt)
    {
      if rt.key !in runtimes || runtimes[rt.key].runtime != rt {
        return 0;
      }
      return runtimes[rt.key].count;
    }
  }

  // ------------------------------------------------------------------ the entries

  /**
    Where an entry stands. While one is being reloaded its coordinator's runtime is the current one before
    the commit point and the replacement after it.
   */
  datatype Phase =
    | Idle
    | SettingUp(runtime: Runtime)
    | Loaded(runtime: Runtime)
    | Reloading(current: Runtime, replacement: Runtime, committed: bool)
    | Unloading(runtime: Runtime)

  datatype World = World(registry: Registry, entries: seq<Phase>)

  datatype Event =
    | NewEntry
    | Setup(entry: nat, key: Key)
    | SetupSucceeds(entry: nat)
    | SetupFails(entry: nat)
    | Reload(entry: nat, key: Key)
    | Commit(entry: nat)
    | ReloadEnds(entry: nat)
    | Unload(entry: nat)
    | UnloadEnds(entry: nat)

  datatype Turn = Turn(registry: Registry, phase: Phase)

  /** One entry's step; one that is not possible in its phase changes nothing. */
  function TurnOf(g: Registry, p: Phase, e: Event): Turn {
    match p
    case Idle =>
      if e.Setup? then Turn(AfterAcquire(g, e.key), SettingUp(Acquired(g, e.key))) else Turn(g, p)
    case SettingUp(rt) =>
      if e.SetupSucceeds? then Turn(g, Loaded(rt))
      else if e.SetupFails? then Turn(AfterRelease(g, rt), Idle)
      else Turn(g, p)
    case Loaded(current) =>
      if e.Unload? then Turn(g, Unloading(current))
      else if e.Reload? then
        var replacement, acquired := Acquired(g, e.key), AfterAcquire(g, e.key);
        if replacement == current then Turn(AfterRelease(acquired, replacement), p)
        else Turn(acquired, Reloading(current, replacement, false))
      else Turn(g, p)
    case Reloading(current, replacement, committed) =>
      if e.Commit? then Turn(g, Reloading(current, replacement, true))
      else if e.ReloadEnds? then
        if committed then Turn(AfterRelease(g, current), Loaded(replacement))
        else Turn(AfterRelease(g, replacement), Loaded(current))
      else Turn(g, p)
    case Unloading(rt) =>
      if e.UnloadEnds? then Turn(AfterRelease(g, rt), Idle) else Turn(g, p)
  }

  function Step(w: World, e: Event): World {
    if e.NewEntry? then w.(entries := w.entries + [Idle])
    else if e.entry >= |w.entries| then w
    else
      var turn := TurnOf(w.registry, w.entries[e.entry], e);
      World(turn.registry, w.entries[e.entry := turn.phase])
  }

  function Run(events: seq<Event>): World
    decreases |events|
  {
    if events == [] then World(EMPTY, []) else Step(Run(events[..|events| - 1]), events[|events| - 1])
  }

  // ------------------------------------------------------------------ who holds what

  ghost function HeldBy(p: Phase): multiset<Runtime> {
    match p
    case Idle => multiset{}
    case SettingUp(rt) => multiset{rt}
    case Loaded(rt) => multiset{rt}
    case Reloading(current, replacement, _) => multiset{current} + multiset{replacement}
    case Unloading(rt) => multiset{rt}
  }

  /** Every reference held: by the entry that owns a runtime, or by an acquisition still in flight. */
  ghost function Held(entries: seq<Phase>): multiset<Runtime>
    decreases |entries|
  {
    if entries == [] then multiset{} else Held(entries[..|entries| - 1]) + HeldBy(entries[|entries| - 1])
  }

  lemma {:induction false} HeldWithout(entries: seq<Phase>, i: nat, phase: Phase) returns (others: multiset<Runtime>)
    requires i < |entries|
    ensures Held(entries) == others + HeldBy(entries[i])
    ensures Held(entries[i := phase]) == others + HeldBy(phase)
    decreases |entries|
  {
    var n := |entries| - 1;
    hide HeldBy;
    if i == n {
      others := Held(entries[..n]);
      assert entries[i := phase][..n] == entries[..n];
    } else {
      var fewer := HeldWithout(entries[..n], i, phase);
      others := fewer + HeldBy(entries[n]);
      assert entries[i := phase][..n] == entries[..n][i := phase];
      assert Held(entries[i := phase]) == Held(entries[..n][i := phase]) + HeldBy(entries[n]);
    }
  }

  // ------------------------------------------------------------------ conservation

  /** Serial numbers name runtimes, and each key registers at most one, under itself. */
  ghost predicate Numbered(g: Registry) {
    && (forall n | 0 <= n < |g.created| :: g.created[n].serial == n)
    && (forall k | k in g.runtimes :: g.runtimes[k].runtime.key == k && g.runtimes[k].runtime in g.created
                                      && g.runtimes[k].count > 0)
  }

  /** A count is the references held, and what is held is registered. */
  ghost predicate Counted(g: Registry, held: multiset<Runtime>) {
    forall rt: Runtime :: held[rt] == Count(g, rt)
  }

  /** Closed exactly once if created and no longer registered, and not at all otherwise. */
  ghost predicate ClosedOnce(g: Registry) {
    forall rt: Runtime :: multiset(g.closed)[rt] == if rt in g.created && !Registered(g, rt) then 1 else 0
  }

  ghost predicate Sound(g: Registry, held: multiset<Runtime>) {
    Numbered(g) && Counted(g, held) && ClosedOnce(g)
  }

  lemma AcquireNumbers(g: Registry, key: Key)
    requires Numbered(g)
    ensures Numbered(AfterAcquire(g, key)) && AfterAcquire(g, key).closed == g.closed
  {}

  lemma AcquireCounts(g: Registry, rt: Runtime, key: Key)
    requires Numbered(g)
    ensures var g', got := AfterAcquire(g, key), Acquired(g, key);
            && Count(g', rt) == Count(g, rt) + (if rt == got then 1 else 0)
            && (Registered(g', rt) <==> Registered(g, rt) || rt == got)
            && (rt in g'.created <==> rt in g.created || rt == got)
            && (rt in g.created && rt == got ==> Registered(g, rt))
  {}

  lemma AcquireKeepsSound(g: Registry, held: multiset<Runtime>, key: Key)
    requires Sound(g, held)
    ensures Sound(AfterAcquire(g, key), held + multiset{Acquired(g, key)})
    ensures Registered(AfterAcquire(g, key), Acquired(g, key))
  {
    AcquireNumbers(g, key);
    AcquireCounts(g, Acquired(g, key), key);
    hide Numbered, Registered, Count, AfterAcquire, Acquired;
    forall rt: Runtime
      ensures (held + multiset{Acquired(g, key)})[rt] == Count(AfterAcquire(g, key), rt)
      ensures multiset(AfterAcquire(g, key).closed)[rt] ==
              if rt in AfterAcquire(g, key).created && !Registered(AfterAcquire(g, key), rt) then 1 else 0
    {
      AcquireCounts(g, rt, key);
    }
  }

  /** Retaining a registered runtime is one more reference to it; any other is refused without a trace. */
  lemma RetainKeepsSound(g: Registry, held: multiset<Runtime>, rt: Runtime)
    requires Sound(g, held)
    ensures if Registered(g, rt) then Sound(AfterRetain(g, rt), held + multiset{rt}) else AfterRetain(g, rt) == g
  {
    if Registered(g, rt) {
      RetainCounts(g, rt, rt);
      hide Numbered, Registered, Count, AfterRetain;
      forall other: Runtime
        ensures (held + multiset{rt})[other] == Count(AfterRetain(g, rt), other)
        ensures multiset(AfterRetain(g, rt).closed)[other] ==
                if other in AfterRetain(g, rt).created && !Registered(AfterRetain(g, rt), other) then 1 else 0
      {
        RetainCounts(g, rt, other);
      }
    }
  }

  lemma RetainCounts(g: Registry, rt: Runtime, other: Runtime)
    requires Numbered(g) && Registered(g, rt)
    ensures var g' := AfterRetain(g, rt);
            && Numbered(g') && g'.created == g.created && g'.closed == g.closed
            && Count(g', other) == Count(g, other) + (if other == rt then 1 else 0)
            && (Registered(g', other) <==> Registered(g, other))
  {}

  lemma ReleaseNumbers(g: Registry, rt: Runtime)
    requires Numbered(g)
    ensures Numbered(AfterRelease(g, rt)) && AfterRelease(g, rt).created == g.created
  {}

  lemma ReleaseCounts(g: Registry, rt: Runtime, other: Runtime)
    requires Numbered(g) && Count(g, rt) > 0
    ensures var g' := AfterRelease(g, rt);
            && Count(g', other) == Count(g, other) - (if other == rt then 1 else 0)
            && (Registered(g', other) <==> Registered(g, other) && Count(g', other) > 0)
            && g'.closed == (if Count(g', rt) == 0 then g.closed + [rt] else g.closed)
            && rt in g.created
  {}

  lemma ReleaseKeepsSound(g: Registry, held: multiset<Runtime>, rt: Runtime)
    requires Sound(g, held + multiset{rt})
    ensures Sound(AfterRelease(g, rt), held)
  {
    assert Count(g, rt) == held[rt] + 1;
    ReleaseNumbers(g, rt);
    ReleaseCounts(g, rt, rt);
    hide Numbered, Registered, Count, AfterRelease;
    forall other: Runtime
      ensures held[other] == Count(AfterRelease(g, rt), other)
      ensures multiset(AfterRelease(g, rt).closed)[other] ==
              if other in AfterRelease(g, rt).created && !Registered(AfterRelease(g, rt), other) then 1 else 0
    {
      ReleaseCounts(g, rt, other);
      assert (held + multiset{rt})[other] == Count(g, other);
    }
  }

  lemma TurnKeepsSound(g: Registry, p: Phase, e: Event, others: multiset<Runtime>)
    requires Sound(g, others + HeldBy(p)) && !e.NewEntry?
    ensures var turn := TurnOf(g, p, e); Sound(turn.registry, others + HeldBy(turn.phase))
  {
    match p
    case Loaded(_) =>
      LoadedTurn(g, p, e, others);
      hide Sound, TurnOf, HeldBy;
    case Reloading(_, _, _) =>
      ReloadingTurn(g, p, e, others);
      hide Sound, TurnOf, HeldBy;
    case _ =>
      SimpleTurn(g, p, e, others);
      hide Sound, TurnOf, HeldBy;
  }

  lemma SimpleTurn(g: Registry, p: Phase, e: Event, others: multiset<Runtime>)
    requires Sound(g, others + HeldBy(p)) && !e.NewEntry? && (p.Idle? || p.SettingUp? || p.Unloading?)
    ensures var turn := TurnOf(g, p, e); Sound(turn.registry, others + HeldBy(turn.phase))
  {
    hide Sound, AfterAcquire, AfterRelease, Acquired;
    assert others + multiset{} == others;
    if p.Idle? && e.Setup? {
      AcquireKeepsSound(g, others, e.key);
    } else if (p.SettingUp? && e.SetupFails?) || (p.Unloading? && e.UnloadEnds?) {
      ReleaseKeepsSound(g, others, p.runtime);
    }
  }

  lemma LoadedTurn(g: Registry, p: Phase, e: Event, others: multiset<Runtime>)
    requires Sound(g, others + HeldBy(p)) && !e.NewEntry? && p.Loaded?
    ensures var turn := TurnOf(g, p, e); Sound(turn.registry, others + HeldBy(turn.phase))
  {
    hide Sound, AfterAcquire, AfterRelease, Acquired;
    if e.Reload? {
      var held, replacement := others + multiset{p.runtime}, Acquired(g, e.key);
      AcquireKeepsSound(g, held, e.key);
      if replacement == p.runtime {
        ReleaseKeepsSound(AfterAcquire(g, e.key), held, replacement);
      } else {
        assert held + multiset{replacement} == others + (multiset{p.runtime} + multiset{replacement});
      }
    }
  }

  lemma ReloadingTurn(g: Registry, p: Phase, e: Event, others: multiset<Runtime>)
    requires Sound(g, others + HeldBy(p)) && !e.NewEntry? && p.Reloading?
    ensures var turn := TurnOf(g, p, e); Sound(turn.registry, others + HeldBy(turn.phase))
  {
    hide Sound, AfterAcquire, AfterRelease, Acquired;
    if e.ReloadEnds? {
      var current, replacement := p.current, p.replacement;
      if p.committed {
        assert others + HeldBy(p) == others + multiset{replacement} + multiset{current};
        ReleaseKeepsSound(g, others + multiset{replacement}, current);
      } else {
        assert others + HeldBy(p) == others + multiset{current} + multiset{replacement};
        ReleaseKeepsSound(g, others + multiset{current}, replacement);
      }
    }
  }

  lemma StepKeepsSound(w: World, e: Event)
    requires Sound(w.registry, Held(w.entries))
    ensures var w' := Step(w, e); Sound(w'.registry, Held(w'.entries))
  {
    hide Sound, TurnOf;
    if e.NewEntry? {
      assert (w.entries + [Idle])[..|w.entries|] == w.entries;
      assert Held(w.entries + [Idle]) == Held(w.entries);
    } else if e.entry < |w.entries| {
      var turn := TurnOf(w.registry, w.entries[e.entry], e);
      var others := HeldWithout(w.entries, e.entry, turn.phase);
      TurnKeepsSound(w.registry, w.entries[e.entry], e, others);
    }
  }

  lemma {:induction false} RunKeepsSound(events: seq<Event>)
    ensures var w := Run(events); Sound(w.registry, Held(w.entries))
    decreases |events|
  {
    if events != [] {
      hide Sound, Step;
      RunKeepsSound(events[..|events| - 1]);
      StepKeepsSound(Run(events[..|events| - 1]), events[|events| - 1]);
    }
  }

  /**
    Reference conservation, for any interleaving of setups, failed setups, reloads of every outcome and
    unloads: a runtime's count is the number of references held to it, a created runtime has been closed
    exactly when nobody holds it, and never twice.
   */
  lemma ReferencesAreConserved(events: seq<Event>, rt: Runtime)
    ensures var w := Run(events);
            && Count(w.registry, rt) == Held(w.entries)[rt]
            && (rt in w.registry.closed <==> rt in w.registry.created && Held(w.entries)[rt] == 0)
            && multiset(w.registry.closed)[rt] <= 1
            && (Held(w.entries)[rt] > 0 ==> Registered(w.registry, rt))
  {
    RunKeepsSound(events);
    var w := Run(events);
    assert rt in w.registry.closed <==> multiset(w.registry.closed)[rt] > 0;
  }

  /** What an entry works with is never closed under it, nor is a second runtime registered for its key. */
  lemma HeldRuntimesStayOpen(events: seq<Event>, i: nat, rt: Runtime)
    requires i < |Run(events).entries| && HeldBy(Run(events).entries[i])[rt] > 0
    ensures rt !in Run(events).registry.closed && Registered(Run(events).registry, rt)
  {
    var others := HeldWithout(Run(events).entries, i, Idle);
    ReferencesAreConserved(events, rt);
  }

  lemma {:induction false} IdleHoldsNothing(entries: seq<Phase>)
    requires forall p | p in entries :: p == Idle
    ensures Held(entries) == multiset{}
    decreases |entries|
  {
    if entries != [] {
      var before := entries[..|entries| - 1];
      assert forall p | p in before :: p in entries;
      IdleHoldsNothing(before);
      assert entries[|entries| - 1] in entries;
    }
  }

  /** Nothing leaks: with every entry idle the registry is empty and each runtime ever created has been closed. */
  lemma NothingLeaks(events: seq<Event>)
    requires forall p | p in Run(events).entries :: p == Idle
    ensures var g := Run(events).registry;
            && g.runtimes == map[]
            && forall rt :: rt in g.created <==> rt in g.closed
  {
    var g := Run(events).registry;
    RunKeepsSound(events);
    assert forall k | k in g.runtimes :: Count(g, g.runtimes[k].runtime) > 0;
    IdleHoldsNothing(Run(events).entries);
    forall rt ensures rt in g.created <==> rt in g.closed {
      ReferencesAreConserved(events, rt);
    }
  }

  // ------------------------------------------------------------------ whom an entry works for

  /** What an entry has been asked for and told, as far as it got. */
  datatype Course =
    | Nothing
    | Starting(key: Key)
    | Serving(key: Key)
    | Switching(from: Key, to: Key, committed: bool)
    | Stopping(key: Key)

  function Advanced(c: Course, e: Event): Course {
    match e
    case Setup(_, key) => if c.Nothing? then Starting(key) else c
    case SetupSucceeds(_) => if c.Starting? then Serving(c.key) else c
    case SetupFails(_) => if c.Starting? then Nothing else c
    case Reload(_, key) => if c.Serving? && c.key != key then Switching(c.key, key, false) else c
    case Commit(_) => if c.Switching? then c.(committed := true) else c
    case ReloadEnds(_) => if c.Switching? then Serving(if c.committed then c.to else c.from) else c
    case Unload(_) => if c.Serving? then Stopping(c.key) else c
    case UnloadEnds(_) => if c.Stopping? then Nothing else c
    case NewEntry => c
  }

  function Entries(events: seq<Event>): nat
    decreases |events|
  {
    if events == [] then 0
    else Entries(events[..|events| - 1]) + if events[|events| - 1].NewEntry? then 1 else 0
  }

  function CourseOf(events: seq<Event>, i: nat): Course
    decreases |events|
  {
    if events == [] then Nothing
    else
      var before, last := events[..|events| - 1], events[|events| - 1];
      if !last.NewEntry? && last.entry == i && i < Entries(before) then Advanced(CourseOf(before, i), last)
      else CourseOf(before, i)
  }

  predicate WorksFor(p: Phase, c: Course) {
    match p
    case Idle => c == Nothing
    case SettingUp(rt) => c == Starting(rt.key)
    case Loaded(rt) => c == Serving(rt.key)
    case Reloading(current, replacement, committed) =>
      c == Switching(current.key, replacement.key, committed) && current.key != replacement.key
    case Unloading(rt) => c == Stopping(rt.key)
  }

  lemma TurnFollows(g: Registry, p: Phase, e: Event, c: Course)
    requires Numbered(g) && WorksFor(p, c) && !e.NewEntry?
    requires p.Loaded? ==> Registered(g, p.runtime)
    ensures WorksFor(TurnOf(g, p, e).phase, Advanced(c, e))
  {
    hide AfterAcquire, AfterRelease;
  }

  /**
    An entry works for the key it was last set up for or switched to: a reload that ended before its commit
    point leaves it where it was, one that ended after it serves the new key, and a reload for the same key
    changes nothing.
   */
  lemma {:induction false} EntryFollowsCourse(events: seq<Event>, i: nat)
    ensures |Run(events).entries| == Entries(events)
    ensures if i < |Run(events).entries| then WorksFor(Run(events).entries[i], CourseOf(events, i))
            else CourseOf(events, i) == Nothing
    decreases |events|
  {
    if events != [] {
      var before, last := events[..|events| - 1], events[|events| - 1];
      EntryFollowsCourse(before, i);
      var w := Run(before);
      if !last.NewEntry? && last.entry == i && i < |w.entries| {
        RunKeepsSound(before);
        if w.entries[i].Loaded? {
          HeldRuntimesStayOpen(before, i, w.entries[i].runtime);
        }
        TurnFollows(w.registry, w.entries[i], last, CourseOf(before, i));
      }
      hide TurnOf, Advanced, WorksFor, Counted, ClosedOnce;
      assert WorksFor(Idle, Nothing) by { IdleWorks(); }
    }
  }

  lemma IdleWorks()
    ensures WorksFor(Idle, Nothing)
  {
  }
}
