/**
  The whole path of a change: device, bus, stream loop, wire, client filter, refresh task, polls and
  reducer, interleaved in any order. Polls are serialised and read the device at one instant.
 */
module Transport {
  import opened Common
  import opened State
  import opened EventBus
  import opened StreamLoop
  import opened DeviceStreams

  /**
    A poll: none, begun, or with its answer on the way back. Something is at stake when the poll is a
    refresh's own, or the first since a refresh's poll failed.
   */
  datatype Poll =
    | Idle
    | Begun(byRefresh: bool, atStake: bool, base: nat)
    | Answered(byRefresh: bool, atStake: bool, base: nat, reading: Observation, readAt: nat)

  /**
    The device and its past. An instant counts the changes before it. For each leaf: the revision and
    the instant of its last announced change, and the instant of its last unannounced one. For each
    revision: the instant right after the change that published it.
   */
  datatype World = World(
    device: map<StateField, int>,
    past: seq<map<StateField, int>>,
    changed: map<StateField, nat>,
    announced: map<StateField, nat>,
    drifted: map<StateField, nat>,
    since: map<nat, nat>)

  function Clock(w: World): nat {
    |w.past|
  }

  function DeviceAt(w: World, t: nat): map<StateField, int>
    requires t <= Clock(w)
  {
    if t < |w.past| then w.past[t] else w.device
  }

  function Changed(w: World, device: map<StateField, int>, touched: set<StateField>, revision: nat): World {
    World(device, w.past + [w.device], Stamp(w.changed, touched, revision),
          Stamp(w.announced, touched, Clock(w) + 1), w.drifted, w.since[revision := Clock(w) + 1])
  }

  function Drifted(w: World, device: map<StateField, int>, touched: set<StateField>): World {
    World(device, w.past + [w.device], w.changed, w.announced, Stamp(w.drifted, touched, Clock(w) + 1), w.since)
  }

  /** What the bridge adds when it converts: capability results, contract, and how far the payload was classified. */
  datatype Choice = Choice(results: seq<CapabilityResult>, contract: Option<bool>, classified: bool, wantsRefresh: bool)

  datatype System = System(
    channel: Channel,
    world: World,
    wire: seq<Envelope>,
    client: Client,
    store: Reduction,
    storeRevision: nat,
    readAt: map<StateField, nat>,
    poll: Poll,
    missed: bool,
    handled: set<nat>,
    signalledAt: nat,
    signalRevision: nat,
    unanswered: bool)

  datatype Action =
    | Change(kind: EventType, device: map<StateField, int>, touched: set<StateField>)
    | Drift(device: map<StateField, int>, touched: set<StateField>)
    | OpenStream
    | SendSnapshot(built: bool, choice: Choice)
    | AskForMarker
    | TakeEvent(choice: Choice)
    | LoseStream
    | Deliver
    | BeginPass
    | BeginPoll(byRefresh: bool)
    | AnswerPoll(choice: Choice)
    | EndPoll
    | FailPoll

  /**
    An event announces the leaves it touches, or asks for a refresh, and a connection event reports how it left
    the device. What else changes with it drifts.
   */
  predicate Announces(kind: EventType, device: map<StateField, int>, touched: set<StateField>) {
    match kind
    case DiscoveryUpdated => false
    case ResyncRequired => true
    case ClassificationUpdated => true
    case ConnectionChanged(connected) =>
      Connected in touched && Lookup(device, Connected) == Some(if connected then 1 else 0)
    case SupportUpdated => touched == {}
    case ProviderAcknowledged => touched == {}
    case StateUpdated(fields) => touched == fields
  }

  predicate OnlyTouches(w: World, device: map<StateField, int>, touched: set<StateField>) {
    forall f :: f !in touched ==> Lookup(device, f) == Lookup(w.device, f)
  }

  predicate Enabled(s: System, a: Action) {
    match a
    case Change(kind, device, touched) => Announces(kind, device, touched) && OnlyTouches(s.world, device, touched)
    case Drift(device, touched) => OnlyTouches(s.world, device, touched)
    case OpenStream => s.channel.loop == Down
    case SendSnapshot(_, _) => s.channel.loop == Opening
    case AskForMarker => s.channel.loop == AtTop
    case TakeEvent(_) => s.channel.loop == AtSelect && s.channel.sub.buffer != []
    case LoseStream => s.channel.loop != Down
    case Deliver => s.wire != []
    case BeginPass => s.client.task == Created
    case BeginPoll(byRefresh) => s.poll == Idle && (byRefresh ==> s.client.task == Requested)
    case AnswerPoll(_) => s.poll.Begun?
    case EndPoll => s.poll.Answered?
    case FailPoll => s.poll != Idle
  }

  /** What a read of some leaves gives: the values there are, and the leaves without one. */
  function Reading(device: map<StateField, int>, fields: set<StateField>, choice: Choice): Observation {
    Observation(device, fields * device.Keys, fields - device.Keys, choice.results, choice.contract, None)
  }

  /** Whether the client has registered is its own affair; the other leaves are read from the bridge. */
  predicate OnDevice(f: StateField) {
    f != SkiRegistered
  }

  /** A reading of every leaf on the bridge. */
  function FullReading(device: map<StateField, int>, choice: Choice): Observation {
    Reading(device, (set f: StateField | OnDevice(f)), choice)
  }

  const PLAIN := Choice([], None, true, false)

  /** A connection event carries its own flag, from the moment it was published; everything else is read now. */
  function Convert(w: World, e: Event, choice: Choice): Envelope {
    var payload :=
      match e.kind
      case DiscoveryUpdated => NoPayload // never enters a scoped channel
      case ResyncRequired => Resync
      case ClassificationUpdated => Resync
      case ConnectionChanged(connected) => Connection(connected)
      case SupportUpdated => CapabilityChange(choice.results)
      case ProviderAcknowledged => Acknowledgement
      case StateUpdated(fields) =>
        if choice.classified then Delta(Reading(w.device, fields, choice), choice.wantsRefresh)
        else UnclassifiedMeasurement;
    Envelope(e.ski, e.revision, payload,
             if e.kind.ConnectionChanged? && e.revision in w.since then w.since[e.revision] else Clock(w))
  }

  function FirstEnvelope(s: System, built: bool, choice: Choice): Envelope {
    Envelope(s.channel.ski, s.channel.subscribedAt,
             if built then InitialSnapshot(FullReading(s.world.device, choice)) else Resync,
             Clock(s.world))
  }

  /** The instants of the readings that leaves rest on, after a reduction has stamped some of them. */
  function Rested(readAt: map<StateField, nat>, store: Reduction, revision: nat, t: nat): map<StateField, nat> {
    map f: StateField | f in readAt || RevisionOf(store.revisions, f) == revision
      :: if RevisionOf(store.revisions, f) == revision then t else readAt[f]
  }

  /** The store reduces an observation that was read at some instant. */
  function Store(s: System, o: Observation, t: nat): System {
    var store := Reduce(s.store, o, s.storeRevision + 1);
    s.(store := store, storeRevision := s.storeRevision + 1, readAt := Rested(s.readAt, store, s.storeRevision + 1, t))
  }

  function AfterPoll(s: System): Client
    requires s.poll != Idle
  {
    if s.poll.byRefresh then PassEnds(s.client) else s.client
  }

  /** The client takes the oldest envelope off the wire. */
  function Delivered(s: System): System
    requires s.wire != []
  {
    var e := s.wire[0];
    var seen := s.(wire := s.wire[1..], client := Handled(s.client, e));
    if !Accepts(s.client, e) then seen
    else
      var logged := seen.(
                    handled := if e.payload.Resync? then s.handled else s.handled + {e.revision},
                    signalledAt := if Signals(s.client, e) then e.revision else s.signalledAt,
                    signalRevision := if Signals(s.client, e) then s.channel.revision else s.signalRevision,
                    unanswered := s.unanswered || Signals(s.client, e));
      match Dispatched(s.client, e)
      case None => logged
      case Some(o) => Store(logged, o, e.builtAt)
  }

  function Next(s: System, a: Action): System
    requires Enabled(s, a)
  {
    match a
    case Change(kind, device, touched) =>
      s.(channel := StreamLoop.Next(s.channel, Publish(kind)),
      world := Changed(s.world, device, touched, s.channel.revision + 1))
    case Drift(device, touched) =>
      s.(world := Drifted(s.world, device, touched))
    case OpenStream =>
      s.(channel := StreamLoop.Next(s.channel, Open), wire := [], client := s.client.(last := None), handled := {})
    case SendSnapshot(built, choice) =>
      s.(channel := StreamLoop.Next(s.channel, SendInitial), wire := s.wire + [FirstEnvelope(s, built, choice)])
    case AskForMarker =>
      var marker := PendingResync(s.channel.sub, s.channel.revision);
      s.(channel := StreamLoop.Next(s.channel, TakeMarker),
      wire := if marker.None? then s.wire
      else s.wire + [Convert(s.world, marker.value, PLAIN)])
    case TakeEvent(choice) =>
      s.(channel := StreamLoop.Next(s.channel, Receive),
      wire := s.wire + [Convert(s.world, s.channel.sub.buffer[0], choice)])
    case LoseStream =>
      s.(channel := StreamLoop.Next(s.channel, Lose), wire := [])
    case Deliver =>
      Delivered(s)
    case BeginPass =>
      s.(client := PassBegins(s.client))
    case BeginPoll(byRefresh) =>
      s.(poll := Begun(byRefresh, byRefresh || s.missed, s.storeRevision), missed := false, unanswered := false,
      client := if byRefresh then s.client.(task := Polling) else s.client)
    case AnswerPoll(choice) =>
      s.(poll := Answered(s.poll.byRefresh, s.poll.atStake, s.poll.base,
                          FullReading(s.world.device, choice).(base := Some(s.poll.base)), Clock(s.world)))
    case EndPoll =>
      Store(s, s.poll.reading, s.poll.readAt).(poll := Idle, client := AfterPoll(s))
    case FailPoll =>
      s.(poll := Idle, client := AfterPoll(s), missed := s.missed || s.poll.atStake)
  }

  function Initially(ski: Ski, revision: nat, device: map<StateField, int>): System {
    System(StreamLoop.Initially(ski, revision), World(device, [], map[], map[], map[], map[]), [],
           Client(ski, None, false, NoTask), Reduction(EMPTY_STATE, map[]), 0, map[], Idle, false, {}, 0, 0, false)
  }

  predicate Runnable(s: System, actions: seq<Action>)
    decreases |actions|
  {
    actions == [] || (Enabled(s, actions[0]) && Runnable(Next(s, actions[0]), actions[1..]))
  }

  function Run(s: System, actions: seq<Action>): System
    requires Runnable(s, actions)
    decreases |actions|
  {
    if actions == [] then s else Run(Next(s, actions[0]), actions[1..])
  }

  // ------------------------------------------------------------------ the stream part

  predicate Live(s: System) {
    s.channel.loop == AtTop || s.channel.loop == AtSelect
  }

  /** The first envelope of a stream comes first, and only the first one can be a snapshot. */
  predicate FirstThingsFirst(s: System) {
    && (s.channel.loop == Opening ==> s.wire == [] && s.client.last == None)
    && (Live(s) && s.client.last == None ==>
          && s.wire != [] && s.wire[0].revision == s.channel.subscribedAt
          && (s.wire[0].payload.InitialSnapshot? || s.wire[0].payload.Resync?))
    && (forall i :: 0 <= i < |s.wire| && s.wire[i].payload.InitialSnapshot? ==> i == 0 && s.client.last == None)
    && (s.channel.loop == Down ==> s.wire == [])
  }

  /** Nothing on the wire or at the client is ahead of what was sent, and the newest thing sent is there. */
  predicate TipArrives(s: System) {
    && (forall i :: 0 <= i < |s.wire| ==> s.wire[i].ski == s.client.ski)
    && (Live(s) ==>
          && (forall i :: 0 <= i < |s.wire| ==> s.wire[i].revision <= s.channel.sentTip)
          && (s.client.last.Some? ==> s.client.last.value <= s.channel.sentTip)
          && (s.client.last == Some(s.channel.sentTip) ||
              exists i :: 0 <= i < |s.wire| && s.wire[i].revision == s.channel.sentTip))
    && (s.client.last.Some? ==> s.client.last.value <= s.channel.revision)
  }

  /** Everything up to the client's last revision was handled as an event or lies behind a refresh signal. */
  predicate Accounted(s: System) {
    && s.signalledAt <= s.signalRevision <= s.channel.revision
    && (s.client.last.Some? ==>
          forall r :: s.channel.subscribedAt < r <= s.client.last.value ==> r in s.handled || r <= s.signalledAt)
  }

  /** Every signal is answered by a poll that begins after it: until one has begun, one is owed. */
  predicate Answering(s: System) {
    && (s.client.task == Polling <==> s.poll != Idle && s.poll.byRefresh)
    && (s.unanswered ==> Owed(s.client))
  }

  predicate StreamInvariant(s: System) {
    && s.client.ski == s.channel.ski
    && Sound(s.channel) && FirstThingsFirst(s) && TipArrives(s) && Accounted(s) && Answering(s)
  }

  /** The step of the channel machine that an action of the whole system takes, if any. */
  function ChannelStep(a: Action): Option<Step> {
    match a
    case Change(kind, _, _) => Some(Publish(kind))
    case OpenStream => Some(Open)
    case SendSnapshot(_, _) => Some(SendInitial)
    case AskForMarker => Some(TakeMarker)
    case TakeEvent(_) => Some(Receive)
    case LoseStream => Some(Lose)
    case _ => None
  }

  lemma ChannelFollows(s: System, a: Action)
    requires Enabled(s, a) && Sound(s.channel)
    ensures var step := ChannelStep(a);
            && (step.Some? ==> StreamLoop.Enabled(s.channel, step.value))
            && Next(s, a).channel == (if step.Some? then StreamLoop.Next(s.channel, step.value) else s.channel)
            && Next(s, a).channel.ski == s.channel.ski
            && Sound(Next(s, a).channel)
  {
    hide Sound, Offer, AfterTakePending, PendingResync, Handled, Reduce;
    var step := ChannelStep(a);
    if step.Some? {
      StepKeepsSound(s.channel, step.value);
    }
  }

  /**
    Whatever marker the bus returns, its envelope names the client's device and the device's revision, and a
    client that accepts it owes a refresh.
   */
  lemma MarkerSignals(sub: Subscriber, revision: nat, w: World, choice: Choice, c: Client)
    requires PendingResync(sub, revision).Some?
    ensures var e := Convert(w, PendingResync(sub, revision).value, choice);
            && e.ski == sub.ski && e.revision == revision
            && (e.ski == c.ski && (c.last.Some? ==> revision > c.last.value) ==>
                  Handled(c, e).last == Some(revision) && Owed(Handled(c, e)))
  {
  }

  /**
    What an event comes to at a client that has seen everything before it: which events ask for a refresh, and
    what each brings to the store.
   */
  lemma EventEffects(w: World, e: Event, choice: Choice, c: Client)
    requires e.kind != DiscoveryUpdated && e.ski == c.ski && c.last.Some? && e.revision == c.last.value + 1
    ensures var sent := Convert(w, e, choice);
            var d, o := Handled(c, sent), Dispatched(c, sent);
            var asks := || e.kind == ResyncRequired || e.kind == ClassificationUpdated || e.kind.ConnectionChanged?
                        || (e.kind.StateUpdated? && !choice.classified);
            && d == Client(c.ski, Some(e.revision), if asks then c.task != NoTask else c.refreshPending,
                           if asks && c.task == NoTask then Created else c.task)
            && match e.kind
               case ConnectionChanged(connected) =>
                 o == Some(Observation(map[Connected := if connected then 1 else 0], {Connected}, {}, [], None, None))
               case SupportUpdated =>
                 o == Some(Observation(map[], {}, {}, choice.results, Some(true), None))
               case StateUpdated(fields) =>
                 if !choice.classified then o == None
                 else
                   && o.Some? && o.value.base == None && o.value.results == choice.results
                   && (forall f :: f in o.value.observed <==> f in fields && f in w.device)
                   && (forall f :: f in o.value.unavailable <==> f in fields && f !in w.device)
                   && (forall f | f in o.value.observed :: Lookup(o.value.values, f) == Some(w.device[f]))
               case _ => o == None
  {
    hide Signal;
    HandlerAsks(c, Convert(w, e, choice));
    hide Handled;
  }

  /** Asking for a marker puts one on the wire exactly when one is due; it will be answered by a refresh. */
  lemma MarkerIsSent(s: System)
    requires Enabled(s, AskForMarker) && Sound(s.channel)
    ensures var t, sub := Next(s, AskForMarker), s.channel.sub;
            if sub.pendingDropped > 0 && (sub.buffer == [] || sub.resyncDeferrals >= 64) then
              && |t.wire| == |s.wire| + 1 && t.wire[..|s.wire|] == s.wire
              && t.wire[|s.wire|].revision == s.channel.revision
              && forall c: Client | c.ski == s.channel.ski && (c.last.Some? ==> c.last.value < s.channel.revision) ::
                   Owed(Handled(c, t.wire[|s.wire|]))
            else t.wire == s.wire
  {
    hide Ordered, Conserved, Wakeful, TipKept, Handled, Owed, Convert;
    if PendingResync(s.channel.sub, s.channel.revision).Some? {
      MarkerSignals(s.channel.sub, s.channel.revision, s.world, PLAIN, s.client);
      forall c: Client { MarkerSignals(s.channel.sub, s.channel.revision, s.world, PLAIN, c); }
    }
  }

  /** What the client's handler does, in the terms the invariants use. */
  lemma HandlerFacts(c: Client, e: Envelope)
    ensures var d := Handled(c, e);
            && d.ski == c.ski
            && d.last == (if Accepts(c, e) then Some(e.revision) else c.last)
            && (d.task == Polling <==> c.task == Polling)
            && (Owed(c) ==> Owed(d))
            && (Accepts(c, e) && Signals(c, e) ==> Owed(d))
  {
  }

  lemma DeliveryFacts(s: System)
    requires s.wire != []
    ensures var e, t := s.wire[0], Delivered(s);
            var accepted := Accepts(s.client, e);
            && t.channel == s.channel && t.world == s.world && t.poll == s.poll && t.missed == s.missed
            && t.wire == s.wire[1..] && t.client == Handled(s.client, e)
            && t.unanswered == (s.unanswered || (accepted && Signals(s.client, e)))
            && t.handled == (if accepted && !e.payload.Resync? then s.handled + {e.revision} else s.handled)
            && t.signalledAt == (if accepted && Signals(s.client, e) then e.revision else s.signalledAt)
            && t.signalRevision == (if accepted && Signals(s.client, e) then s.channel.revision else s.signalRevision)
            && (if accepted && Dispatched(s.client, e).Some?
                then t.store == Reduce(s.store, Dispatched(s.client, e).value, s.storeRevision + 1)
                     && t.storeRevision == s.storeRevision + 1
                     && t.readAt == Rested(s.readAt, t.store, t.storeRevision, e.builtAt)
                else t.store == s.store && t.storeRevision == s.storeRevision && t.readAt == s.readAt)
  {
    hide Reduce, Handled, Rested;
  }

  lemma FirstStep(s: System, a: Action)
    requires Enabled(s, a) && FirstThingsFirst(s) && TipArrives(s)
    ensures FirstThingsFirst(Next(s, a))
  {
    hide Reduce, Rested, Stamp, Offer, AfterTakePending, Handled, Delivered, Reading;
    match a
    case Deliver =>
      DeliveryFacts(s);
      HandlerFacts(s.client, s.wire[0]);
    case _ =>
  }

  lemma TipStep(s: System, a: Action)
    requires Enabled(s, a) && Sound(s.channel) && FirstThingsFirst(s) && TipArrives(s) && s.client.ski == s.channel.ski
    ensures TipArrives(Next(s, a))
  {
    hide Reduce, Rested, Stamp, Offer, AfterTakePending, Handled, Delivered, Reading, Ordered, Conserved, Wakeful,
      TipKept, Signal;
    var t := Next(s, a);
    match a
    case SendSnapshot(_, _) =>
      assert t.wire[0].revision == t.channel.sentTip;
    case AskForMarker =>
      if PendingResync(s.channel.sub, s.channel.revision).Some? {
        assert t.wire[|s.wire|].revision == t.channel.sentTip;
      } else {
        KeepsWireTip(s, t);
      }
    case TakeEvent(_) =>
      assert t.wire[|s.wire|].revision == s.channel.sub.buffer[0].revision;
      KeepsWireTip(s, t);
    case Deliver =>
      TipDelivered(s);
    case _ =>
  }

  lemma TipDelivered(s: System)
    requires s.wire != [] && FirstThingsFirst(s) && TipArrives(s) && s.channel.sentTip <= s.channel.revision
    ensures TipArrives(Delivered(s))
  {
    hide Reduce, Handled, Delivered, Signals, Dispatched;
    var t := Delivered(s);
    DeliveryFacts(s);
    HandlerFacts(s.client, s.wire[0]);
    if i :| 0 < i < |s.wire| && s.wire[i].revision == s.channel.sentTip {
      assert t.wire[i - 1] == s.wire[i];
    }
  }

  lemma KeepsWireTip(s: System, t: System)
    requires s.wire <= t.wire
    ensures forall i :: 0 <= i < |s.wire| ==> t.wire[i] == s.wire[i]
  {
  }

  lemma AccountedStep(s: System, a: Action)
    requires Enabled(s, a) && Sound(s.channel) && FirstThingsFirst(s) && TipArrives(s) && Accounted(s)
    ensures Accounted(Next(s, a))
  {
    hide Reduce, Rested, Stamp, Offer, AfterTakePending, Handled, Delivered, Reading, Ordered, Conserved, Wakeful,
      TipKept, Signal;
    var t := Next(s, a);
    match a
    case Deliver =>
      DeliveryFacts(s);
      HandlerFacts(s.client, s.wire[0]);
      ChannelFollows(s, a);
      assert s.wire[0].revision <= s.channel.revision;
    case _ =>
  }

  lemma AnsweringStep(s: System, a: Action)
    requires Enabled(s, a) && Accounted(s) && Answering(s)
    ensures Answering(Next(s, a))
  {
    hide Reduce, Rested, Stamp, Offer, AfterTakePending, Handled, Delivered, Reading, Signals;
    match a
    case Deliver =>
      DeliveryFacts(s);
      HandlerFacts(s.client, s.wire[0]);
    case _ =>
  }

  lemma StepKeepsStream(s: System, a: Action)
    requires StreamInvariant(s) && Enabled(s, a)
    ensures StreamInvariant(Next(s, a))
  {
    hide Sound, FirstThingsFirst, TipArrives, Accounted, Answering, Handled, Reduce, StreamLoop.Next;
    ChannelFollows(s, a);
    FirstStep(s, a);
    TipStep(s, a);
    AccountedStep(s, a);
    AnsweringStep(s, a);
    if a == Deliver {
      HandlerFacts(s.client, s.wire[0]);
    }
  }

  lemma {:induction false} RunKeepsStream(s: System, actions: seq<Action>)
    requires StreamInvariant(s) && Runnable(s, actions)
    ensures StreamInvariant(Run(s, actions))
    decreases |actions|
  {
    hide StreamInvariant, Next;
    if actions != [] {
      StepKeepsStream(s, actions[0]);
      RunKeepsStream(Next(s, actions[0]), actions[1..]);
    }
  }

  /** The stream is up and nothing is left in the channel, pending, or on the wire. */
  predicate Quiescent(s: System) {
    Live(s) && s.channel.sub.buffer == [] && s.channel.sub.pendingDropped == 0 && s.wire == []
  }

  /**
    No silent loss. Whatever the interleaving of changes, drops, markers, deliveries, polls and
    reconnects, a quiescent client stands at the device's revision, and every revision since it
    subscribed was handled as an event or had been published when a refresh was signalled; and since the
    latest signal a poll has begun, or one is still owed.
   */
  lemma NoSilentLoss(ski: Ski, revision: nat, device: map<StateField, int>, actions: seq<Action>)
    requires ski != "" && Runnable(Initially(ski, revision, device), actions)
    ensures var s := Run(Initially(ski, revision, device), actions);
            Quiescent(s) ==>
              && s.client.last == Some(s.channel.revision)
              && (forall r :: s.channel.subscribedAt < r <= s.channel.revision ==>
                                r in s.handled || r <= s.signalRevision)
              && (s.unanswered ==> Owed(s.client))
  {
    hide Next, Run, Runnable, Ordered, Conserved;
    RunKeepsStream(Initially(ski, revision, device), actions);
  }
}
