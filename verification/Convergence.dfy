/**
  Eventual agreement: once everything in flight has landed, the client's view of every leaf that no
  capability owns is the device's as it was at the reading the leaf rests on, with no announced change
  since, unless a refresh's poll failed and none has succeeded since.
 */
module Convergence {
  import opened Common
  import opened State
  import opened EventBus
  import StreamLoop
  import opened DeviceStreams
  import opened Transport
  import Reducer

  /** The device leaves that no capability owns; whether the client has registered is no device leaf. */
  predicate Followed(f: StateField) {
    Owner(f).None? && OnDevice(f)
  }

  function ChangedAt(s: System, f: StateField): nat {
    RevisionOf(s.world.changed, f)
  }

  /** The instant of the reading that a leaf of the store rests on. */
  function ReadAt(s: System, f: StateField): nat {
    RevisionOf(s.readAt, f)
  }

  /** A reading that tells the truth about one leaf of the device. */
  predicate Carries(o: Observation, f: StateField, device: map<StateField, int>) {
    && (f in o.observed <==> f in device)
    && (f in o.unavailable <==> f !in device)
    && Lookup(o.values, f) == Lookup(device, f)
  }

  predicate Agrees(leaf: Leaf, f: StateField, device: map<StateField, int>) {
    leaf.isFresh == (f in device) && (leaf.isFresh ==> leaf.value == Lookup(device, f))
  }

  /** Nothing about the leaf has been announced since an instant. */
  predicate Current(w: World, f: StateField, t: nat) {
    RevisionOf(w.announced, f) <= t <= Clock(w)
  }

  /** A reading taken at an instant after which nothing about the leaf has been announced. */
  predicate Saw(w: World, o: Observation, f: StateField, t: nat) {
    Current(w, f, t) && Carries(o, f, DeviceAt(w, t))
  }

  predicate Touches(o: Observation, f: StateField) {
    f in o.observed || f in o.unavailable
  }

  /** The observation in an envelope, whoever receives it. */
  function Content(p: Payload): Option<Observation> {
    match p
    case InitialSnapshot(snapshot) => Some(snapshot)
    case CapabilityChange(results) => Some(NOTHING_SEEN.(results := results, explicitContract := Some(true)))
    case Connection(connected) => Some(ConnectionReading(connected))
    case Delta(reading, _) => Some(reading)
    case _ => None
  }

  predicate Tells(p: Payload, f: StateField) {
    (p.InitialSnapshot? || p.Delta?) && Touches(Content(p).value, f)
  }

  predicate AsksForRefresh(p: Payload) {
    p.Resync? || p.Connection? || p.UnclassifiedMeasurement? || p.NoPayload?
  }

  predicate KindTells(kind: EventType, f: StateField) {
    kind.StateUpdated? && f in kind.fields
  }

  /**
    A buffered event never tells of a leaf after the leaf's last announced change; the event of that
    change tells of it or will ask for a refresh.
   */
  predicate EventKnown(at: nat, e: Event, f: StateField) {
    && e.kind != DiscoveryUpdated
    && (KindTells(e.kind, f) ==> e.revision <= at)
    && (e.revision == at ==>
          || KindTells(e.kind, f)
          || e.kind == ResyncRequired || e.kind == ClassificationUpdated || e.kind.ConnectionChanged?)
  }

  /** The same for an envelope, whose reading was taken when it was built. */
  predicate EnvelopeKnown(w: World, e: Envelope, f: StateField) {
    var at := RevisionOf(w.changed, f);
    && (Content(e.payload).Some? ==> Content(e.payload).value.base == None)
    && (e.payload.InitialSnapshot? ==> Tells(e.payload, f))
    && (Tells(e.payload, f) ==>
          && (e.revision <= at || e.payload.InitialSnapshot?)
          && (e.revision >= at ==> Saw(w, Content(e.payload).value, f, e.builtAt)))
    && (e.revision == at ==> Tells(e.payload, f) || AsksForRefresh(e.payload))
  }

  predicate InFlight(s: System, f: StateField) {
    && ChangedAt(s, f) <= s.channel.revision
    && Current(s.world, f, Clock(s.world))
    && (s.channel.loop != StreamLoop.Down ==>
          forall i :: 0 <= i < |s.channel.sub.buffer| ==> EventKnown(ChangedAt(s, f), s.channel.sub.buffer[i], f))
    && (forall i :: 0 <= i < |s.wire| ==> EnvelopeKnown(s.world, s.wire[i], f))
  }

  /** Between its changes a leaf of the device stands still. */
  predicate Steady(w: World, f: StateField) {
    && RevisionOf(w.drifted, f) <= Clock(w)
    && forall t | RevisionOf(w.announced, f) <= t && RevisionOf(w.drifted, f) <= t && t <= Clock(w) ::
         Lookup(DeviceAt(w, t), f) == Lookup(w.device, f)
  }

  function LeafOf(s: System, f: StateField): Leaf {
    View(s.store, f)
  }

  predicate Bases(s: System, f: StateField) {
    && LeafOf(s, f).revision <= s.storeRevision
    && (s.poll != Idle ==> s.poll.base <= s.storeRevision)
    && (s.poll.Answered? ==> s.poll.reading.base == Some(s.poll.base))
  }

  /** The change is still on its way over the stream. */
  predicate Coming(s: System, f: StateField) {
    s.client.last.None? || ChangedAt(s, f) > s.client.last.value
  }

  /** A poll under way will bring the change; should it fail, that is noticed. */
  predicate Fetched(s: System, f: StateField) {
    && s.poll != Idle && s.poll.atStake
    && LeafOf(s, f).revision <= s.poll.base
    && (s.poll.Answered? ==> Saw(s.world, s.poll.reading, f, s.poll.readAt))
  }

  /** The leaf shows the device as of its reading, with nothing announced since. */
  predicate Shows(w: World, leaf: Leaf, f: StateField, t: nat) {
    Current(w, f, t) && Agrees(leaf, f, DeviceAt(w, t))
  }

  /** The client has it, and no poll under way can take it back. */
  predicate Learned(s: System, f: StateField) {
    && Shows(s.world, LeafOf(s, f), f, ReadAt(s, f))
    && (s.poll.Answered? ==> LeafOf(s, f).revision > s.poll.base || Saw(s.world, s.poll.reading, f, s.poll.readAt))
  }

  predicate Tracked(s: System, f: StateField) {
    Coming(s, f) || Owed(s.client) || s.missed || Fetched(s, f) || Learned(s, f)
  }

  predicate LeafInvariant(s: System, f: StateField) {
    StreamInvariant(s) && InFlight(s, f) && Bases(s, f) && Steady(s.world, f) && Tracked(s, f)
  }

  // ------------------------------------------------------------------ what is in flight

  lemma KnownEventConverts(w: World, e: Event, choice: Choice, f: StateField)
    requires EventKnown(RevisionOf(w.changed, f), e, f) && Current(w, f, Clock(w))
    ensures EnvelopeKnown(w, Convert(w, e, choice), f)
  {
    hide Reading;
    if e.kind.StateUpdated? {
      ReadingCarries(w.device, e.kind.fields, choice, f);
      hide Carries;
    } else {
      hide Carries, Current;
    }
  }

  lemma ReadingCarries(device: map<StateField, int>, fields: set<StateField>, choice: Choice, f: StateField)
    ensures var o := Reading(device, fields, choice);
            && o.base == None
            && (Touches(o, f) <==> f in fields)
            && (f in fields ==> Carries(o, f, device))
  {
  }

  lemma FullReadingCarries(device: map<StateField, int>, choice: Choice, f: StateField)
    ensures var o := FullReading(device, choice);
            o.base == None && (OnDevice(f) ==> Touches(o, f) && Carries(o, f, device))
  {
    ReadingCarries(device, (set g: StateField | OnDevice(g)), choice, f);
    hide Reading, Touches, Carries;
  }

  lemma NothingAhead(s: System)
    requires StreamInvariant(s)
    ensures s.channel.loop != StreamLoop.Down ==>
              forall i :: 0 <= i < |s.channel.sub.buffer| ==> s.channel.sub.buffer[i].revision <= s.channel.revision
    ensures forall i :: 0 <= i < |s.wire| ==> s.wire[i].revision <= s.channel.revision
    ensures s.client.last.Some? ==> s.client.last.value <= s.channel.revision
  {
    var c := s.channel;
    if c.loop != StreamLoop.Down {
      forall i | 0 <= i < |c.sub.buffer| ensures c.sub.buffer[i].revision <= c.revision {
        assert StreamLoop.Passed(c)[|c.received| + i] == c.sub.buffer[i].revision;
      }
    }
  }

  /** What a change of the device, announced or not, does to its history. */
  predicate Succeeds(w: World, w': World, f: StateField) {
    && w'.past == w.past + [w.device]
    && RevisionOf(w.changed, f) <= RevisionOf(w'.changed, f)
    && (RevisionOf(w'.changed, f) == RevisionOf(w.changed, f) ==>
          RevisionOf(w'.announced, f) == RevisionOf(w.announced, f))
  }

  /** A reading survives a change unless the change is announced and touches the leaf. */
  lemma SawOutlives(w: World, w': World, o: Observation, f: StateField, t: nat)
    requires Succeeds(w, w', f) && Saw(w, o, f, t) && RevisionOf(w'.announced, f) == RevisionOf(w.announced, f)
    ensures Saw(w', o, f, t)
  {
    assert DeviceAt(w', t) == DeviceAt(w, t);
  }

  lemma EnvelopeOutlives(w: World, w': World, e: Envelope, f: StateField)
    requires EnvelopeKnown(w, e, f) && Succeeds(w, w', f)
    requires RevisionOf(w'.changed, f) == RevisionOf(w.changed, f) || RevisionOf(w'.changed, f) > e.revision
    ensures EnvelopeKnown(w', e, f)
  {
    if Tells(e.payload, f) && RevisionOf(w'.changed, f) <= e.revision {
      SawOutlives(w, w', Content(e.payload).value, f, e.builtAt);
    }
    hide Content, Saw, Touches, Tells, AsksForRefresh;
  }

  lemma ChangedWorld(w: World, device: map<StateField, int>, touched: set<StateField>, revision: nat, f: StateField)
    requires Current(w, f, Clock(w)) && RevisionOf(w.changed, f) < revision
    ensures var w' := Changed(w, device, touched, revision);
            && Succeeds(w, w', f) && Current(w', f, Clock(w'))
            && RevisionOf(w'.changed, f) == (if f in touched then revision else RevisionOf(w.changed, f))
  {
  }

  lemma ChangeIs(s: System, a: Action)
    requires Enabled(s, a) && a.Change?
    ensures a.kind != DiscoveryUpdated
    ensures Next(s, a) == s.(channel := StreamLoop.Next(s.channel, StreamLoop.Publish(a.kind)),
                          world := Changed(s.world, a.device, a.touched, s.channel.revision + 1))
  {
    hide StreamLoop.Next, Changed, OnlyTouches;
  }

  lemma ChangeFacts(s: System, a: Action, f: StateField)
    requires Enabled(s, a) && a.Change? && Current(s.world, f, Clock(s.world)) && ChangedAt(s, f) <= s.channel.revision
    ensures var t := Next(s, a);
            && t == s.(channel := t.channel, world := t.world)
            && t.channel.revision == s.channel.revision + 1 && t.channel.loop == s.channel.loop
            && (t.channel.sub.buffer == s.channel.sub.buffer ||
                t.channel.sub.buffer == s.channel.sub.buffer + [StreamLoop.NewEvent(s.channel, a.kind)])
            && Succeeds(s.world, t.world, f) && Current(t.world, f, Clock(t.world))
            && ChangedAt(t, f) == (if f in a.touched then s.channel.revision + 1 else ChangedAt(s, f))
  {
    ChangeIs(s, a);
    hide Next, Enabled, StreamLoop.Next, StreamLoop.NewEvent, Succeeds, Current, Changed;
    ChannelPublishes(s.channel, a.kind);
    ChangedWorld(s.world, a.device, a.touched, s.channel.revision + 1, f);
  }

  lemma ChannelPublishes(c: StreamLoop.Channel, kind: EventType)
    requires kind != DiscoveryUpdated
    ensures var d := StreamLoop.Next(c, StreamLoop.Publish(kind));
            && d.revision == c.revision + 1 && d.loop == c.loop
            && (d.sub.buffer == c.sub.buffer || d.sub.buffer == c.sub.buffer + [StreamLoop.NewEvent(c, kind)])
  {
  }

  lemma DriftFacts(s: System, a: Action, f: StateField)
    requires Enabled(s, a) && a.Drift? && Current(s.world, f, Clock(s.world))
    ensures var t := Next(s, a);
            && t == s.(world := t.world)
            && Succeeds(s.world, t.world, f) && Current(t.world, f, Clock(t.world))
            && t.world.changed == s.world.changed && t.world.announced == s.world.announced
  {
  }

  lemma ChangeKeepsFlight(s: System, a: Action, f: StateField)
    requires StreamInvariant(s) && InFlight(s, f) && Enabled(s, a) && a.Change?
    ensures InFlight(Next(s, a), f)
  {
    hide EventKnown, EnvelopeKnown, StreamInvariant, Next, Enabled, ChangedAt, Succeeds;
    ChangeFacts(s, a, f);
    if s.channel.loop != StreamLoop.Down {
      ChangeKeepsBuffer(s, a, f);
    }
    ChangeKeepsWire(s, a, f);
  }

  lemma ChangeKeepsBuffer(s: System, a: Action, f: StateField)
    requires StreamInvariant(s) && InFlight(s, f) && Enabled(s, a) && a.Change? && s.channel.loop != StreamLoop.Down
    ensures var t := Next(s, a);
            forall i :: 0 <= i < |t.channel.sub.buffer| ==> EventKnown(ChangedAt(t, f), t.channel.sub.buffer[i], f)
  {
    hide EnvelopeKnown, StreamInvariant, Next, ChangedAt, Succeeds, KindTells;
    NothingAhead(s);
    ChangeFacts(s, a, f);
    NewEventKnown(s, a, f);
  }

  lemma ChangeKeepsWire(s: System, a: Action, f: StateField)
    requires StreamInvariant(s) && InFlight(s, f) && Enabled(s, a) && a.Change?
    ensures var t := Next(s, a);
            forall i :: 0 <= i < |t.wire| ==> EnvelopeKnown(t.world, t.wire[i], f)
  {
    hide EventKnown, EnvelopeKnown, StreamInvariant, Next, Enabled, Succeeds;
    NothingAhead(s);
    ChangeFacts(s, a, f);
    var t := Next(s, a);
    forall i | 0 <= i < |t.wire| ensures EnvelopeKnown(t.world, t.wire[i], f) {
      EnvelopeOutlives(s.world, t.world, s.wire[i], f);
    }
  }

  lemma NewEventKnown(s: System, a: Action, f: StateField)
    requires Enabled(s, a) && a.Change? && InFlight(s, f)
    ensures EventKnown(ChangedAt(Next(s, a), f), StreamLoop.NewEvent(s.channel, a.kind), f)
  {
    ChangeFacts(s, a, f);
    hide Next, ChangedAt;
  }

  lemma DriftKeepsFlight(s: System, a: Action, f: StateField)
    requires InFlight(s, f) && Enabled(s, a) && a.Drift?
    ensures InFlight(Next(s, a), f)
  {
    hide EventKnown, EnvelopeKnown, Next, Enabled, Succeeds;
    DriftFacts(s, a, f);
    var t := Next(s, a);
    forall i | 0 <= i < |t.wire| ensures EnvelopeKnown(t.world, t.wire[i], f) {
      EnvelopeOutlives(s.world, t.world, s.wire[i], f);
    }
  }

  lemma FirstEnvelopeKnown(s: System, built: bool, choice: Choice, f: StateField)
    requires OnDevice(f) && Current(s.world, f, Clock(s.world))
    ensures EnvelopeKnown(s.world, FirstEnvelope(s, built, choice), f)
  {
    FullReadingCarries(s.world.device, choice, f);
    hide Carries, FullReading, Touches;
  }

  lemma MarkerKnown(w: World, sub: Subscriber, revision: nat, f: StateField)
    requires PendingResync(sub, revision).Some?
    ensures EnvelopeKnown(w, Convert(w, PendingResync(sub, revision).value, PLAIN), f)
  {
    hide Saw, Current;
  }

  lemma StepKeepsFlight(s: System, a: Action, f: StateField)
    requires StreamInvariant(s) && InFlight(s, f) && Enabled(s, a) && OnDevice(f)
    ensures InFlight(Next(s, a), f)
  {
    hide InFlight, StreamInvariant, Next;
    match a
    case Change(_, _, _) =>
      ChangeKeepsFlight(s, a, f);
    case Drift(_, _) =>
      DriftKeepsFlight(s, a, f);
    case BeginPass =>
      BeginPassIs(s);
      SameFlight(s, Next(s, a), f);
    case BeginPoll(byRefresh) =>
      BeginPollIs(s, byRefresh);
      SameFlight(s, Next(s, a), f);
    case AnswerPoll(choice) =>
      AnswerPollIs(s, choice);
      SameFlight(s, Next(s, a), f);
    case EndPoll =>
      EndPollIs(s);
      SameFlight(s, Next(s, a), f);
    case FailPoll =>
      FailPollIs(s);
      SameFlight(s, Next(s, a), f);
    case Deliver =>
      DeliverIs(s);
      DeliveryKeepsFlight(s, f);
    case _ =>
      StreamKeepsFlight(s, a, f);
  }

  lemma SameFlight(s: System, t: System, f: StateField)
    requires InFlight(s, f) && t.channel == s.channel && t.world == s.world && t.wire == s.wire
    ensures InFlight(t, f)
  {
    hide EventKnown, EnvelopeKnown, Current;
  }

  lemma DeliveryKeepsFlight(s: System, f: StateField)
    requires InFlight(s, f) && s.wire != []
    ensures InFlight(Delivered(s), f)
  {
    hide EventKnown, EnvelopeKnown, Current, Delivered, Handled;
    DeliveryFacts(s);
  }

  lemma StreamKeepsFlight(s: System, a: Action, f: StateField)
    requires StreamInvariant(s) && InFlight(s, f) && Enabled(s, a) && OnDevice(f)
    requires a == OpenStream || a.SendSnapshot? || a == AskForMarker || a.TakeEvent? || a == LoseStream
    ensures InFlight(Next(s, a), f)
  {
    hide EventKnown, EnvelopeKnown, StreamInvariant, Convert, FirstEnvelope;
    match a
    case SendSnapshot(built, choice) =>
      FirstEnvelopeKnown(s, built, choice, f);
    case AskForMarker =>
      MarkerKeepsFlight(s, f);
      hide Next;
    case TakeEvent(choice) =>
      KnownEventConverts(s.world, s.channel.sub.buffer[0], choice, f);
    case _ =>
  }

  lemma MarkerKeepsFlight(s: System, f: StateField)
    requires InFlight(s, f) && Enabled(s, AskForMarker)
    ensures InFlight(Next(s, AskForMarker), f)
  {
    if PendingResync(s.channel.sub, s.channel.revision).Some? {
      MarkerKnown(s.world, s.channel.sub, s.channel.revision, f);
    }
    hide EventKnown, EnvelopeKnown, Convert, PendingResync, Current;
  }

  lemma StepKeepsSteady(s: System, a: Action, f: StateField)
    requires Steady(s.world, f) && Current(s.world, f, Clock(s.world)) && Enabled(s, a)
    ensures Steady(Next(s, a).world, f)
  {
    hide Reduce, Rested, Convert, FirstEnvelope, Handled, Delivered, Offer, Reading, FullReading, StreamLoop.Next;
    match a
    case Change(_, device, touched) =>
      ChangedSteady(s.world, device, touched, s.channel.revision + 1, f);
      hide Steady, Changed;
    case Drift(device, touched) =>
      DriftedSteady(s.world, device, touched, f);
      hide Steady, Drifted;
    case Deliver =>
      DeliveryFacts(s);
    case _ =>
  }

  lemma ChangedSteady(w: World, device: map<StateField, int>, touched: set<StateField>, revision: nat, f: StateField)
    requires Steady(w, f) && Current(w, f, Clock(w)) && OnlyTouches(w, device, touched)
    ensures Steady(Changed(w, device, touched, revision), f)
  {
    var w' := Changed(w, device, touched, revision);
    assert RevisionOf(w'.announced, f) == if f in touched then Clock(w) + 1 else RevisionOf(w.announced, f);
    hide Changed, Stamp;
    PastStands(w, w');
  }

  lemma DriftedSteady(w: World, device: map<StateField, int>, touched: set<StateField>, f: StateField)
    requires Steady(w, f) && Current(w, f, Clock(w)) && OnlyTouches(w, device, touched)
    ensures Steady(Drifted(w, device, touched), f)
  {
    var w' := Drifted(w, device, touched);
    assert RevisionOf(w'.drifted, f) == if f in touched then Clock(w) + 1 else RevisionOf(w.drifted, f);
    hide Drifted, Stamp;
    PastStands(w, w');
  }

  lemma PastStands(w: World, w': World)
    requires w'.past == w.past + [w.device]
    ensures forall t: nat | t <= Clock(w) :: DeviceAt(w', t) == DeviceAt(w, t)
  {
  }

  // ------------------------------------------------------------------ what the client learns

  /** A poll's answer folded in: it settles the leaf unless the stream has been there since the poll began. */
  lemma AnswerSettles(r: Reduction, o: Observation, revision: nat, f: StateField, device: map<StateField, int>)
    requires o.base.Some? && o.base.value < revision && Owner(f).None? && View(r, f).revision < revision
    requires Carries(o, f, device) || View(r, f).revision > o.base.value
    ensures var leaf := View(Reduce(r, o, revision), f);
            && (View(r, f).revision > o.base.value ==> leaf == View(r, f))
            && (View(r, f).revision <= o.base.value ==> leaf.revision == revision && Agrees(leaf, f, device))
  {
    hide Reduce, Owner;
    Reducer.PollStep(r, o, revision, f);
  }

  /** A stream reading folded in: it settles the leaf it carries and leaves the others alone. */
  lemma ReadingSettles(r: Reduction, o: Observation, revision: nat, f: StateField, device: map<StateField, int>)
    requires o.base.None? && Owner(f).None?
    ensures var leaf := View(Reduce(r, o, revision), f);
            && (!Touches(o, f) ==> leaf == View(r, f))
            && (Touches(o, f) ==> leaf.revision == revision)
            && (Touches(o, f) && Carries(o, f, device) ==> Agrees(leaf, f, device))
  {
    hide Reduce, Owner;
    Reducer.StreamStep(r, o, revision, f);
  }

  lemma BasesStep(s: System, a: Action, f: StateField)
    requires InFlight(s, f) && Bases(s, f) && Enabled(s, a) && Owner(f).None?
    ensures Bases(Next(s, a), f)
  {
    hide Reduce, Rested, Owner, EnvelopeKnown, EventKnown, StreamLoop.Next, Handled, Delivered, Accepts, Signals,
      Stamp, Reading, FullReading;
    match a
    case Deliver =>
      DeliveryFacts(s);
      var e := s.wire[0];
      if Accepts(s.client, e) && Dispatched(s.client, e).Some? {
        ContentDispatched(s.client, e);
        assert Content(e.payload).value.base == None by {
          assert EnvelopeKnown(s.world, e, f);
          KnownBase(s.world, e, f);
        }
        ReadingSettles(s.store, Content(e.payload).value, s.storeRevision + 1, f, DeviceAt(s.world, Clock(s.world)));
      }
    case EndPoll =>
      Reducer.PollStep(s.store, s.poll.reading, s.storeRevision + 1, f);
    case _ =>
  }

  lemma ContentDispatched(c: Client, e: Envelope)
    ensures Dispatched(c, e) == if Accepts(c, e) then Content(e.payload) else None
  {
  }

  lemma KnownBase(w: World, e: Envelope, f: StateField)
    requires EnvelopeKnown(w, e, f) && Content(e.payload).Some?
    ensures Content(e.payload).value.base == None
  {
  }

  /** Delivering an envelope: what an accepted one without a refresh signal can mean for a leaf. */
  lemma AcceptedTells(s: System, f: StateField)
    requires StreamInvariant(s) && s.wire != [] && EnvelopeKnown(s.world, s.wire[0], f)
    requires Accepts(s.client, s.wire[0]) && !Signals(s.client, s.wire[0])
    ensures var e, at := s.wire[0], ChangedAt(s, f);
            if Coming(s, f) then
              at <= e.revision ==> Tells(e.payload, f) && Saw(s.world, Content(e.payload).value, f, e.builtAt)
            else
              Content(e.payload).Some? ==> !Touches(Content(e.payload).value, f)
  {
    hide StreamLoop.Sound, TipArrives, Accounted, Answering, Saw;
    var e := s.wire[0];
    if s.client.last.None? {
      assert e.payload.InitialSnapshot? by {
        assert s.channel.loop == StreamLoop.AtTop || s.channel.loop == StreamLoop.AtSelect;
      }
    } else {
      assert e.revision == s.client.last.value + 1;
    }
  }

  /** The reading a leaf rests on changes exactly when a reduction stamps the leaf. */
  lemma RestedAt(readAt: map<StateField, nat>, store: Reduction, revision: nat, t: nat, f: StateField)
    ensures RevisionOf(Rested(readAt, store, revision, t), f) ==
            if View(store, f).revision == revision then t else RevisionOf(readAt, f)
  {
  }

  /** An accepted envelope that asks for no refresh. */
  lemma QuietDeliveryTracks(s: System, f: StateField)
    requires StreamInvariant(s) && InFlight(s, f) && Bases(s, f) && s.wire != [] && Owner(f).None?
    requires Accepts(s.client, s.wire[0]) && !Signals(s.client, s.wire[0])
    requires Coming(s, f) || Fetched(s, f) || Learned(s, f)
    ensures var t := Delivered(s);
            Coming(t, f) || Fetched(t, f) || Learned(t, f)
  {
    hide StreamInvariant, Handled, Delivered, Reduce, Rested, Owner, EnvelopeKnown, EventKnown, Accepts, Signals,
      Touches,
      Fetched, Learned, Saw, Content, Tells;
    DeliveryFacts(s);
    HandlerFacts(s.client, s.wire[0]);
    AcceptedTells(s, f);
    if Coming(s, f) && ChangedAt(s, f) <= s.wire[0].revision {
      TellsSome(s.wire[0].payload, f);
      TellingLands(s, f);
    } else if !Coming(s, f) {
      OtherLands(s, f);
    }
  }

  /** The envelope tells of the leaf as it now is. */
  lemma TellingLands(s: System, f: StateField)
    requires Bases(s, f) && s.wire != [] && Owner(f).None? && Accepts(s.client, s.wire[0])
    requires EnvelopeKnown(s.world, s.wire[0], f) && Content(s.wire[0].payload).Some?
    requires Saw(s.world, Content(s.wire[0].payload).value, f, s.wire[0].builtAt)
    ensures Learned(Delivered(s), f)
  {
    hide Handled, Delivered, Reduce, Rested, Owner, EnvelopeKnown, Accepts, Signals, Touches, View, Agrees, Content,
      Carries;
    var e, t := s.wire[0], Delivered(s);
    DeliveryFacts(s);
    ContentDispatched(s.client, e);
    KnownBase(s.world, e, f);
    RestedAt(s.readAt, t.store, t.storeRevision, e.builtAt, f);
    SawSettles(s, Content(e.payload).value, f, e.builtAt);
  }

  /** The envelope says nothing of the leaf. */
  lemma OtherLands(s: System, f: StateField)
    requires Bases(s, f) && s.wire != [] && Owner(f).None? && Accepts(s.client, s.wire[0])
    requires EnvelopeKnown(s.world, s.wire[0], f)
    requires Content(s.wire[0].payload).Some? ==> !Touches(Content(s.wire[0].payload).value, f)
    ensures Fetched(s, f) ==> Fetched(Delivered(s), f)
    ensures Learned(s, f) ==> Learned(Delivered(s), f)
  {
    hide Handled, Delivered, Reduce, Rested, Owner, EnvelopeKnown, Accepts, Signals, Touches, View, Shows, Content, Saw;
    var e, t := s.wire[0], Delivered(s);
    DeliveryFacts(s);
    ContentDispatched(s.client, e);
    if Content(e.payload).Some? {
      KnownBase(s.world, e, f);
      RestedAt(s.readAt, t.store, t.storeRevision, e.builtAt, f);
      ReadingSettles(s.store, Content(e.payload).value, s.storeRevision + 1, f, s.world.device);
    }
  }

  lemma TellsSome(p: Payload, f: StateField)
    requires Tells(p, f)
    ensures Content(p).Some? && Touches(Content(p).value, f)
  {
  }

  lemma SawSettles(s: System, o: Observation, f: StateField, t: nat)
    requires o.base.None? && Owner(f).None? && Saw(s.world, o, f, t)
    ensures var leaf := View(Reduce(s.store, o, s.storeRevision + 1), f);
            leaf.revision == s.storeRevision + 1 && Agrees(leaf, f, DeviceAt(s.world, t))
  {
    hide Reduce, Owner;
    ReadingSettles(s.store, o, s.storeRevision + 1, f, DeviceAt(s.world, t));
  }

  lemma DeliverTracks(s: System, f: StateField)
    requires LeafInvariant(s, f) && s.wire != [] && Owner(f).None?
    ensures Tracked(Delivered(s), f)
  {
    hide StreamInvariant, InFlight, Bases, Steady, Handled, Delivered, Reduce, Rested, Owner, Accepts, Signals, Owed,
      Saw, Current, View, Agrees, Dispatched;
    var e, t := s.wire[0], Delivered(s);
    DeliveryFacts(s);
    HandlerFacts(s.client, e);
    if Accepts(s.client, e) && !Signals(s.client, e) && !Owed(s.client) && !s.missed {
      QuietDeliveryTracks(s, f);
    }
  }

  lemma EndPollTracks(s: System, f: StateField)
    requires LeafInvariant(s, f) && s.poll.Answered? && Owner(f).None?
    ensures Tracked(Next(s, EndPoll), f)
  {
    hide StreamInvariant, Reduce, Rested, Owner, Carries, View, Agrees, InFlight, Steady, Next;
    var t := Next(s, EndPoll);
    EndPollFacts(s);
    if Fetched(s, f) || Learned(s, f) {
      RestedAt(s.readAt, t.store, s.storeRevision + 1, s.poll.readAt, f);
      AnswerSettles(s.store, s.poll.reading, s.storeRevision + 1, f,
                    if LeafOf(s, f).revision <= s.poll.base then DeviceAt(s.world, s.poll.readAt) else s.world.device);
      assert Learned(t, f);
    }
  }

  lemma EndPollFacts(s: System)
    requires StreamInvariant(s) && s.poll.Answered?
    ensures var t := Next(s, EndPoll);
            && t.store == Reduce(s.store, s.poll.reading, s.storeRevision + 1) && t.poll == Idle
            && t.readAt == Rested(s.readAt, t.store, s.storeRevision + 1, s.poll.readAt)
            && t.world == s.world && t.missed == s.missed && t.client.last == s.client.last
            && (Owed(s.client) ==> Owed(t.client))
  {
    hide Reduce, Rested;
    AnsweringHolds(s);
    hide StreamInvariant;
  }

  lemma AnsweringHolds(s: System)
    requires StreamInvariant(s)
    ensures Answering(s)
  {
  }

  lemma ChangeTracks(s: System, a: Action, f: StateField)
    requires LeafInvariant(s, f) && Enabled(s, a) && a.Change?
    ensures Tracked(Next(s, a), f)
  {
    hide StreamInvariant, Bases, Steady, View, Next, Enabled, Owed;
    ChangeFacts(s, a, f);
    NothingAhead(s);
    if f !in a.touched {
      HistoryTracks(s, Next(s, a), f);
    }
    hide Succeeds, Fetched, Learned;
  }

  lemma DriftTracks(s: System, a: Action, f: StateField)
    requires LeafInvariant(s, f) && Enabled(s, a) && a.Drift?
    ensures Tracked(Next(s, a), f)
  {
    hide StreamInvariant, Bases, Steady, View, Next, Enabled, Owed;
    DriftFacts(s, a, f);
    HistoryTracks(s, Next(s, a), f);
    hide Succeeds, Fetched, Learned;
  }

  lemma ShowsOutlives(w: World, w': World, leaf: Leaf, f: StateField, t: nat)
    requires Succeeds(w, w', f) && Shows(w, leaf, f, t) && RevisionOf(w'.announced, f) == RevisionOf(w.announced, f)
    ensures Shows(w', leaf, f, t)
  {
    assert DeviceAt(w', t) == DeviceAt(w, t);
  }

  /** What was learned or will be fetched stays so across a change that announces nothing about the leaf. */
  lemma HistoryTracks(s: System, t: System, f: StateField)
    requires Succeeds(s.world, t.world, f) && RevisionOf(t.world.announced, f) == RevisionOf(s.world.announced, f)
    requires t.store == s.store && t.poll == s.poll && t.readAt == s.readAt
    ensures Fetched(s, f) ==> Fetched(t, f)
    ensures Learned(s, f) ==> Learned(t, f)
  {
    hide View, Saw, Shows, Succeeds, RevisionOf;
    ReadingOutlives(s, t, f);
    if Learned(s, f) {
      ShowsOutlives(s.world, t.world, LeafOf(s, f), f, ReadAt(s, f));
    }
  }

  lemma ReadingOutlives(s: System, t: System, f: StateField)
    requires Succeeds(s.world, t.world, f) && RevisionOf(t.world.announced, f) == RevisionOf(s.world.announced, f)
    ensures s.poll.Answered? && Saw(s.world, s.poll.reading, f, s.poll.readAt) ==>
              Saw(t.world, s.poll.reading, f, s.poll.readAt)
  {
    hide Saw, Succeeds, RevisionOf;
    if s.poll.Answered? && Saw(s.world, s.poll.reading, f, s.poll.readAt) {
      SawOutlives(s.world, t.world, s.poll.reading, f, s.poll.readAt);
    }
  }

  lemma LeafFacts(s: System, f: StateField)
    requires LeafInvariant(s, f)
    ensures StreamInvariant(s) && Answering(s) && Tracked(s, f) && Current(s.world, f, Clock(s.world))
    ensures LeafOf(s, f).revision <= s.storeRevision
  {
    AnsweringHolds(s);
    hide StreamInvariant, Steady, Tracked, Answering;
  }

  lemma OtherTracks(s: System, a: Action, f: StateField)
    requires LeafInvariant(s, f) && Enabled(s, a) && OnDevice(f)
    requires !a.Change? && !a.Drift? && a != Deliver && a != EndPoll
    ensures Tracked(Next(s, a), f)
  {
    hide LeafInvariant, Tracked, Next, Current, Answering;
    LeafFacts(s, f);
    if a == BeginPass {
      PassTracks(s, f);
    } else if a.BeginPoll? {
      BeginTracks(s, a.byRefresh, f);
    } else if a.AnswerPoll? {
      AnswerTracks(s, a.choice, f);
    } else if a == FailPoll {
      FailTracks(s, f);
    } else {
      StreamTracks(s, a, f);
    }
  }

  lemma PassTracks(s: System, f: StateField)
    requires Tracked(s, f) && s.client.task == Created
    ensures Tracked(Next(s, BeginPass), f)
  {
    hide Next;
    BeginPassIs(s);
  }

  lemma BeginTracks(s: System, byRefresh: bool, f: StateField)
    requires Tracked(s, f) && Enabled(s, BeginPoll(byRefresh)) && LeafOf(s, f).revision <= s.storeRevision
    ensures Tracked(Next(s, BeginPoll(byRefresh)), f)
  {
    hide Next, View, Shows;
    BeginPollIs(s, byRefresh);
  }

  lemma FailTracks(s: System, f: StateField)
    requires Tracked(s, f) && s.poll != Idle && Answering(s)
    ensures Tracked(Next(s, FailPoll), f)
  {
    hide Next, View, Shows;
    FailPollIs(s);
  }

  lemma StreamTracks(s: System, a: Action, f: StateField)
    requires Tracked(s, f) && Enabled(s, a)
    requires a == OpenStream || a.SendSnapshot? || a == AskForMarker || a.TakeEvent? || a == LoseStream
    ensures Tracked(Next(s, a), f)
  {
    hide Next, View, Shows, Saw;
    StreamStepIs(s, a);
  }

  /** The stream's own steps reach neither the store nor the polls. */
  lemma StreamStepIs(s: System, a: Action)
    requires Enabled(s, a)
    requires a == OpenStream || a.SendSnapshot? || a == AskForMarker || a.TakeEvent? || a == LoseStream
    ensures var t := Next(s, a);
            && t == s.(channel := t.channel, wire := t.wire, client := t.client, handled := t.handled)
            && (t.client == s.client || t.client == s.client.(last := None))
  {
    hide StreamLoop.Next, FirstEnvelope, Convert, PendingResync;
  }

  lemma FailPollIs(s: System)
    requires s.poll != Idle
    ensures Next(s, FailPoll) == s.(poll := Idle, client := AfterPoll(s), missed := s.missed || s.poll.atStake)
  {
  }

  lemma AnswerPollIs(s: System, choice: Choice)
    requires s.poll.Begun?
    ensures Next(s, AnswerPoll(choice)) ==
            s.(poll := Answered(s.poll.byRefresh, s.poll.atStake, s.poll.base,
                                FullReading(s.world.device, choice).(base := Some(s.poll.base)),
                                Clock(s.world)))
  {
    hide FullReading;
  }

  lemma BeginPollIs(s: System, byRefresh: bool)
    requires Enabled(s, BeginPoll(byRefresh))
    ensures Next(s, BeginPoll(byRefresh)) ==
            s.(poll := Begun(byRefresh, byRefresh || s.missed, s.storeRevision), missed := false, unanswered := false,
            client := if byRefresh then s.client.(task := Polling) else s.client)
  {
  }

  lemma EndPollIs(s: System)
    requires s.poll.Answered?
    ensures Next(s, EndPoll) == Transport.Store(s, s.poll.reading, s.poll.readAt).(poll := Idle, client := AfterPoll(s))
  {
    hide Transport.Store;
  }

  lemma BeginPassIs(s: System)
    requires s.client.task == Created
    ensures Next(s, BeginPass) == s.(client := PassBegins(s.client))
  {
  }

  lemma AnswerTracks(s: System, choice: Choice, f: StateField)
    requires Tracked(s, f) && s.poll.Begun? && OnDevice(f) && Current(s.world, f, Clock(s.world))
    ensures Tracked(Next(s, AnswerPoll(choice)), f)
  {
    AnswerSees(s.world, choice, s.poll.base, f);
    hide Next, View, Agrees, FullReading, Shows, Saw, Current;
    AnswerPollIs(s, choice);
  }

  /** A poll's answer is a reading of the present. */
  lemma AnswerSees(w: World, choice: Choice, base: nat, f: StateField)
    requires OnDevice(f) && Current(w, f, Clock(w))
    ensures Saw(w, FullReading(w.device, choice).(base := Some(base)), f, Clock(w))
  {
    hide Carries, FullReading;
    FullReadingCarries(w.device, choice, f);
    CarriesBase(FullReading(w.device, choice), base, f, w.device);
  }

  lemma CarriesBase(o: Observation, base: nat, f: StateField, device: map<StateField, int>)
    requires Carries(o, f, device)
    ensures Carries(o.(base := Some(base)), f, device)
  {
  }

  lemma StepKeepsLeaf(s: System, a: Action, f: StateField)
    requires LeafInvariant(s, f) && Enabled(s, a) && Followed(f)
    ensures LeafInvariant(Next(s, a), f)
  {
    hide StreamInvariant, Next, Enabled, InFlight, Bases, Tracked, Steady, Current, Owner;
    LeafFacts(s, f);
    StepKeepsStream(s, a);
    StepKeepsFlight(s, a, f);
    BasesStep(s, a, f);
    StepKeepsSteady(s, a, f);
    StepTracks(s, a, f);
  }

  lemma StepTracks(s: System, a: Action, f: StateField)
    requires LeafInvariant(s, f) && Enabled(s, a) && Followed(f)
    ensures Tracked(Next(s, a), f)
  {
    hide LeafInvariant, Next, Tracked, Owner;
    if a == Deliver {
      DeliverIs(s);
      DeliverTracks(s, f);
    } else if a == EndPoll {
      EndPollTracks(s, f);
    } else if a.Change? {
      ChangeTracks(s, a, f);
    } else if a.Drift? {
      DriftTracks(s, a, f);
    } else {
      OtherTracks(s, a, f);
    }
  }

  lemma DeliverIs(s: System)
    requires s.wire != []
    ensures Next(s, Deliver) == Delivered(s)
  {
  }

  lemma {:induction false} RunKeepsLeaf(s: System, actions: seq<Action>, f: StateField)
    requires LeafInvariant(s, f) && Runnable(s, actions) && Followed(f)
    ensures LeafInvariant(Run(s, actions), f)
    decreases |actions|
  {
    hide LeafInvariant, Next, Followed;
    if actions != [] {
      StepKeepsLeaf(s, actions[0], f);
      RunKeepsLeaf(Next(s, actions[0]), actions[1..], f);
    }
  }

  lemma StartIsTracked(ski: Ski, revision: nat, device: map<StateField, int>, f: StateField)
    requires ski != ""
    ensures LeafInvariant(Initially(ski, revision, device), f)
  {
    hide StreamInvariant, StreamLoop.Initially, Fetched, Learned, EventKnown, EnvelopeKnown, Steady, View;
    StartsSound(ski, revision, device);
    StartsSteady(device, f);
    assert View(Reduction(EMPTY_STATE, map[]), f).revision == 0 by { StartsUnread(f); }
  }

  lemma StartsUnread(f: StateField)
    ensures View(Reduction(EMPTY_STATE, map[]), f).revision == 0
  {
  }

  lemma StartsSteady(device: map<StateField, int>, f: StateField)
    ensures Steady(World(device, [], map[], map[], map[], map[]), f)
  {
  }

  lemma StartsSound(ski: Ski, revision: nat, device: map<StateField, int>)
    requires ski != ""
    ensures StreamInvariant(Initially(ski, revision, device))
    ensures StreamLoop.Initially(ski, revision).loop == StreamLoop.Down
  {
    hide StreamLoop.Ordered, StreamLoop.Conserved;
  }

  /** Nothing is left to happen by itself: quiescent, no refresh owed, no poll under way. */
  predicate Settled(s: System) {
    Quiescent(s) && !Owed(s.client) && s.poll == Idle
  }

  /** The device has changed the leaf without an announcement since the reading that the client's leaf rests on. */
  predicate Outdated(s: System, f: StateField) {
    RevisionOf(s.world.drifted, f) > ReadAt(s, f)
  }

  /**
    Eventual agreement, end to end. Over any run from any starting point, a settled client shows every
    followed leaf as the device had it at the reading the leaf rests on, and nothing about the leaf has
    been announced since. So it shows the device as it is exactly when that reading still holds, and
    this is so whenever the last unannounced change came before the reading. The one way out is that a
    refresh's poll failed and no poll has succeeded since.
   */
  lemma SettledClientAgrees(ski: Ski, revision: nat, device: map<StateField, int>, actions: seq<Action>, f: StateField)
    requires ski != "" && Runnable(Initially(ski, revision, device), actions) && Followed(f)
    ensures var s := Run(Initially(ski, revision, device), actions);
            Settled(s) && !s.missed ==>
              && Shows(s.world, View(s.store, f), f, ReadAt(s, f))
              && (Agrees(View(s.store, f), f, s.world.device) <==>
                  Lookup(DeviceAt(s.world, ReadAt(s, f)), f) == Lookup(s.world.device, f))
              && (!Outdated(s, f) ==> Agrees(View(s.store, f), f, s.world.device))
  {
    hide Next, Run, Runnable, Followed, Initially, LeafInvariant, Settled, Shows, Agrees;
    var start := Initially(ski, revision, device);
    StartIsTracked(ski, revision, device, f);
    RunKeepsLeaf(start, actions, f);
    LeafFacts(Run(start, actions), f);
    var s := Run(start, actions);
    if Settled(s) && !s.missed {
      SettledIsQuiescent(s);
      SettledIsAtTip(s);
      SettledShows(s, f);
    }
  }

  lemma SettledIsQuiescent(s: System)
    requires Settled(s)
    ensures Quiescent(s)
  {
  }

  lemma SettledIsAtTip(s: System)
    requires StreamInvariant(s) && Quiescent(s)
    ensures s.client.last == Some(s.channel.revision)
  {
    hide StreamLoop.Ordered, StreamLoop.Conserved, Accounted, Answering;
  }

  lemma SettledShows(s: System, f: StateField)
    requires LeafInvariant(s, f) && Settled(s) && !s.missed && s.client.last == Some(s.channel.revision)
    ensures Shows(s.world, View(s.store, f), f, ReadAt(s, f))
    ensures Agrees(View(s.store, f), f, s.world.device) <==>
            Lookup(DeviceAt(s.world, ReadAt(s, f)), f) == Lookup(s.world.device, f)
    ensures !Outdated(s, f) ==> Agrees(View(s.store, f), f, s.world.device)
  {
    hide StreamInvariant, Bases, EventKnown, EnvelopeKnown, Quiescent, View;
  }

  /** No step of the run changes the leaf without an announcement. */
  predicate Announced(actions: seq<Action>, f: StateField) {
    forall i :: 0 <= i < |actions| && actions[i].Drift? ==> f !in actions[i].touched
  }

  /** A leaf whose every change is announced agrees outright. */
  lemma AnnouncedLeafAgrees(ski: Ski, revision: nat, device: map<StateField, int>, actions: seq<Action>, f: StateField)
    requires ski != "" && Runnable(Initially(ski, revision, device), actions) && Followed(f)
    requires Announced(actions, f)
    ensures var s := Run(Initially(ski, revision, device), actions);
            Settled(s) && !s.missed ==> Agrees(View(s.store, f), f, s.world.device)
  {
    hide Next, Run, Runnable, Followed, Settled, Agrees, Shows;
    NeverDrifts(Initially(ski, revision, device), actions, f);
    SettledClientAgrees(ski, revision, device, actions, f);
  }

  lemma {:induction false} NeverDrifts(s: System, actions: seq<Action>, f: StateField)
    requires Runnable(s, actions) && Announced(actions, f)
    ensures RevisionOf(Run(s, actions).world.drifted, f) == RevisionOf(s.world.drifted, f)
    decreases |actions|
  {
    if actions != [] {
      StepDrifts(s, actions[0], f);
      hide Next;
      NeverDrifts(Next(s, actions[0]), actions[1..], f);
    }
  }

  lemma StepDrifts(s: System, a: Action, f: StateField)
    requires Enabled(s, a) && (a.Drift? ==> f !in a.touched)
    ensures RevisionOf(Next(s, a).world.drifted, f) == RevisionOf(s.world.drifted, f)
  {
    hide Reduce, Rested, Convert, FirstEnvelope, Handled, Delivered, Offer, Reading, FullReading, StreamLoop.Next;
    if a == Deliver {
      DeliveryFacts(s);
    }
  }

  /** An unannounced change goes unseen: it leaves a settled client settled, and showing the old value. */
  lemma DriftGoesUnseen(s: System, device: map<StateField, int>, touched: set<StateField>, f: StateField)
    requires Settled(s) && !s.missed && Agrees(View(s.store, f), f, s.world.device)
    requires Enabled(s, Drift(device, touched)) && Lookup(device, f) != Lookup(s.world.device, f)
    ensures var t := Next(s, Drift(device, touched));
            Settled(t) && !t.missed && t.store == s.store && !Agrees(View(t.store, f), f, t.world.device)
  {
    hide Stamp;
  }

  // ------------------------------------------------------------------ the settled state is always within reach

  /** No further change, no lost stream and no failed poll. */
  predicate Peaceful(actions: seq<Action>) {
    forall i :: 0 <= i < |actions| ==>
                  !actions[i].Change? && !actions[i].Drift? && actions[i] != LoseStream && actions[i] != FailPoll
  }

  /** What happens next when nothing new happens: polls finish, envelopes land, the loop drains its channel. */
  function NextToSettle(s: System): Action {
    if s.poll.Begun? then AnswerPoll(PLAIN)
    else if s.poll.Answered? then EndPoll
    else if s.client.task == Created then BeginPass
    else if s.client.task == Requested then BeginPoll(true)
    else if s.wire != [] then Deliver
    else
      match s.channel.loop
      case Down => OpenStream
      case Opening => SendSnapshot(true, PLAIN)
      case AtTop => AskForMarker
      case AtSelect => if s.channel.sub.buffer != [] then TakeEvent(PLAIN) else BeginPoll(false)
  }

  function LoopRank(s: System): nat {
    match s.channel.loop
    case Down => 3
    case Opening => 2
    case _ => 0
  }

  function TurnRank(s: System): nat {
    (if s.channel.sub.pendingDropped > 0 then 2 else 0) + (if s.channel.loop == StreamLoop.AtTop then 1 else 0)
  }

  /** The steps that the refresh task and the polls still have to take. */
  function PollRank(s: System): nat {
    (match s.poll case Idle => 0 case Begun(_, _, _) => 2 case Answered(_, _, _, _, _) => 1) +
    (match s.client.task case Created => 4 case Requested => 3 case _ => 0) +
    (if s.client.refreshPending && (s.client.task == Requested || s.client.task == Polling) then 3 else 0) +
    (if s.missed then 4 else 0)
  }

  /** The rank that every step towards rest lowers. */
  ghost predicate Lowers(s: System, t: System) {
    (LoopRank(s), |s.channel.sub.buffer|, TurnRank(s), |s.wire|, PollRank(s)
    decreases to
    LoopRank(t), |t.channel.sub.buffer|, TurnRank(t), |t.wire|, PollRank(t))
  }

  lemma NextToSettleProgresses(s: System)
    requires StreamInvariant(s) && !(Settled(s) && !s.missed)
    ensures var a := NextToSettle(s);
            Enabled(s, a) && Peaceful([a]) && Lowers(s, Next(s, a))
  {
    var a := NextToSettle(s);
    if s.poll != Idle || s.client.task == Created || s.client.task == Requested {
      PollProgresses(s);
    } else if s.wire != [] {
      DeliveryProgresses(s);
    } else {
      hide Next;
      LoopProgresses(s);
    }
    hide StreamInvariant, Next, Lowers;
  }

  lemma PollProgresses(s: System)
    requires StreamInvariant(s) && (s.poll != Idle || s.client.task == Created || s.client.task == Requested)
    ensures var a := NextToSettle(s);
            Enabled(s, a) && !a.Change? && !a.Drift? && Lowers(s, Next(s, a))
  {
    AnsweringHolds(s);
    hide StreamInvariant, Next, Lowers, PollRank;
    if s.poll.Begun? {
      AnswerProgresses(s);
    } else if s.poll.Answered? {
      EndProgresses(s);
    } else if s.client.task == Created {
      PassProgresses(s);
    } else {
      BeginProgresses(s);
    }
  }

  lemma AnswerProgresses(s: System)
    requires s.poll.Begun?
    ensures Lowers(s, Next(s, AnswerPoll(PLAIN)))
  {
    hide Next, Lowers, FullReading;
    AnswerPollIs(s, PLAIN);
    PollStepLowers(s, Next(s, AnswerPoll(PLAIN)));
  }

  lemma EndProgresses(s: System)
    requires s.poll.Answered? && Answering(s)
    ensures Lowers(s, Next(s, EndPoll))
  {
    hide Next, Lowers, Reduce, Rested;
    EndPollIs(s);
    PollStepLowers(s, Next(s, EndPoll));
  }

  lemma PassProgresses(s: System)
    requires s.client.task == Created
    ensures Lowers(s, Next(s, BeginPass))
  {
    hide Next, Lowers;
    BeginPassIs(s);
    PollStepLowers(s, Next(s, BeginPass));
  }

  lemma BeginProgresses(s: System)
    requires s.poll == Idle && (s.client.task == Requested || (s.missed && s.client.task == NoTask))
    ensures Lowers(s, Next(s, BeginPoll(s.client.task == Requested)))
  {
    hide Next, Lowers;
    var byRefresh := s.client.task == Requested;
    BeginPollIs(s, byRefresh);
    PollStepLowers(s, Next(s, BeginPoll(byRefresh)));
  }

  lemma PollStepLowers(s: System, t: System)
    requires t.channel == s.channel && t.wire == s.wire && PollRank(t) < PollRank(s)
    ensures Lowers(s, t)
  {
    hide PollRank;
  }

  lemma DeliveryProgresses(s: System)
    requires s.wire != []
    ensures Lowers(s, Next(s, Deliver))
  {
    DeliverIs(s);
    DeliveryFacts(s);
    hide Next, Delivered, Handled, PollRank;
  }

  lemma LoopProgresses(s: System)
    requires StreamInvariant(s) && !(Settled(s) && !s.missed)
    requires s.poll == Idle && s.wire == [] && s.client.task != Created && s.client.task != Requested
    ensures var a := NextToSettle(s);
            Enabled(s, a) && !a.Change? && !a.Drift? && Lowers(s, Next(s, a))
  {
    AnsweringHolds(s);
    if NextToSettle(s) == BeginPoll(false) {
      hide Next, Lowers, StreamLoop.Ordered, StreamLoop.Conserved, TipArrives, Accounted;
      BeginProgresses(s);
    } else {
      hide Reduce, Rested, Stamp, Delivered, Handled, Reading, FullReading, Convert, FirstEnvelope, OnlyTouches,
        PollRank,
        TipArrives, Accounted, Answering, FirstThingsFirst;
    }
  }

  /** From every reachable state there is a peaceful way to a settled client that missed nothing. */
  lemma {:induction false} CanSettle(s: System) returns (actions: seq<Action>)
    requires StreamInvariant(s)
    ensures Runnable(s, actions) && Peaceful(actions)
    ensures Settled(Run(s, actions)) && !Run(s, actions).missed
    decreases LoopRank(s), |s.channel.sub.buffer|, TurnRank(s), |s.wire|, PollRank(s)
  {
    hide StreamInvariant, Next, NextToSettle, LoopRank, TurnRank, PollRank, Settled, Enabled;
    if Settled(s) && !s.missed {
      return [];
    }
    NextToSettleProgresses(s);
    var a := NextToSettle(s);
    StepKeepsStream(s, a);
    var rest := CanSettle(Next(s, a));
    actions := [a] + rest;
    assert actions[1..] == rest;
  }

  lemma {:induction false} RunConcat(s: System, first: seq<Action>, second: seq<Action>)
    requires Runnable(s, first) && Runnable(Run(s, first), second)
    ensures Runnable(s, first + second) && Run(s, first + second) == Run(Run(s, first), second)
    decreases |first|
  {
    hide Next, Enabled;
    if first == [] {
      assert first + second == second;
    } else {
      RunConcat(Next(s, first[0]), first[1..], second);
      assert (first + second)[1..] == first[1..] + second;
    }
  }

  const SCHEDULED_POLL := [BeginPoll(false), AnswerPoll(PLAIN), EndPoll]

  /** A scheduled poll brings a settled client up to date on every followed leaf, announced or not. */
  lemma ScheduledPollUpdates(s: System, f: StateField)
    requires LeafInvariant(s, f) && Settled(s) && Followed(f)
    ensures Runnable(s, SCHEDULED_POLL) && Peaceful(SCHEDULED_POLL)
    ensures var t := Run(s, SCHEDULED_POLL);
            Settled(t) && !t.missed && Agrees(View(t.store, f), f, t.world.device)
  {
    hide Runnable, Run, Peaceful, Followed, LeafInvariant, Settled, Agrees, View;
    ScheduledPollRuns(s);
    ScheduledPollIsPeaceful();
    PollSettlesLeaf(s, f);
  }

  lemma ScheduledPollIsPeaceful()
    ensures Peaceful(SCHEDULED_POLL)
  {
  }

  lemma PollSettlesLeaf(s: System, f: StateField)
    requires LeafInvariant(s, f) && Followed(f)
    ensures Agrees(View(Reduce(s.store, PolledNow(s), s.storeRevision + 1), f), f, s.world.device)
  {
    hide LeafInvariant, Reduce, FullReading, View, Agrees, Owner, Carries;
    LeafFacts(s, f);
    FullReadingCarries(s.world.device, PLAIN, f);
    CarriesBase(FullReading(s.world.device, PLAIN), s.storeRevision, f, s.world.device);
    AnswerSettles(s.store, PolledNow(s), s.storeRevision + 1, f, s.world.device);
  }

  function PolledNow(s: System): Observation {
    FullReading(s.world.device, PLAIN).(base := Some(s.storeRevision))
  }

  lemma ScheduledPollRuns(s: System)
    requires Settled(s)
    ensures Runnable(s, SCHEDULED_POLL)
    ensures var t := Run(s, SCHEDULED_POLL);
            && Settled(t) && !t.missed && t.world == s.world
            && t.store == Reduce(s.store, PolledNow(s), s.storeRevision + 1)
  {
    hide Next, Runnable, Run, Reduce, Rested, FullReading, Quiescent;
    BeginPollIs(s, false);
    var s1 := Next(s, BeginPoll(false));
    AnswerPollIs(s1, PLAIN);
    var s2 := Next(s1, AnswerPoll(PLAIN));
    EndPollIs(s2);
    var s3 := Next(s2, EndPoll);
    QuietTogether(s, s3);
    ThreeRun(s, BeginPoll(false), AnswerPoll(PLAIN), EndPoll);
  }

  lemma QuietTogether(s: System, t: System)
    requires t.channel == s.channel && t.wire == s.wire
    ensures Quiescent(t) == Quiescent(s)
  {
  }

  lemma ThreeRun(s: System, a: Action, b: Action, c: Action)
    requires Enabled(s, a) && Enabled(Next(s, a), b) && Enabled(Next(Next(s, a), b), c)
    ensures Runnable(s, [a, b, c]) && Run(s, [a, b, c]) == Next(Next(Next(s, a), b), c)
  {
    hide Next, Enabled;
    assert [a, b, c][1..] == [b, c] && [b, c][1..] == [c];
    RunLast(Next(Next(s, a), b), [c]);
    RunFirst(Next(s, a), [b, c]);
    RunFirst(s, [a, b, c]);
  }

  /** Every run can be continued, without any further change, until the client agrees with the device. */
  lemma EveryRunCanAgree(ski: Ski, revision: nat, device: map<StateField, int>, actions: seq<Action>, f: StateField)
    returns (more: seq<Action>)
    requires ski != "" && Runnable(Initially(ski, revision, device), actions) && Followed(f)
    ensures Peaceful(more) && Runnable(Initially(ski, revision, device), actions + more)
    ensures var s := Run(Initially(ski, revision, device), actions + more);
            Settled(s) && Agrees(View(s.store, f), f, s.world.device)
  {
    hide Next, Run, Runnable, Followed, StreamInvariant, InFlight, Steady, Bases, Tracked, Settled, Agrees, Initially;
    var start := Initially(ski, revision, device);
    StartIsTracked(ski, revision, device, f);
    RunKeepsLeaf(start, actions, f);
    var quiet := CanSettle(Run(start, actions));
    RunConcat(start, actions, quiet);
    RunKeepsLeaf(start, actions + quiet, f);
    ScheduledPollUpdates(Run(start, actions + quiet), f);
    RunConcat(start, actions + quiet, SCHEDULED_POLL);
    more := quiet + SCHEDULED_POLL;
    assert actions + more == actions + quiet + SCHEDULED_POLL;
  }

  /**
    A failed poll is the way out, and it is real: the bridge cannot build the first snapshot, the poll
    that its resync asks for fails, and the settled client never learns the value the device has.
   */
  lemma FailedPollLosesRefresh()
    ensures var start := Initially("A", 1, map[PowerWatts := 5]);
            var run := [OpenStream, SendSnapshot(false, PLAIN), AskForMarker, Deliver, BeginPass, BeginPoll(true),
                        FailPoll];
            && Runnable(start, run)
            && var s := Run(start, run);
            Settled(s) && s.missed && !Agrees(View(s.store, PowerWatts), PowerWatts, s.world.device)
  {
    var s0 := Initially("A", 1, map[PowerWatts := 5]);
    var first := [OpenStream, SendSnapshot(false, PLAIN), AskForMarker, Deliver];
    var last := [BeginPass, BeginPoll(true), FailPoll];
    ResyncArrives();
    FailedRefresh(Run(s0, first));
    RunConcat(s0, first, last);
    assert first + last == [OpenStream, SendSnapshot(false, PLAIN), AskForMarker, Deliver, BeginPass, BeginPoll(true),
                            FailPoll];
  }

  /** The system once the resync that stands for the first snapshot has arrived. */
  function Resynced(): System {
    Initially("A", 1, map[PowerWatts := 5]).(
    channel := StreamLoop.Channel("A", 1, NewSubscriber("A"), StreamLoop.AtSelect, 1, [], [], 1),
    client := Client("A", Some(1), false, Created),
    signalledAt := 1, signalRevision := 1, unanswered := true)
  }

  lemma ResyncArrives()
    ensures var start := Initially("A", 1, map[PowerWatts := 5]);
            var run := [OpenStream, SendSnapshot(false, PLAIN), AskForMarker, Deliver];
            Runnable(start, run) && Run(start, run) == Resynced()
  {
    var run := [OpenStream, SendSnapshot(false, PLAIN), AskForMarker, Deliver];
    var s0 := Initially("A", 1, map[PowerWatts := 5]);
    var s2 := SnapshotFails();
    var s3 := MarkerArrives(s2);
    hide Next, Enabled, Initially, Resynced;
    RunLast(s3, run[3..]);
    RunFirst(s2, run[2..]);
    RunFirst(Next(s0, OpenStream), run[1..]);
    RunFirst(s0, run);
  }

  lemma MarkerArrives(s2: System) returns (s3: System)
    requires s2 == Initially("A", 1, map[PowerWatts := 5]).(
                   channel := StreamLoop.Channel("A", 1, NewSubscriber("A"), StreamLoop.AtTop, 1, [], [], 1),
                   wire := [Envelope("A", 1, Resync, 0)])
    ensures Enabled(s2, AskForMarker) && s3 == Next(s2, AskForMarker)
    ensures Enabled(s3, Deliver) && Next(s3, Deliver) == Resynced()
  {
    hide Reduce, Rested;
    s3 := Next(s2, AskForMarker);
    DeliverIs(s3);
    assert Delivered(s3).wire == [];
  }

  lemma SnapshotFails() returns (s2: System)
    ensures var s0 := Initially("A", 1, map[PowerWatts := 5]);
            && Enabled(s0, OpenStream) && Enabled(Next(s0, OpenStream), SendSnapshot(false, PLAIN))
            && s2 == Next(Next(s0, OpenStream), SendSnapshot(false, PLAIN))
            && s2 == s0.(channel := StreamLoop.Channel("A", 1, NewSubscriber("A"), StreamLoop.AtTop, 1, [], [], 1),
                     wire := [Envelope("A", 1, Resync, 0)])
  {
    hide Reduce;
    s2 := Next(Next(Initially("A", 1, map[PowerWatts := 5]), OpenStream), SendSnapshot(false, PLAIN));
    assert s2.wire == [Envelope("A", 1, Resync, 0)];
  }

  /**
    A leaf that only polls read: its change between two polls reaches no one, and the settled client goes
    on showing the old value as fresh.
   */
  lemma UnannouncedChangeGoesUnseen()
    ensures var start := Initially("A", 1, map[CompressorTemperature := 40]);
            var drift := Drift(map[CompressorTemperature := 60], {CompressorTemperature});
            var run := [OpenStream, SendSnapshot(true, PLAIN), AskForMarker, Deliver] + [drift];
            && Runnable(start, run)
            && var s := Run(start, run);
            && Settled(s) && !s.missed
            && View(s.store, CompressorTemperature).isFresh
            && View(s.store, CompressorTemperature).value == Some(40)
            && Lookup(s.world.device, CompressorTemperature) == Some(60)
  {
    var start := Initially("A", 1, map[CompressorTemperature := 40]);
    var first := [OpenStream, SendSnapshot(true, PLAIN), AskForMarker, Deliver];
    var drift := Drift(map[CompressorTemperature := 60], {CompressorTemperature});
    SnapshotArrives();
    AnnouncedLeafAgrees("A", 1, map[CompressorTemperature := 40], first, CompressorTemperature);
    hide Initially, Run, Runnable, Settled, View;
    var s := Run(start, first);
    DriftRuns(s, drift);
    RunConcat(start, first, [drift]);
  }

  lemma DriftRuns(s: System, drift: Action)
    requires Settled(s) && drift.Drift? && Enabled(s, drift)
    ensures Runnable(s, [drift])
    ensures var t := Run(s, [drift]);
            Settled(t) && t.missed == s.missed && t.store == s.store && t.world.device == drift.device
  {
    hide Stamp, OnlyTouches;
    RunLast(s, [drift]);
  }

  lemma SnapshotArrives()
    ensures var start := Initially("A", 1, map[CompressorTemperature := 40]);
            var run := [OpenStream, SendSnapshot(true, PLAIN), AskForMarker, Deliver];
            && Runnable(start, run)
            && Settled(Run(start, run)) && !Run(start, run).missed && Run(start, run).world == start.world
  {
    hide Next, Enabled, Runnable, Run, Initially, Settled;
    var s0 := Initially("A", 1, map[CompressorTemperature := 40]);
    var s3 := SnapshotSent();
    SnapshotLands(s3);
    RunLast(s3, [Deliver]);
    ThreeRun(s0, OpenStream, SendSnapshot(true, PLAIN), AskForMarker);
    RunConcat(s0, [OpenStream, SendSnapshot(true, PLAIN), AskForMarker], [Deliver]);
    assert [OpenStream, SendSnapshot(true, PLAIN), AskForMarker] + [Deliver] ==
           [OpenStream, SendSnapshot(true, PLAIN), AskForMarker, Deliver];
  }

  lemma SnapshotSent() returns (s3: System)
    ensures var s0 := Initially("A", 1, map[CompressorTemperature := 40]);
            var s1 := Next(s0, OpenStream);
            && Enabled(s0, OpenStream) && Enabled(s1, SendSnapshot(true, PLAIN))
            && Enabled(Next(s1, SendSnapshot(true, PLAIN)), AskForMarker)
            && s3 == Next(Next(s1, SendSnapshot(true, PLAIN)), AskForMarker)
            && s3.channel == StreamLoop.Channel("A", 1, NewSubscriber("A"), StreamLoop.AtSelect, 1, [], [], 1)
            && |s3.wire| == 1 && s3.wire[0].ski == "A" && s3.wire[0].revision == 1
            && s3.wire[0].payload.InitialSnapshot?
            && s3.wire[0].payload.snapshot == FullReading(s0.world.device, PLAIN)
            && s3.store == s0.store && s3.storeRevision == 0
            && s3.client == Client("A", None, false, NoTask) && s3.poll == Idle && !s3.missed && s3.world == s0.world
  {
    hide Reduce, Rested, FullReading;
    var s1 := Next(Initially("A", 1, map[CompressorTemperature := 40]), OpenStream);
    s3 := Next(Next(s1, SendSnapshot(true, PLAIN)), AskForMarker);
    assert s3.wire == [FirstEnvelope(s1, true, PLAIN)];
  }

  lemma SnapshotLands(s: System)
    requires s.channel == StreamLoop.Channel("A", 1, NewSubscriber("A"), StreamLoop.AtSelect, 1, [], [], 1)
    requires |s.wire| == 1 && s.wire[0].ski == "A" && s.wire[0].revision == 1 && s.wire[0].payload.InitialSnapshot?
    requires s.client == Client("A", None, false, NoTask) && s.poll == Idle && !s.missed
    ensures Enabled(s, Deliver)
    ensures var t := Next(s, Deliver); Settled(t) && !t.missed && t.world == s.world
  {
    hide Reduce, Rested, Delivered;
    DeliverIs(s);
    DeliveryFacts(s);
    hide Next;
    assert Delivered(s).wire == [];
  }

  /**
    A later poll is no remedy by itself: one that began before the snapshot landed is overruled by it, even
    though it read the device after the change and the snapshot before. What counts is the reading that the
    leaf rests on.
   */
  lemma LatestPollIsOverruled() returns (run: seq<Action>)
    ensures var start := Initially("A", 1, map[CompressorTemperature := 40]);
            && run == [OpenStream, SendSnapshot(true, PLAIN), AskForMarker] +
                      [BeginPoll(false), Drift(map[CompressorTemperature := 60], {CompressorTemperature}),
                       AnswerPoll(PLAIN)] +
                      [Deliver, EndPoll]
            && Runnable(start, run)
            && var s := Run(start, run);
            && Settled(s) && !s.missed
            && View(s.store, CompressorTemperature).value == Some(40)
            && Lookup(s.world.device, CompressorTemperature) == Some(60)
  {
    hide Next, Enabled, Runnable, Run, Initially, Settled, View;
    var start := Initially("A", 1, map[CompressorTemperature := 40]);
    assert start.world.device == map[CompressorTemperature := 40] by { StartsFrom("A", 1,
                                                                                  map[CompressorTemperature := 40]); }
    var drift := Drift(map[CompressorTemperature := 60], {CompressorTemperature});
    var first, polled, landed :=
      [OpenStream, SendSnapshot(true, PLAIN), AskForMarker], [BeginPoll(false), drift, AnswerPoll(PLAIN)], [Deliver,
                                                                                                            EndPoll];
    var s3 := SnapshotSent();
    ThreeRun(start, OpenStream, SendSnapshot(true, PLAIN), AskForMarker);
    assert View(s3.store, CompressorTemperature).revision == 0 by {
      StartsFrom("A", 1, map[CompressorTemperature := 40]);
      StartsUnread(CompressorTemperature);
    }
    DriftPossible(s3, drift);
    var s6 := DriftDuringPoll(s3, drift);
    ThreeRun(s3, BeginPoll(false), drift, AnswerPoll(PLAIN));
    RunConcat(start, first, polled);
    var s8 := SnapshotOverrules(s6, CompressorTemperature, s3.world.device);
    TwoRun(s6, Deliver, EndPoll);
    RunConcat(start, first + polled, landed);
    run := first + polled + landed;
  }

  lemma DriftPossible(s: System, drift: Action)
    requires drift.Drift? && OnlyTouches(s.world, drift.device, drift.touched)
    ensures Enabled(s, drift)
  {
  }

  lemma StartsFrom(ski: Ski, revision: nat, device: map<StateField, int>)
    ensures var s := Initially(ski, revision, device);
            s.world == World(device, [], map[], map[], map[], map[]) && s.store == Reduction(EMPTY_STATE, map[])
            && s.storeRevision == 0
  {
  }

  lemma DriftDuringPoll(s: System, drift: Action) returns (t: System)
    requires s.poll == Idle && !s.missed && drift.Drift? && Enabled(s, drift)
    ensures Enabled(s, BeginPoll(false)) && Enabled(Next(s, BeginPoll(false)), drift)
    ensures Enabled(Next(Next(s, BeginPoll(false)), drift), AnswerPoll(PLAIN))
    ensures t == Next(Next(Next(s, BeginPoll(false)), drift), AnswerPoll(PLAIN))
    ensures t == s.(world := t.world, poll := t.poll, unanswered := false) && t.world.device == drift.device
    ensures t.poll == Answered(false, false, s.storeRevision,
                               FullReading(drift.device, PLAIN).(base := Some(s.storeRevision)), Clock(t.world))
  {
    hide FullReading, Stamp, OnlyTouches;
    BeginPollIs(s, false);
    var s1 := Next(s, BeginPoll(false));
    var s2 := Next(s1, drift);
    AnswerPollIs(s2, PLAIN);
    t := Next(s2, AnswerPoll(PLAIN));
  }

  /** A snapshot lands on a poll that is on its way back. */
  lemma SnapshotOverrules(s: System, f: StateField, device: map<StateField, int>) returns (t: System)
    requires s.channel == StreamLoop.Channel("A", 1, NewSubscriber("A"), StreamLoop.AtSelect, 1, [], [], 1)
    requires |s.wire| == 1 && s.wire[0].ski == "A" && s.wire[0].revision == 1 && s.wire[0].payload.InitialSnapshot?
    requires s.wire[0].payload.snapshot == FullReading(device, PLAIN) && Followed(f)
    requires s.client == Client("A", None, false, NoTask) && !s.missed && View(s.store, f).revision == 0
             && s.storeRevision == 0
    requires s.poll.Answered? && !s.poll.byRefresh && s.poll.base == 0 && s.poll.reading.base == Some(0)
    ensures Enabled(s, Deliver) && Enabled(Next(s, Deliver), EndPoll) && t == Next(Next(s, Deliver), EndPoll)
    ensures Settled(t) && !t.missed && t.world == s.world && Agrees(View(t.store, f), f, device)
  {
    hide Reduce, Rested, Delivered, FullReading, View, Owner, Agrees, Carries, Touches;
    FullReadingCarries(device, PLAIN, f);
    DeliverIs(s);
    DeliveryFacts(s);
    ReadingSettles(s.store, FullReading(device, PLAIN), 1, f, device);
    var s1 := Next(s, Deliver);
    assert Delivered(s).wire == [];
    EndPollIs(s1);
    AnswerSettles(s1.store, s1.poll.reading, 2, f, device);
    hide Next;
    t := Next(s1, EndPoll);
  }

  lemma TwoRun(s: System, a: Action, b: Action)
    requires Enabled(s, a) && Enabled(Next(s, a), b)
    ensures Runnable(s, [a, b]) && Run(s, [a, b]) == Next(Next(s, a), b)
  {
    hide Next, Enabled;
    assert [a, b][1..] == [b];
    RunLast(Next(s, a), [b]);
    RunFirst(s, [a, b]);
  }

  lemma FailedRefresh(s: System)
    requires s.client.task == Created && s.poll == Idle
    ensures var run := [BeginPass, BeginPoll(true), FailPoll];
            && Runnable(s, run)
            && Run(s, run) == s.(client := s.client.(task := NoTask, refreshPending := false),
                              missed := true, unanswered := false)
  {
    hide Reduce, StreamLoop.Next;
    var run := [BeginPass, BeginPoll(true), FailPoll];
    var s1 := Next(s, BeginPass);
    var s2 := Next(s1, BeginPoll(true));
    var s3 := Next(s2, FailPoll);
    assert s3 == s.(client := s.client.(task := NoTask, refreshPending := false), missed := true, unanswered := false);
    hide Next;
    RunLast(s2, run[2..]);
    RunFirst(s1, run[1..]);
    RunFirst(s, run);
  }

  lemma RunFirst(s: System, actions: seq<Action>)
    requires actions != [] && Enabled(s, actions[0]) && Runnable(Next(s, actions[0]), actions[1..])
    ensures Runnable(s, actions) && Run(s, actions) == Run(Next(s, actions[0]), actions[1..])
  {
    hide Next, Enabled;
  }

  lemma RunLast(s: System, actions: seq<Action>)
    requires |actions| == 1 && Enabled(s, actions[0])
    ensures Runnable(s, actions) && Run(s, actions) == Next(s, actions[0])
  {
    hide Next, Enabled;
  }
}
