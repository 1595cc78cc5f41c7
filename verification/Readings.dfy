/**
  What a leaf of the client's store rests on: in every reachable state, settled or not and whatever polls
  have failed, each reading under way is true of its own instant, and each leaf shows the device as it was
  at the reading the leaf rests on.
 */
module Readings {
  import opened Common
  import opened State
  import EventBus
  import StreamLoop
  import opened DeviceStreams
  import opened Transport
  import opened Convergence
  import Reducer

  /** A reading that is true of the instant at which it was taken. */
  predicate TrueThen(w: World, o: Observation, f: StateField, t: nat) {
    t <= Clock(w) && Carries(o, f, DeviceAt(w, t))
  }

  /** An envelope carries a reading that is true of its instant, or nothing. */
  predicate EnvelopeTrue(w: World, e: Envelope, f: StateField) {
    && (Content(e.payload).Some? ==> Content(e.payload).value.base == None)
    && (Content(e.payload).Some? && Touches(Content(e.payload).value, f) ==>
          TrueThen(w, Content(e.payload).value, f, e.builtAt))
  }

  /** A leaf never read is empty; an unowned one shows its reading, an owned one at least when it is fresh. */
  predicate LeafTrue(w: World, leaf: Leaf, f: StateField, t: nat) {
    && (leaf.revision == 0 ==> leaf == Leaf(None, false, 0))
    && (leaf.revision > 0 && Owner(f).None? ==> t <= Clock(w) && Agrees(leaf, f, DeviceAt(w, t)))
    && (leaf.isFresh ==> t <= Clock(w) && f in DeviceAt(w, t) && leaf.value == Lookup(DeviceAt(w, t), f))
  }

  predicate Truthful(s: System, f: StateField) {
    && Bases(s, f)
    && (forall i :: 0 <= i < |s.wire| ==> EnvelopeTrue(s.world, s.wire[i], f))
    && (s.poll.Answered? ==> TrueThen(s.world, s.poll.reading, f, s.poll.readAt))
    && LeafTrue(s.world, LeafOf(s, f), f, ReadAt(s, f))
  }

  // ------------------------------------------------------------------ connection events

  /** A connection event that was true of the device right after the change that published it. */
  predicate EventTrue(w: World, top: nat, e: EventBus.Event) {
    e.kind.ConnectionChanged? ==>
      && e.revision <= top && e.revision in w.since && w.since[e.revision] <= Clock(w)
      && Lookup(DeviceAt(w, w.since[e.revision]), Connected) == Some(if e.kind.connected then 1 else 0)
  }

  /** The same of its envelope, which rests on that instant. */
  predicate ReportTrue(w: World, top: nat, e: Envelope) {
    e.payload.Connection? ==>
      && e.revision <= top && e.revision in w.since && e.builtAt == w.since[e.revision] && e.builtAt <= Clock(w)
      && Lookup(DeviceAt(w, e.builtAt), Connected) == Some(if e.payload.connected then 1 else 0)
  }

  predicate Reported(s: System) {
    && (s.channel.loop != StreamLoop.Down ==>
          forall i :: 0 <= i < |s.channel.sub.buffer| ==>
                        EventTrue(s.world, s.channel.revision, s.channel.sub.buffer[i]))
    && forall i :: 0 <= i < |s.wire| ==> ReportTrue(s.world, s.channel.revision, s.wire[i])
  }

  /** Later changes do not touch what was published. */
  predicate Preserves(w: World, w': World, top: nat, top': nat) {
    && w'.past == w.past + [w.device] && top <= top'
    && (forall r | r <= top && r in w.since :: r in w'.since && w'.since[r] == w.since[r])
  }

  lemma EventTrueOutlives(w: World, w': World, top: nat, top': nat, e: EventBus.Event)
    requires Preserves(w, w', top, top') && EventTrue(w, top, e)
    ensures EventTrue(w', top', e)
  {
    if e.kind.ConnectionChanged? {
      assert DeviceAt(w', w.since[e.revision]) == DeviceAt(w, w.since[e.revision]);
    }
  }

  lemma ReportTrueOutlives(w: World, w': World, top: nat, top': nat, e: Envelope)
    requires Preserves(w, w', top, top') && ReportTrue(w, top, e)
    ensures ReportTrue(w', top', e)
  {
    if e.payload.Connection? {
      assert DeviceAt(w', e.builtAt) == DeviceAt(w, e.builtAt);
    }
  }

  lemma ChangeReports(s: System, a: Action)
    requires Reported(s) && Enabled(s, a) && a.Change?
    ensures Reported(Next(s, a))
  {
    NewEventTrue(s, a);
    ChangeIs(s, a);
    hide Next, Enabled, EventTrue, ReportTrue, StreamLoop.Next, StreamLoop.NewEvent, Changed;
    var t := Next(s, a);
    ChannelPublishes(s.channel, a.kind);
    ChangePreserves(s, a);
    forall i | 0 <= i < |t.wire| ensures ReportTrue(t.world, t.channel.revision, t.wire[i]) {
      ReportTrueOutlives(s.world, t.world, s.channel.revision, t.channel.revision, s.wire[i]);
    }
    if s.channel.loop != StreamLoop.Down {
      forall i | 0 <= i < |s.channel.sub.buffer|
        ensures EventTrue(t.world, t.channel.revision, s.channel.sub.buffer[i])
      {
        EventTrueOutlives(s.world, t.world, s.channel.revision, t.channel.revision, s.channel.sub.buffer[i]);
      }
    }
  }

  lemma NewEventTrue(s: System, a: Action)
    requires Enabled(s, a) && a.Change?
    ensures var t := Changed(s.world, a.device, a.touched, s.channel.revision + 1);
            EventTrue(t, s.channel.revision + 1, StreamLoop.NewEvent(s.channel, a.kind))
  {
    hide Stamp, OnlyTouches;
  }

  lemma ChangePreserves(s: System, a: Action)
    requires a.Change?
    ensures Preserves(s.world, Changed(s.world, a.device, a.touched, s.channel.revision + 1),
                      s.channel.revision, s.channel.revision + 1)
  {
    hide Stamp;
  }

  lemma DriftReports(s: System, a: Action)
    requires Reported(s) && Enabled(s, a) && a.Drift?
    ensures Reported(Next(s, a))
  {
    hide EventTrue, ReportTrue, Stamp, OnlyTouches;
    var t := Next(s, a);
    forall i | 0 <= i < |t.wire| ensures ReportTrue(t.world, t.channel.revision, t.wire[i]) {
      ReportTrueOutlives(s.world, t.world, s.channel.revision, t.channel.revision, s.wire[i]);
    }
    if s.channel.loop != StreamLoop.Down {
      forall i | 0 <= i < |t.channel.sub.buffer|
        ensures EventTrue(t.world, t.channel.revision, t.channel.sub.buffer[i])
      {
        EventTrueOutlives(s.world, t.world, s.channel.revision, t.channel.revision, s.channel.sub.buffer[i]);
      }
    }
  }

  lemma ConversionReports(w: World, top: nat, e: EventBus.Event, choice: Choice)
    requires EventTrue(w, top, e)
    ensures ReportTrue(w, top, Convert(w, e, choice))
  {
    hide Reading;
  }

  lemma OthersReport(s: System, built: bool, choice: Choice)
    ensures ReportTrue(s.world, s.channel.revision, FirstEnvelope(s, built, choice))
    ensures var marker := EventBus.PendingResync(s.channel.sub, s.channel.revision);
            marker.Some? ==> ReportTrue(s.world, s.channel.revision, Convert(s.world, marker.value, choice))
  {
    hide FullReading, Reading;
  }

  lemma StreamReports(s: System, a: Action)
    requires Reported(s) && Enabled(s, a)
    requires a == OpenStream || a.SendSnapshot? || a == AskForMarker || a.TakeEvent? || a == LoseStream
    ensures Reported(Next(s, a))
  {
    hide EventTrue, ReportTrue, Convert, FirstEnvelope;
    match a
    case SendSnapshot(built, choice) =>
      OthersReport(s, built, choice);
    case AskForMarker =>
      OthersReport(s, false, PLAIN);
    case TakeEvent(choice) =>
      ConversionReports(s.world, s.channel.revision, s.channel.sub.buffer[0], choice);
    case _ =>
  }

  lemma SameReports(s: System, t: System)
    requires Reported(s) && t.channel == s.channel && t.world == s.world
    requires t.wire == s.wire || (s.wire != [] && t.wire == s.wire[1..])
    ensures Reported(t)
  {
    hide EventTrue, ReportTrue;
  }

  lemma StepReports(s: System, a: Action)
    requires Reported(s) && Enabled(s, a)
    ensures Reported(Next(s, a))
  {
    hide Reported, Next;
    match a
    case Change(_, _, _) => ChangeReports(s, a);
    case Drift(_, _) => DriftReports(s, a);
    case BeginPass =>
      BeginPassIs(s);
      SameReports(s, Next(s, a));
    case BeginPoll(byRefresh) =>
      BeginPollIs(s, byRefresh);
      SameReports(s, Next(s, a));
    case AnswerPoll(choice) =>
      AnswerPollIs(s, choice);
      SameReports(s, Next(s, a));
    case EndPoll =>
      EndPollIs(s);
      SameReports(s, Next(s, a));
    case FailPoll =>
      FailPollIs(s);
      SameReports(s, Next(s, a));
    case Deliver =>
      DeliverIs(s);
      DeliveryFacts(s);
      SameReports(s, Next(s, a));
    case _ =>
      StreamReports(s, a);
  }

  // ------------------------------------------------------------------ the past does not change

  lemma TrueThenOutlives(w: World, w': World, o: Observation, f: StateField, t: nat)
    requires w'.past == w.past + [w.device] && TrueThen(w, o, f, t)
    ensures TrueThen(w', o, f, t)
  {
    assert DeviceAt(w', t) == DeviceAt(w, t);
  }

  lemma EnvelopeTrueOutlives(w: World, w': World, e: Envelope, f: StateField)
    requires w'.past == w.past + [w.device] && EnvelopeTrue(w, e, f)
    ensures EnvelopeTrue(w', e, f)
  {
    hide TrueThen, Content, Touches;
    if Content(e.payload).Some? && Touches(Content(e.payload).value, f) {
      TrueThenOutlives(w, w', Content(e.payload).value, f, e.builtAt);
    }
  }

  lemma LeafTrueOutlives(w: World, w': World, leaf: Leaf, f: StateField, t: nat)
    requires w'.past == w.past + [w.device] && LeafTrue(w, leaf, f, t)
    ensures LeafTrue(w', leaf, f, t)
  {
    if t <= Clock(w) {
      assert DeviceAt(w', t) == DeviceAt(w, t);
    }
  }

  lemma HistoryKeepsTruth(s: System, t: System, f: StateField)
    requires Truthful(s, f) && t.world.past == s.world.past + [s.world.device]
    requires t.wire == s.wire && t.poll == s.poll && t.store == s.store && t.storeRevision == s.storeRevision
    requires t.readAt == s.readAt
    ensures Truthful(t, f)
  {
    hide EnvelopeTrue, TrueThen, LeafTrue, View;
    forall i | 0 <= i < |t.wire| ensures EnvelopeTrue(t.world, t.wire[i], f) {
      EnvelopeTrueOutlives(s.world, t.world, s.wire[i], f);
    }
    if s.poll.Answered? {
      TrueThenOutlives(s.world, t.world, s.poll.reading, f, s.poll.readAt);
    }
    LeafTrueOutlives(s.world, t.world, LeafOf(s, f), f, ReadAt(s, f));
  }

  lemma WorldSteps(s: System, a: Action)
    requires Enabled(s, a) && (a.Change? || a.Drift?)
    ensures var t := Next(s, a);
            && t.world.past == s.world.past + [s.world.device]
            && t == s.(channel := t.channel, world := t.world)
  {
    hide StreamLoop.Next, Stamp, OnlyTouches;
  }

  // ------------------------------------------------------------------ what is sent

  lemma FirstEnvelopeTrue(s: System, built: bool, choice: Choice, f: StateField)
    requires OnDevice(f)
    ensures EnvelopeTrue(s.world, FirstEnvelope(s, built, choice), f)
  {
    FullReadingCarries(s.world.device, choice, f);
    hide Carries, FullReading, Touches;
  }

  lemma ConversionTrue(w: World, top: nat, e: EventBus.Event, choice: Choice, f: StateField)
    requires OnDevice(f) && EventTrue(w, top, e)
    ensures EnvelopeTrue(w, Convert(w, e, choice), f)
  {
    hide Reading;
    if e.kind.StateUpdated? {
      ReadingCarries(w.device, e.kind.fields, choice, f);
      hide Carries;
    } else {
      hide Carries;
    }
  }

  lemma MarkerTrue(w: World, sub: EventBus.Subscriber, revision: nat, f: StateField)
    requires EventBus.PendingResync(sub, revision).Some?
    ensures EnvelopeTrue(w, Convert(w, EventBus.PendingResync(sub, revision).value, PLAIN), f)
  {
    hide TrueThen, Reading;
  }

  lemma StreamStepTrue(s: System, a: Action, f: StateField)
    requires Enabled(s, a) && OnDevice(f) && Reported(s)
    requires a == OpenStream || a.SendSnapshot? || a == AskForMarker || a.TakeEvent? || a == LoseStream
    requires forall i :: 0 <= i < |s.wire| ==> EnvelopeTrue(s.world, s.wire[i], f)
    ensures var t := Next(s, a);
            forall i :: 0 <= i < |t.wire| ==> EnvelopeTrue(s.world, t.wire[i], f)
  {
    hide EnvelopeTrue, FirstEnvelope, Convert, StreamLoop.Next, EventTrue, ReportTrue;
    match a
    case SendSnapshot(built, choice) =>
      FirstEnvelopeTrue(s, built, choice, f);
    case AskForMarker =>
      if EventBus.PendingResync(s.channel.sub, s.channel.revision).Some? {
        MarkerTrue(s.world, s.channel.sub, s.channel.revision, f);
      }
    case TakeEvent(choice) =>
      ConversionTrue(s.world, s.channel.revision, s.channel.sub.buffer[0], choice, f);
    case _ =>
  }

  // ------------------------------------------------------------------ what is stored

  /** A true reading folded in leaves a true leaf, resting on that reading if it was stamped. */
  lemma StoreKeepsTruth(r: Reduction, o: Observation, revision: nat, readAt: map<StateField, nat>, w: World,
                        f: StateField, t: nat)
    requires View(r, f).revision < revision && (o.base.Some? ==> o.base.value < revision)
    requires Touches(o, f) ==> TrueThen(w, o, f, t)
    requires LeafTrue(w, View(r, f), f, RevisionOf(readAt, f))
    ensures var store := Reduce(r, o, revision);
            && LeafTrue(w, View(store, f), f, RevisionOf(Rested(readAt, store, revision, t), f))
            && View(store, f).revision <= revision
  {
    hide Reduce, Rested, Owner, View, Reducer.Withholds;
    Reducer.LeafOutcome(r, o, revision, f);
    RestedAt(readAt, Reduce(r, o, revision), revision, t, f);
    if Owner(f).None? && Touches(o, f) {
      UnownedSettles(r, o, revision, f, DeviceAt(w, t));
    } else if Owner(f).None? {
      UnownedUntouched(r, o, revision, f);
    }
  }

  lemma UnownedSettles(r: Reduction, o: Observation, revision: nat, f: StateField, device: map<StateField, int>)
    requires Owner(f).None? && Touches(o, f) && Carries(o, f, device)
    requires View(r, f).revision < revision && (o.base.Some? ==> o.base.value < revision)
    ensures var leaf := View(Reduce(r, o, revision), f);
            leaf == View(r, f) || (leaf.revision == revision && Agrees(leaf, f, device))
  {
    hide Reduce, Owner, View, Carries, Agrees, Touches;
    if o.base.None? {
      ReadingSettles(r, o, revision, f, device);
    } else {
      AnswerSettles(r, o, revision, f, device);
    }
  }

  lemma UnownedUntouched(r: Reduction, o: Observation, revision: nat, f: StateField)
    requires Owner(f).None? && !Touches(o, f) && (o.base.Some? ==> o.base.value < revision)
    ensures View(Reduce(r, o, revision), f) == View(r, f)
  {
    hide Reduce, Owner, View;
    if o.base.None? {
      Reducer.StreamStep(r, o, revision, f);
    } else {
      Reducer.PollStep(r, o, revision, f);
    }
  }

  lemma DeliveryKeepsTruth(s: System, f: StateField)
    requires Truthful(s, f) && s.wire != []
    ensures Truthful(Delivered(s), f)
  {
    hide Reduce, Rested, Delivered, Handled, Accepts, Signals, Dispatched, Content, Touches, TrueThen, LeafTrue, View;
    var e, t := s.wire[0], Delivered(s);
    DeliveryFacts(s);
    ContentDispatched(s.client, e);
    if Accepts(s.client, e) && Content(e.payload).Some? {
      StoreKeepsTruth(s.store, Content(e.payload).value, s.storeRevision + 1, s.readAt, s.world, f, e.builtAt);
    }
    hide EnvelopeTrue;
    assert forall i :: 0 <= i < |t.wire| ==> t.wire[i] == s.wire[i + 1];
  }

  lemma EndPollKeepsTruth(s: System, f: StateField)
    requires Truthful(s, f) && s.poll.Answered?
    ensures Truthful(Next(s, EndPoll), f)
  {
    hide Reduce, Rested, Next, TrueThen, LeafTrue, View, EnvelopeTrue, Touches;
    EndPollIs(s);
    StoreKeepsTruth(s.store, s.poll.reading, s.storeRevision + 1, s.readAt, s.world, f, s.poll.readAt);
  }

  lemma AnswerKeepsTruth(s: System, choice: Choice, f: StateField)
    requires Truthful(s, f) && s.poll.Begun? && OnDevice(f)
    ensures Truthful(Next(s, AnswerPoll(choice)), f)
  {
    FullReadingCarries(s.world.device, choice, f);
    CarriesBase(FullReading(s.world.device, choice), s.poll.base, f, s.world.device);
    hide Next, FullReading, LeafTrue, View, EnvelopeTrue, Carries;
    AnswerPollIs(s, choice);
  }

  /** Steps that touch neither the store, the device, the wire nor a poll's answer. */
  lemma RestKeepsTruth(s: System, a: Action, f: StateField)
    requires Truthful(s, f) && Enabled(s, a) && (a == BeginPass || a.BeginPoll? || a == FailPoll)
    ensures Truthful(Next(s, a), f)
  {
    hide Next, Enabled, Truthful, PassBegins, PassEnds;
    if a == BeginPass {
      assert s.client.task == Created by { PassPossible(s); }
      BeginPassIs(s);
    } else if a == FailPoll {
      assert s.poll != Idle by { FailPossible(s); }
      FailPollIs(s);
    } else {
      BeginPollIs(s, a.byRefresh);
    }
    PollMovesKeepTruth(s, Next(s, a), f);
  }

  lemma PollMovesKeepTruth(s: System, t: System, f: StateField)
    requires Truthful(s, f) && t.world == s.world && t.wire == s.wire
    requires t.store == s.store && t.storeRevision == s.storeRevision && t.readAt == s.readAt
    requires t.poll == s.poll || t.poll == Idle || (t.poll.Begun? && t.poll.base == s.storeRevision)
    ensures Truthful(t, f)
  {
    hide LeafTrue, View, EnvelopeTrue, TrueThen;
  }

  lemma PassPossible(s: System)
    requires Enabled(s, BeginPass)
    ensures s.client.task == Created
  {
  }

  lemma FailPossible(s: System)
    requires Enabled(s, FailPoll)
    ensures s.poll != Idle
  {
  }

  lemma StepKeepsTruth(s: System, a: Action, f: StateField)
    requires Truthful(s, f) && Reported(s) && Enabled(s, a) && OnDevice(f)
    ensures Truthful(Next(s, a), f)
  {
    hide Next, LeafTrue, View, EnvelopeTrue, TrueThen, Reported;
    match a
    case Change(_, _, _) =>
      WorldSteps(s, a);
      HistoryKeepsTruth(s, Next(s, a), f);
    case Drift(_, _) =>
      WorldSteps(s, a);
      HistoryKeepsTruth(s, Next(s, a), f);
    case Deliver =>
      DeliverIs(s);
      DeliveryKeepsTruth(s, f);
    case EndPoll =>
      EndPollKeepsTruth(s, f);
    case AnswerPoll(choice) =>
      AnswerKeepsTruth(s, choice, f);
    case BeginPass =>
      RestKeepsTruth(s, a, f);
    case BeginPoll(_) =>
      RestKeepsTruth(s, a, f);
    case FailPoll =>
      RestKeepsTruth(s, a, f);
    case _ =>
      StreamStepIs(s, a);
      StreamStepTrue(s, a, f);
  }

  lemma {:induction false} RunKeepsTruth(s: System, actions: seq<Action>, f: StateField)
    requires Truthful(s, f) && Reported(s) && Runnable(s, actions) && OnDevice(f)
    ensures Truthful(Run(s, actions), f) && Reported(Run(s, actions))
    decreases |actions|
  {
    hide Truthful, Reported, Next;
    if actions != [] {
      StepReports(s, actions[0]);
      StepKeepsTruth(s, actions[0], f);
      RunKeepsTruth(Next(s, actions[0]), actions[1..], f);
    }
  }

  lemma StartIsTrue(ski: Ski, revision: nat, device: map<StateField, int>, f: StateField)
    ensures Truthful(Initially(ski, revision, device), f) && Reported(Initially(ski, revision, device))
  {
    assert StreamLoop.Initially(ski, revision).loop == StreamLoop.Down;
    hide StreamLoop.Initially;
  }

  /**
    Exactly when the client agrees with the device, in every reachable state, failed polls and all. A leaf
    that was never read agrees exactly while the device has no value there; any other followed leaf shows
    the device as of its reading, so it agrees exactly while that reading still holds, and it shows all that
    was announced exactly when the last announced change came before the reading.
   */
  lemma LeafShowsItsReading(ski: Ski, revision: nat, device: map<StateField, int>, actions: seq<Action>, f: StateField)
    requires Runnable(Initially(ski, revision, device), actions) && Followed(f)
    ensures var s := Run(Initially(ski, revision, device), actions);
            && (LeafOf(s, f).revision == 0 ==> (Agrees(LeafOf(s, f), f, s.world.device) <==> f !in s.world.device))
            && (LeafOf(s, f).revision > 0 ==>
                  && ReadAt(s, f) <= Clock(s.world)
                  && Agrees(LeafOf(s, f), f, DeviceAt(s.world, ReadAt(s, f)))
                  && (Agrees(LeafOf(s, f), f, s.world.device) <==>
                      Lookup(DeviceAt(s.world, ReadAt(s, f)), f) == Lookup(s.world.device, f))
                  && (Shows(s.world, LeafOf(s, f), f, ReadAt(s, f))
                      <==> RevisionOf(s.world.announced, f) <= ReadAt(s, f)))
  {
    hide Initially, Run, Runnable, Next, View, LeafTrue, Agrees, Shows;
    StartIsTrue(ski, revision, device, f);
    RunKeepsTruth(Initially(ski, revision, device), actions, f);
    var s := Run(Initially(ski, revision, device), actions);
    TrueLeafMeans(s.world, LeafOf(s, f), f, ReadAt(s, f));
  }

  lemma TrueLeafMeans(w: World, leaf: Leaf, f: StateField, t: nat)
    requires LeafTrue(w, leaf, f, t) && Owner(f).None?
    ensures leaf.revision == 0 ==> (Agrees(leaf, f, w.device) <==> f !in w.device)
    ensures leaf.revision > 0 ==>
              && t <= Clock(w) && Agrees(leaf, f, DeviceAt(w, t))
              && (Agrees(leaf, f, w.device) <==> Lookup(DeviceAt(w, t), f) == Lookup(w.device, f))
              && (Shows(w, leaf, f, t) <==> RevisionOf(w.announced, f) <= t)
  {
  }

  /** A fresh leaf of any kind shows a value that the device had at the reading the leaf rests on. */
  lemma FreshLeafIsTrue(ski: Ski, revision: nat, device: map<StateField, int>, actions: seq<Action>, f: StateField)
    requires Runnable(Initially(ski, revision, device), actions) && OnDevice(f)
    ensures var s := Run(Initially(ski, revision, device), actions);
            LeafOf(s, f).isFresh ==>
              && ReadAt(s, f) <= Clock(s.world)
              && f in DeviceAt(s.world, ReadAt(s, f)) && LeafOf(s, f).value
                                                         == Lookup(DeviceAt(s.world, ReadAt(s, f)), f)
  {
    hide Initially, Run, Runnable, Next, View;
    StartIsTrue(ski, revision, device, f);
    RunKeepsTruth(Initially(ski, revision, device), actions, f);
  }

  /**
    A delivered connection event that the client accepts leaves the Connected leaf fresh, with the flag the
    device had right after the change that the event reports, and resting on that very instant.
   */
  lemma ConnectionLands(ski: Ski, revision: nat, device: map<StateField, int>, actions: seq<Action>)
    requires Runnable(Initially(ski, revision, device), actions)
    ensures var s := Run(Initially(ski, revision, device), actions);
            s.wire != [] && s.wire[0].payload.Connection? && Accepts(s.client, s.wire[0]) ==>
              var t, r := Next(s, Deliver), s.wire[0].revision;
              && r in s.world.since && s.world.since[r] <= Clock(s.world)
              && LeafOf(t, Connected) == Leaf(Lookup(DeviceAt(s.world, s.world.since[r]), Connected), true,
                                              t.storeRevision)
              && LeafOf(t, Connected).value == Some(if s.wire[0].payload.connected then 1 else 0)
              && ReadAt(t, Connected) == s.world.since[r]
  {
    hide Initially, Run, Runnable, Next, View, Truthful, Accepts;
    StartIsTrue(ski, revision, device, Connected);
    RunKeepsTruth(Initially(ski, revision, device), actions, Connected);
    var s := Run(Initially(ski, revision, device), actions);
    if s.wire != [] && s.wire[0].payload.Connection? && Accepts(s.client, s.wire[0]) {
      DeliverIs(s);
      FlagLands(s);
    }
  }

  lemma FlagLands(s: System)
    requires s.wire != [] && s.wire[0].payload.Connection? && Accepts(s.client, s.wire[0])
    ensures var t := Delivered(s);
            && LeafOf(t, Connected) == Leaf(Some(if s.wire[0].payload.connected then 1 else 0), true, t.storeRevision)
            && ReadAt(t, Connected) == s.wire[0].builtAt && t.world == s.world
  {
    hide Reduce, Rested, Delivered, Handled, Accepts, View;
    DeliveryFacts(s);
    var o := Dispatched(s.client, s.wire[0]).value;
    Reducer.StreamStep(s.store, o, s.storeRevision + 1, Connected);
    RestedAt(s.readAt, Reduce(s.store, o, s.storeRevision + 1), s.storeRevision + 1, s.wire[0].builtAt, Connected);
  }
}
