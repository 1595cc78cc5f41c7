/**
  Eventual agreement for the leaves that a capability owns: the contract may withhold a reading of such a
  leaf, and nothing asks for it again.
 */
module OwnedLeaves {
  import opened Common
  import opened State
  import EventBus
  import StreamLoop
  import opened DeviceStreams
  import opened Transport
  import opened Convergence
  import opened Readings
  import Reducer

  /** The instant of the reading that a step makes the contract withhold from a leaf, if it does. */
  function WithheldNow(s: System, a: Action, f: StateField): Option<nat>
    requires Enabled(s, a)
  {
    if a == Deliver then
      var e := s.wire[0];
      var o := Dispatched(s.client, e);
      if o.Some? && Reducer.Withholds(s.store, o.value, f) then Some(e.builtAt) else None
    else if a == EndPoll && Reducer.Withholds(s.store, s.poll.reading, f) then Some(s.poll.readAt)
    else None
  }

  /** One more than the instant of the latest reading that was ever withheld from a leaf; 0 if there is none. */
  function WithheldSince(s: System, a: Action, f: StateField, w: nat): nat
    requires Enabled(s, a)
  {
    var t := WithheldNow(s, a, f);
    if t.Some? && t.value + 1 > w then t.value + 1 else w
  }

  function LatestWithheld(s: System, actions: seq<Action>, f: StateField, w: nat): nat
    requires Runnable(s, actions)
    decreases |actions|
  {
    if actions == [] then w else LatestWithheld(Next(s, actions[0]), actions[1..], f,
                                                WithheldSince(s, actions[0], f, w))
  }

  /** A reading taken since the leaf's last announced change has been withheld. */
  predicate Excused(s: System, f: StateField, w: nat) {
    w > RevisionOf(s.world.announced, f)
  }

  /** If the leaf is fresh nothing was announced since its reading, and no poll under way can take it back. */
  predicate Kept(s: System, f: StateField) {
    && (LeafOf(s, f).isFresh ==> Current(s.world, f, ReadAt(s, f)))
    && (s.poll.Answered? ==> LeafOf(s, f).revision > s.poll.base || Saw(s.world, s.poll.reading, f, s.poll.readAt))
  }

  predicate Pursued(s: System, f: StateField, w: nat) {
    Coming(s, f) || Owed(s.client) || s.missed || Fetched(s, f) || Excused(s, f, w) || Kept(s, f)
  }

  predicate OwnedInvariant(s: System, f: StateField, w: nat) {
    StreamInvariant(s) && InFlight(s, f) && Bases(s, f) && Steady(s.world, f) && Truthful(s, f) && Reported(s)
    && Pursued(s, f, w)
  }

  // ------------------------------------------------------------------ what a reading of now leaves

  /** A reading of the leaf as last announced, folded in: the leaf is current, stale, or the reading was withheld. */
  lemma CurrentReadingLands(r: Reduction, o: Observation, revision: nat, readAt: map<StateField, nat>, w: World,
                            f: StateField, t: nat)
    requires View(r, f).revision < revision && (o.base.Some? ==> o.base.value < revision)
    requires Saw(w, o, f, t) && !Newer(View(r, f).revision, o.base)
    ensures var store := Reduce(r, o, revision);
            || Reducer.Withholds(r, o, f)
            || (&& View(store, f).revision == revision
                && (View(store, f).isFresh ==> Current(w, f, RevisionOf(Rested(readAt, store, revision, t), f))))
  {
    hide Reduce, Rested, View, Reducer.Withholds, Carries;
    Reducer.LeafOutcome(r, o, revision, f);
    RestedAt(readAt, Reduce(r, o, revision), revision, t, f);
    SawTouches(w, o, f, t);
  }

  lemma SawTouches(w: World, o: Observation, f: StateField, t: nat)
    requires Saw(w, o, f, t)
    ensures Touches(o, f) && Current(w, f, t)
  {
  }

  /** An observation that does not read the leaf, or comes too late for it, leaves it alone or makes it stale. */
  lemma OtherReadingLands(r: Reduction, o: Observation, revision: nat, readAt: map<StateField, nat>, f: StateField,
                          t: nat)
    requires View(r, f).revision < revision && (o.base.Some? ==> o.base.value < revision)
    requires !Touches(o, f) || Newer(View(r, f).revision, o.base)
    ensures var store := Reduce(r, o, revision);
            || (View(store, f) == View(r, f) && RevisionOf(Rested(readAt, store, revision, t), f)
                                                == RevisionOf(readAt, f))
            || (!View(store, f).isFresh && View(store, f).revision == revision)
  {
    Reducer.LeafOutcome(r, o, revision, f);
    hide Reduce, Rested, View;
    RestedAt(readAt, Reduce(r, o, revision), revision, t, f);
  }

  // ------------------------------------------------------------------ the steps

  lemma OwnedFacts(s: System, f: StateField, w: nat)
    requires OwnedInvariant(s, f, w)
    ensures StreamInvariant(s) && Answering(s) && Truthful(s, f) && Pursued(s, f, w) && InFlight(s, f)
    ensures LeafOf(s, f).revision <= s.storeRevision && Current(s.world, f, Clock(s.world)) && Bases(s, f)
  {
    AnsweringHolds(s);
    hide StreamInvariant, Steady, Truthful, Pursued, Answering;
  }

  /** A step that reduces one observation, read at an instant, and leaves the device and any poll as they were. */
  predicate Reduces(s: System, t: System, o: Observation, at: nat) {
    && t.world == s.world && t.poll == s.poll
    && t.store == Reduce(s.store, o, s.storeRevision + 1)
    && t.readAt == Rested(s.readAt, t.store, s.storeRevision + 1, at)
  }

  /** News of the leaf lands: it is current, or stale, or the news was withheld. */
  lemma NewsLands(s: System, t: System, o: Observation, f: StateField, at: nat, w: nat)
    requires Bases(s, f) && Reduces(s, t, o, at) && o.base.None? && Saw(s.world, o, f, at)
    requires Reducer.Withholds(s.store, o, f) ==> w > at
    ensures Excused(t, f, w) || Kept(t, f)
  {
    hide Reduce, Rested, Saw, Reducer.Withholds, View;
    SawTouches(s.world, o, f, at);
    CurrentReadingLands(s.store, o, s.storeRevision + 1, s.readAt, s.world, f, at);
  }

  /** Something else lands. */
  lemma SilenceLands(s: System, t: System, o: Observation, f: StateField, at: nat)
    requires Bases(s, f) && Reduces(s, t, o, at) && o.base.None? && !Touches(o, f)
    ensures Fetched(s, f) ==> Fetched(t, f) || Kept(t, f)
    ensures Kept(s, f) ==> Kept(t, f)
  {
    hide Reduce, Rested, Saw, View, Current;
    OtherReadingLands(s.store, o, s.storeRevision + 1, s.readAt, f, at);
  }

  lemma NothingLands(s: System, t: System, f: StateField)
    requires t.world == s.world && t.poll == s.poll && t.store == s.store && t.readAt == s.readAt
    ensures Fetched(t, f) == Fetched(s, f) && Kept(t, f) == Kept(s, f)
  {
    hide View, Saw, Current;
  }

  /** An accepted envelope that asks for no refresh. */
  lemma QuietDeliveryFollows(s: System, t: System, f: StateField, w: nat)
    requires StreamInvariant(s) && Bases(s, f) && s.wire != [] && EnvelopeKnown(s.world, s.wire[0], f)
    requires Accepts(s.client, s.wire[0]) && !Signals(s.client, s.wire[0])
    requires Coming(s, f) || Fetched(s, f) || Kept(s, f)
    requires t.world == s.world && t.poll == s.poll && t.client.last == Some(s.wire[0].revision)
    requires var o := Content(s.wire[0].payload);
             if o.Some? then
               && Reduces(s, t, o.value, s.wire[0].builtAt)
               && (Reducer.Withholds(s.store, o.value, f) ==> w > s.wire[0].builtAt)
             else t.store == s.store && t.readAt == s.readAt
    ensures Coming(t, f) || Fetched(t, f) || Excused(t, f, w) || Kept(t, f)
  {
    hide StreamInvariant, EnvelopeKnown, Accepts, Signals, Fetched, Kept, Excused, Saw, Reduces, Content, Touches,
      Bases,
      Reducer.Withholds, Tells;
    var e := s.wire[0];
    AcceptedTells(s, f);
    if Coming(s, f) && ChangedAt(s, f) <= e.revision {
      TellsSome(e.payload, f);
      KnownBase(s.world, e, f);
      NewsLands(s, t, Content(e.payload).value, f, e.builtAt, w);
    } else if !Coming(s, f) && Content(e.payload).Some? {
      KnownBase(s.world, e, f);
      SilenceLands(s, t, Content(e.payload).value, f, e.builtAt);
    } else if !Coming(s, f) {
      NothingLands(s, t, f);
    }
  }

  /** What a delivery counts as withheld. */
  lemma DeliveryWithholds(s: System, f: StateField, w: nat)
    requires s.wire != []
    ensures WithheldSince(s, Deliver, f, w) >= w
    ensures Accepts(s.client, s.wire[0]) && Content(s.wire[0].payload).Some?
            && Reducer.Withholds(s.store, Content(s.wire[0].payload).value, f) ==>
              WithheldSince(s, Deliver, f, w) > s.wire[0].builtAt
  {
    hide Accepts, Content, Reducer.Withholds, Dispatched;
    ContentDispatched(s.client, s.wire[0]);
  }

  lemma DeliveryFollows(s: System, f: StateField, w: nat)
    requires OwnedInvariant(s, f, w) && s.wire != []
    ensures Pursued(Delivered(s), f, WithheldSince(s, Deliver, f, w))
  {
    hide OwnedInvariant, Handled, Delivered, Reduce, Rested, Accepts, Signals, Owed, Fetched, Kept, Dispatched,
      WithheldSince, Content, Reducer.Withholds, Coming, StreamInvariant, Bases, EnvelopeKnown;
    OwnedFacts(s, f, w);
    var e, t, w' := s.wire[0], Delivered(s), WithheldSince(s, Deliver, f, w);
    DeliveryFacts(s);
    HandlerFacts(s.client, e);
    DeliveryWithholds(s, f, w);
    ContentDispatched(s.client, e);
    NotAccepted(s, t, f);
    if Accepts(s.client, e) && !Signals(s.client, e) && !Owed(s.client) && !s.missed && !Excused(s, f, w) {
      QuietDeliveryFollows(s, t, f, w');
    }
  }

  lemma NotAccepted(s: System, t: System, f: StateField)
    ensures t.world == s.world && t.client.last == s.client.last ==> Coming(t, f) == Coming(s, f)
    ensures t.world == s.world && t.poll == s.poll && t.store == s.store && t.readAt == s.readAt ==>
              Fetched(t, f) == Fetched(s, f) && Kept(t, f) == Kept(s, f)
  {
    hide View, Saw, Current;
  }

  lemma EndPollFollows(s: System, f: StateField, w: nat)
    requires OwnedInvariant(s, f, w) && s.poll.Answered?
    ensures Pursued(Next(s, EndPoll), f, WithheldSince(s, EndPoll, f, w))
  {
    hide OwnedInvariant, Reduce, Rested, Next, Fetched, Kept, StreamInvariant, WithheldSince, Reducer.Withholds, Bases,
      Answering, Truthful, InFlight, Current;
    OwnedFacts(s, f, w);
    EndPollFacts(s);
    EndPollWithholds(s, f, w);
    if Fetched(s, f) || Kept(s, f) {
      AnswerLands(s, Next(s, EndPoll), f, WithheldSince(s, EndPoll, f, w));
    }
  }

  lemma EndPollWithholds(s: System, f: StateField, w: nat)
    requires s.poll.Answered?
    ensures WithheldSince(s, EndPoll, f, w) >= w
    ensures Reducer.Withholds(s.store, s.poll.reading, f) ==> WithheldSince(s, EndPoll, f, w) > s.poll.readAt
  {
    hide Reducer.Withholds;
  }

  /** A poll's answer lands. */
  lemma AnswerLands(s: System, t: System, f: StateField, w: nat)
    requires Bases(s, f) && s.poll.Answered? && (Fetched(s, f) || Kept(s, f))
    requires t.world == s.world && t.poll == Idle && t.store == Reduce(s.store, s.poll.reading, s.storeRevision + 1)
    requires t.readAt == Rested(s.readAt, t.store, s.storeRevision + 1, s.poll.readAt)
    requires Reducer.Withholds(s.store, s.poll.reading, f) ==> w > s.poll.readAt
    ensures Excused(t, f, w) || Kept(t, f)
  {
    hide Reduce, Rested, View, Saw, Reducer.Withholds;
    if LeafOf(s, f).revision <= s.poll.base {
      SawTouches(s.world, s.poll.reading, f, s.poll.readAt);
      CurrentReadingLands(s.store, s.poll.reading, s.storeRevision + 1, s.readAt, s.world, f, s.poll.readAt);
    } else {
      OtherReadingLands(s.store, s.poll.reading, s.storeRevision + 1, s.readAt, f, s.poll.readAt);
    }
  }

  lemma KeptOutlives(s: System, t: System, f: StateField)
    requires Succeeds(s.world, t.world, f) && RevisionOf(t.world.announced, f) == RevisionOf(s.world.announced, f)
    requires t.store == s.store && t.poll == s.poll && t.readAt == s.readAt
    ensures Fetched(s, f) ==> Fetched(t, f)
    ensures Kept(s, f) ==> Kept(t, f)
  {
    hide View, Saw, Succeeds, RevisionOf, Current;
    ReadingOutlives(s, t, f);
    CurrentOutlives(s.world, t.world, f, ReadAt(s, f));
  }

  lemma CurrentOutlives(w: World, w': World, f: StateField, t: nat)
    requires Succeeds(w, w', f) && RevisionOf(w'.announced, f) == RevisionOf(w.announced, f)
    ensures Current(w, f, t) ==> Current(w', f, t)
  {
  }

  lemma ChangeFollows(s: System, a: Action, f: StateField, w: nat)
    requires OwnedInvariant(s, f, w) && Enabled(s, a) && a.Change?
    ensures Pursued(Next(s, a), f, w)
  {
    assert Current(s.world, f, Clock(s.world)) && ChangedAt(s, f) <= s.channel.revision;
    hide OwnedInvariant, Next, Enabled, View, Owed, Fetched, Kept, Saw, StreamInvariant, Truthful, InFlight, Bases;
    OwnedFacts(s, f, w);
    NothingAhead(s);
    ChangeFacts(s, a, f);
    if f !in a.touched {
      KeptOutlives(s, Next(s, a), f);
    }
  }

  lemma DriftFollows(s: System, a: Action, f: StateField, w: nat)
    requires OwnedInvariant(s, f, w) && Enabled(s, a) && a.Drift?
    ensures Pursued(Next(s, a), f, w)
  {
    hide OwnedInvariant, Next, Enabled, View, Owed, Fetched, Kept, Saw, StreamInvariant, Truthful, InFlight, Bases;
    OwnedFacts(s, f, w);
    DriftFacts(s, a, f);
    KeptOutlives(s, Next(s, a), f);
  }

  lemma OtherFollows(s: System, a: Action, f: StateField, w: nat)
    requires OwnedInvariant(s, f, w) && Enabled(s, a) && OnDevice(f)
    requires !a.Change? && !a.Drift? && a != Deliver && a != EndPoll
    ensures Pursued(Next(s, a), f, w)
  {
    hide OwnedInvariant, Pursued, Next, Current, Answering, StreamInvariant, Bases, Truthful, InFlight;
    OwnedFacts(s, f, w);
    if a == BeginPass {
      PassFollows(s, f, w);
    } else if a.BeginPoll? {
      BeginFollows(s, a.byRefresh, f, w);
    } else if a.AnswerPoll? {
      AnswerFollows(s, a.choice, f, w);
    } else if a == FailPoll {
      FailFollows(s, f, w);
    } else {
      StreamFollows(s, a, f, w);
    }
  }

  lemma PassFollows(s: System, f: StateField, w: nat)
    requires Pursued(s, f, w) && s.client.task == Created
    ensures Pursued(Next(s, BeginPass), f, w)
  {
    hide Next, View, Saw;
    BeginPassIs(s);
  }

  lemma BeginFollows(s: System, byRefresh: bool, f: StateField, w: nat)
    requires Pursued(s, f, w) && Enabled(s, BeginPoll(byRefresh)) && LeafOf(s, f).revision <= s.storeRevision
    ensures Pursued(Next(s, BeginPoll(byRefresh)), f, w)
  {
    hide Next, View, Saw, Current;
    BeginPollIs(s, byRefresh);
  }

  lemma FailFollows(s: System, f: StateField, w: nat)
    requires Pursued(s, f, w) && s.poll != Idle && Answering(s)
    ensures Pursued(Next(s, FailPoll), f, w)
  {
    hide Next, View, Saw, Current;
    FailPollIs(s);
  }

  lemma StreamFollows(s: System, a: Action, f: StateField, w: nat)
    requires Pursued(s, f, w) && Enabled(s, a)
    requires a == OpenStream || a.SendSnapshot? || a == AskForMarker || a.TakeEvent? || a == LoseStream
    ensures Pursued(Next(s, a), f, w)
  {
    hide Next, View, Saw, Current;
    StreamStepIs(s, a);
  }

  lemma AnswerFollows(s: System, choice: Choice, f: StateField, w: nat)
    requires Pursued(s, f, w) && s.poll.Begun? && OnDevice(f) && Current(s.world, f, Clock(s.world))
    ensures Pursued(Next(s, AnswerPoll(choice)), f, w)
  {
    AnswerSees(s.world, choice, s.poll.base, f);
    hide Next, View, FullReading, Saw, Current;
    AnswerPollIs(s, choice);
  }

  lemma StepFollows(s: System, a: Action, f: StateField, w: nat)
    requires OwnedInvariant(s, f, w) && Enabled(s, a) && OnDevice(f)
    ensures Pursued(Next(s, a), f, WithheldSince(s, a, f, w))
  {
    hide OwnedInvariant, Next, Pursued;
    if a == Deliver {
      DeliverIs(s);
      DeliveryFollows(s, f, w);
    } else if a == EndPoll {
      EndPollFollows(s, f, w);
    } else if a.Change? {
      ChangeFollows(s, a, f, w);
    } else if a.Drift? {
      DriftFollows(s, a, f, w);
    } else {
      OtherFollows(s, a, f, w);
    }
  }

  lemma StepKeepsOwned(s: System, a: Action, f: StateField, w: nat)
    requires OwnedInvariant(s, f, w) && Enabled(s, a) && OnDevice(f)
    ensures OwnedInvariant(Next(s, a), f, WithheldSince(s, a, f, w))
  {
    assert Current(s.world, f, Clock(s.world));
    hide StreamInvariant, Next, Enabled, InFlight, Bases, Truthful, Pursued, Steady, Current, WithheldSince;
    StepKeepsStream(s, a);
    StepKeepsFlight(s, a, f);
    StepReports(s, a);
    StepKeepsTruth(s, a, f);
    TruthBases(Next(s, a), f);
    StepKeepsSteady(s, a, f);
    StepFollows(s, a, f, w);
  }

  lemma TruthBases(s: System, f: StateField)
    requires Truthful(s, f)
    ensures Bases(s, f)
  {
    hide Bases, EnvelopeTrue, LeafTrue, TrueThen;
  }

  lemma {:induction false} RunKeepsOwned(s: System, actions: seq<Action>, f: StateField, w: nat)
    requires OwnedInvariant(s, f, w) && Runnable(s, actions) && OnDevice(f)
    ensures OwnedInvariant(Run(s, actions), f, LatestWithheld(s, actions, f, w))
    decreases |actions|
  {
    hide OwnedInvariant, Next, WithheldSince;
    if actions != [] {
      StepKeepsOwned(s, actions[0], f, w);
      RunKeepsOwned(Next(s, actions[0]), actions[1..], f, WithheldSince(s, actions[0], f, w));
    }
  }

  lemma StartIsOwned(ski: Ski, revision: nat, device: map<StateField, int>, f: StateField)
    requires ski != ""
    ensures OwnedInvariant(Initially(ski, revision, device), f, 0)
  {
    StartsSound(ski, revision, device);
    StartsSteady(device, f);
    StartIsTrue(ski, revision, device, f);
    hide StreamInvariant, StreamLoop.Initially, Fetched, Kept, EventKnown, EnvelopeKnown, Steady, Truthful, View;
    assert View(Reduction(EMPTY_STATE, map[]), f).revision == 0 by { StartsUnread(f); }
  }

  /**
    Eventual agreement for any leaf that is read from the bridge, owned ones included. A settled client that
    missed nothing shows a fresh leaf with a value that the device had at the reading the leaf rests on, and
    nothing about the leaf has been announced since, unless a reading taken since that announcement was
    withheld. So it shows the device as it is exactly when its reading still holds.
   */
  lemma SettledOwnedLeafAgrees(ski: Ski, revision: nat, device: map<StateField, int>, actions: seq<Action>,
                               f: StateField)
    requires ski != "" && Runnable(Initially(ski, revision, device), actions) && OnDevice(f)
    ensures var start := Initially(ski, revision, device);
            var s := Run(start, actions);
            Settled(s) && !s.missed && LeafOf(s, f).isFresh ==>
              && ReadAt(s, f) <= Clock(s.world) && f in DeviceAt(s.world, ReadAt(s, f))
              && LeafOf(s, f).value == Lookup(DeviceAt(s.world, ReadAt(s, f)), f)
              && (LeafOf(s, f).value == Lookup(s.world.device, f) <==>
                  Lookup(DeviceAt(s.world, ReadAt(s, f)), f) == Lookup(s.world.device, f))
              && (RevisionOf(s.world.announced, f) <= ReadAt(s, f)
                  || Excused(s, f, LatestWithheld(start, actions, f, 0)))
              && (RevisionOf(s.world.announced, f) <= ReadAt(s, f) && !Outdated(s, f) ==>
                    LeafOf(s, f).value == Lookup(s.world.device, f))
  {
    hide Next, Run, Runnable, Initially, OwnedInvariant, Settled, View, LatestWithheld, Excused, Current;
    var start := Initially(ski, revision, device);
    StartIsOwned(ski, revision, device, f);
    RunKeepsOwned(start, actions, f, 0);
    var s := Run(start, actions);
    if Settled(s) && !s.missed && LeafOf(s, f).isFresh {
      FreshMeans(s, f, LatestWithheld(start, actions, f, 0));
    }
  }

  lemma FreshMeans(s: System, f: StateField, w: nat)
    requires OwnedInvariant(s, f, w) && Settled(s) && !s.missed && LeafOf(s, f).isFresh
    ensures ReadAt(s, f) <= Clock(s.world) && f in DeviceAt(s.world, ReadAt(s, f))
    ensures LeafOf(s, f).value == Lookup(DeviceAt(s.world, ReadAt(s, f)), f)
    ensures RevisionOf(s.world.announced, f) <= ReadAt(s, f) || Excused(s, f, w)
    ensures RevisionOf(s.world.announced, f) <= ReadAt(s, f) && !Outdated(s, f) ==>
              LeafOf(s, f).value == Lookup(s.world.device, f)
  {
    SettledIsQuiescent(s);
    assert StreamInvariant(s);
    SettledIsAtTip(s);
    hide StreamInvariant, Quiescent, EventKnown, EnvelopeKnown, EnvelopeTrue, TrueThen, View, Bases;
  }

  /**
    A capability change that the client accepts puts the explicit contract in force and gives the capability
    the last state named for it; a leaf is emptied, made stale or left as it was, by what the results say.
   */
  lemma CapabilityLands(s: System, f: StateField)
    requires s.wire != [] && s.wire[0].payload.CapabilityChange? && Accepts(s.client, s.wire[0]) && Owner(f).Some?
    ensures var t, results, k := Next(s, Deliver), s.wire[0].payload.results, Owner(f).value;
            && t.store.state.explicitContract
            && t.store.state.capabilities[k] == (if LastExplicit(results, k).Some? then LastExplicit(results, k).value
                                                 else s.store.state.capabilities[k])
            && LeafOf(t, f) ==
               if Unsupported in Reducer.Verdicts(results, f) then Leaf(None, false, t.storeRevision)
               else if TemporarilyUnavailable in Reducer.Verdicts(results, f)
               then LeafOf(s, f).(isFresh := false, revision := t.storeRevision)
               else LeafOf(s, f)
  {
    hide Reduce, Rested, Delivered, Handled, Accepts, Reducer.Verdicts, LastExplicit, Owner, Next;
    DeliverIs(s);
    DeliveryFacts(s);
    Reducer.ExplicitStep(s.store, Dispatched(s.client, s.wire[0]).value, s.storeRevision + 1, f);
  }

  // ------------------------------------------------------------------ a withheld change

  const ON_AND_UNKNOWN := Choice([], Some(true), true, false)
  const AVAILABLE := Choice([CapabilityResult(Lpc, None, false, Some(Available), Metadata(0, 0))], Some(true), true,
                            false)
  const SEVEN := map[ConsumptionLimit := 7]
  const NINE := map[ConsumptionLimit := 9]

  /**
    The exception is real. While a poll that read 7 and finds the capability available is on its way, the
    limit becomes 9 and is announced; the contract withholds the delta, no refresh is owed, and the settled
    client shows 7 as fresh.
   */
  lemma WithheldChangeIsLost() returns (run: seq<Action>)
    ensures var start := Initially("A", 1, SEVEN);
            && run == [OpenStream, SendSnapshot(true, ON_AND_UNKNOWN), AskForMarker] +
                      [Deliver, BeginPoll(false), AnswerPoll(AVAILABLE)] +
                      [Change(EventBus.StateUpdated({ConsumptionLimit}), NINE, {ConsumptionLimit}), TakeEvent(PLAIN),
                       Deliver] +
                      [AskForMarker, EndPoll]
            && Runnable(start, run)
            && var s := Run(start, run);
            && Settled(s) && !s.missed
            && LeafOf(s, ConsumptionLimit).isFresh && LeafOf(s, ConsumptionLimit).value == Some(7)
            && Lookup(s.world.device, ConsumptionLimit) == Some(9)
  {
    hide Next, Enabled, Runnable, Run, Initially, Settled, View, Reducer.Barred;
    var start := Initially("A", 1, SEVEN);
    var change := Change(EventBus.StateUpdated({ConsumptionLimit}), NINE, {ConsumptionLimit});
    var a, b := [OpenStream, SendSnapshot(true, ON_AND_UNKNOWN), AskForMarker], [Deliver, BeginPoll(false),
                                                                                 AnswerPoll(AVAILABLE)];
    var c, d := [change, TakeEvent(PLAIN), Deliver], [AskForMarker, EndPoll];
    var s3 := StreamUp();
    ThreeRun(start, OpenStream, SendSnapshot(true, ON_AND_UNKNOWN), AskForMarker);
    var s6 := SnapshotWithheld(s3);
    ThreeRun(s3, Deliver, BeginPoll(false), AnswerPoll(AVAILABLE));
    RunConcat(start, a, b);
    var s9 := DeltaWithheld(s6);
    ThreeRun(s6, change, TakeEvent(PLAIN), Deliver);
    RunConcat(start, a + b, c);
    var s11 := OldReadingStays(s9);
    TwoRun(s9, AskForMarker, EndPoll);
    RunConcat(start, a + b + c, d);
    run := a + b + c + d;
  }

  /** The limit is not shown, never stamped, and withheld by the contract. */
  predicate Hidden(store: Reduction) {
    store.state.explicitContract && Reducer.Barred(store, ConsumptionLimit) && View(store, ConsumptionLimit)
                                                                               == Leaf(None, false, 0)
  }

  lemma StreamUp() returns (s3: System)
    ensures var s0 := Initially("A", 1, SEVEN);
            var s1 := Next(s0, OpenStream);
            && Enabled(s0, OpenStream) && Enabled(s1, SendSnapshot(true, ON_AND_UNKNOWN))
            && Enabled(Next(s1, SendSnapshot(true, ON_AND_UNKNOWN)), AskForMarker)
            && s3 == Next(Next(s1, SendSnapshot(true, ON_AND_UNKNOWN)), AskForMarker)
    ensures s3.channel == StreamLoop.Channel("A", 1, EventBus.NewSubscriber("A"), StreamLoop.AtSelect, 1, [], [], 1)
    ensures s3.wire == [Envelope("A", 1, InitialSnapshot(FullReading(SEVEN, ON_AND_UNKNOWN)), 0)]
    ensures s3.store == Reduction(EMPTY_STATE, map[]) && s3.storeRevision == 0
    ensures s3.client == Client("A", None, false, NoTask) && s3.poll == Idle && !s3.missed
    ensures s3.world == World(SEVEN, [], map[], map[], map[], map[])
  {
    hide Reduce, Rested, FullReading;
    var s1 := Next(Initially("A", 1, SEVEN), OpenStream);
    s3 := Next(Next(s1, SendSnapshot(true, ON_AND_UNKNOWN)), AskForMarker);
  }

  lemma SnapshotWithheld(s: System) returns (t: System)
    requires s.wire == [Envelope("A", 1, InitialSnapshot(FullReading(SEVEN, ON_AND_UNKNOWN)), 0)]
    requires s.store == Reduction(EMPTY_STATE, map[]) && s.storeRevision == 0
    requires s.client == Client("A", None, false, NoTask) && s.poll == Idle && !s.missed && s.world.device == SEVEN
    ensures Enabled(s, Deliver) && Enabled(Next(s, Deliver), BeginPoll(false))
    ensures Enabled(Next(Next(s, Deliver), BeginPoll(false)), AnswerPoll(AVAILABLE))
    ensures t == Next(Next(Next(s, Deliver), BeginPoll(false)), AnswerPoll(AVAILABLE))
    ensures t.channel == s.channel && t.world == s.world && t.wire == [] && !t.missed && t.storeRevision == 1
    ensures t.client == Client("A", Some(1), false, NoTask) && Hidden(t.store)
    ensures t.poll.Answered? && !t.poll.byRefresh && !t.poll.atStake && t.poll.base == 1
    ensures t.poll.reading == FullReading(SEVEN, AVAILABLE).(base := Some(1))
  {
    hide Reduce, Rested, Delivered, FullReading, Hidden;
    DeliverIs(s);
    DeliveryFacts(s);
    SnapshotHidden();
    var s1 := Next(s, Deliver);
    assert s1.wire == [];
    hide Next;
    BeginPollIs(s1, false);
    var s2 := Next(s1, BeginPoll(false));
    AnswerPollIs(s2, AVAILABLE);
    t := Next(s2, AnswerPoll(AVAILABLE));
  }

  lemma SnapshotHidden()
    ensures Hidden(Reduce(Reduction(EMPTY_STATE, map[]), FullReading(SEVEN, ON_AND_UNKNOWN), 1))
  {
    hide Reduce;
    var start := Reduction(EMPTY_STATE, map[]);
    FullReadingCarries(SEVEN, ON_AND_UNKNOWN, ConsumptionLimit);
    assert Owner(ConsumptionLimit) == Some(Lpc);
    Reducer.ExplicitStep(start, FullReading(SEVEN, ON_AND_UNKNOWN), 1, ConsumptionLimit);
  }

  lemma DeltaWithheld(s: System) returns (t: System)
    requires s.channel == StreamLoop.Channel("A", 1, EventBus.NewSubscriber("A"), StreamLoop.AtSelect, 1, [], [], 1)
    requires s.wire == [] && s.client == Client("A", Some(1), false, NoTask) && s.world.device == SEVEN && !s.missed
    requires Hidden(s.store) && s.storeRevision == 1
    ensures var change := Change(EventBus.StateUpdated({ConsumptionLimit}), NINE, {ConsumptionLimit});
            && Enabled(s, change) && Enabled(Next(s, change), TakeEvent(PLAIN))
            && Enabled(Next(Next(s, change), TakeEvent(PLAIN)), Deliver)
            && t == Next(Next(Next(s, change), TakeEvent(PLAIN)), Deliver)
    ensures t.channel == StreamLoop.Channel("A", 2, EventBus.NewSubscriber("A"), StreamLoop.AtTop, 1, [2], [], 2)
    ensures t.wire == [] && t.client == Client("A", Some(2), false, NoTask) && t.world.device == NINE && !t.missed
    ensures t.poll == s.poll && Hidden(t.store) && t.storeRevision == 2
  {
    hide Reduce, Rested, Delivered, Reading, Hidden, Stamp;
    var s1 := Next(s, Change(EventBus.StateUpdated({ConsumptionLimit}), NINE, {ConsumptionLimit}));
    var s2 := Next(s1, TakeEvent(PLAIN));
    var e := Envelope("A", 2, Delta(Reading(NINE, {ConsumptionLimit}, PLAIN), false), Clock(s1.world));
    assert s2.wire == [e];
    DeliverIs(s2);
    DeliveryFacts(s2);
    DeltaHidden(s.store);
    t := Next(s2, Deliver);
    assert t.wire == [];
  }

  lemma DeltaHidden(store: Reduction)
    requires Hidden(store)
    ensures Hidden(Reduce(store, Reading(NINE, {ConsumptionLimit}, PLAIN), 2))
  {
    hide Reduce, Reducer.Barred;
    assert Owner(ConsumptionLimit) == Some(Lpc);
    Reducer.NeutralReads(store, Reading(NINE, {ConsumptionLimit}, PLAIN), 2, ConsumptionLimit);
  }

  lemma OldReadingStays(s: System) returns (t: System)
    requires s.channel == StreamLoop.Channel("A", 2, EventBus.NewSubscriber("A"), StreamLoop.AtTop, 1, [2], [], 2)
    requires s.wire == [] && s.client == Client("A", Some(2), false, NoTask) && !s.missed
    requires Hidden(s.store) && s.storeRevision == 2 && s.poll.Answered? && !s.poll.byRefresh && s.poll.base == 1
    requires s.poll.reading == FullReading(SEVEN, AVAILABLE).(base := Some(1))
    ensures Enabled(s, AskForMarker) && Enabled(Next(s, AskForMarker), EndPoll)
    ensures t == Next(Next(s, AskForMarker), EndPoll) && Settled(t) && !t.missed && t.world == s.world
    ensures View(t.store, ConsumptionLimit) == Leaf(Some(7), true, 3)
  {
    hide Reduce, Rested, FullReading, Hidden;
    OldReadingLands(s.store);
    var s1 := Next(s, AskForMarker);
    EndPollIs(s1);
    t := Next(s1, EndPoll);
  }

  lemma OldReadingLands(store: Reduction)
    requires Hidden(store)
    ensures View(Reduce(store, FullReading(SEVEN, AVAILABLE).(base := Some(1)), 3), ConsumptionLimit)
         == Leaf(Some(7), true, 3)
  {
    hide Reduce, Reducer.Barred;
    var o := FullReading(SEVEN, AVAILABLE).(base := Some(1));
    FullReadingCarries(SEVEN, AVAILABLE, ConsumptionLimit);
    CarriesBase(FullReading(SEVEN, AVAILABLE), 1, ConsumptionLimit, SEVEN);
    assert Owner(ConsumptionLimit) == Some(Lpc);
    assert o.results == AVAILABLE.results && o.results[..0] == [];
    assert Reducer.Verdicts(o.results, ConsumptionLimit) == {Available} && LastExplicit(o.results, Lpc)
                                                                           == Some(Available);
    Reducer.VerdictStep(store, o, 3, ConsumptionLimit);
  }
}
