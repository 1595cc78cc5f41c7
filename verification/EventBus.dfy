/**
  The bridge's fan-out event bus: one revision counter per device, one bounded channel per
  subscriber, events dropped on overflow and later replaced by one coalesced resync marker
  (eebus-bridge/internal/eebus/eventbus.go).
 */
module EventBus {
  import opened Common
  import opened State

  const CHANNEL_CAPACITY: nat := 64
  const MAX_DEFERRALS: nat := 64

  /** What an event tells its receiver; the classes of device_state_stream.go. */
  datatype EventType =
    | DiscoveryUpdated
    | ResyncRequired
    | ClassificationUpdated
    | ConnectionChanged(connected: bool)
    | SupportUpdated
    | ProviderAcknowledged
    | StateUpdated(fields: set<StateField>)

  datatype Event = Event(ski: Ski, kind: EventType, revision: nat, dropped: nat)

  /** A subscriber's record and the contents of its channel, oldest event first. */
  datatype Subscriber = Subscriber(
    ski: Ski,
    buffer: seq<Event>,
    droppedTotal: nat,
    pendingDropped: nat,
    resyncDeferrals: nat)

  function NewSubscriber(ski: Ski): Subscriber {
    Subscriber(ski, [], 0, 0, 0)
  }

  predicate Addressed(s: Subscriber, e: Event) {
    s.ski == "" || s.ski == e.ski
  }

  predicate Full(s: Subscriber) {
    |s.buffer| >= CHANNEL_CAPACITY
  }

  predicate Overflows(s: Subscriber, e: Event) {
    Addressed(s, e) && Full(s)
  }

  /** One non-blocking send. */
  function Offer(s: Subscriber, e: Event): Subscriber {
    if !Addressed(s, e) then s
    else if Full(s) then s.(droppedTotal := s.droppedTotal + 1, pendingDropped := s.pendingDropped + 1)
    else s.(buffer := s.buffer + [e])
  }

  /** The marker a subscriber is due now, given the device's current revision. */
  function PendingResync(s: Subscriber, revision: nat): Option<Event> {
    if s.ski == "" || s.pendingDropped == 0 then None
    else if s.buffer != [] && s.resyncDeferrals < MAX_DEFERRALS then None
    else Some(Event(s.ski, ResyncRequired, revision, s.pendingDropped))
  }

  function AfterTakePending(s: Subscriber): Subscriber {
    if s.ski == "" || s.pendingDropped == 0 then s
    else if s.buffer != [] && s.resyncDeferrals < MAX_DEFERRALS then s.(resyncDeferrals := s.resyncDeferrals + 1)
    else s.(pendingDropped := 0, resyncDeferrals := 0)
  }

  /** Events offered one after the other to a subscriber that takes none. */
  function Offered(s: Subscriber, events: seq<Event>): Subscriber {
    if events == [] then s else Offer(Offered(s, events[..|events| - 1]), events[|events| - 1])
  }

  /** The events that concern a subscriber: all of them for one without a device. */
  function Concerning(ski: Ski, events: seq<Event>): seq<Event> {
    if events == [] then []
    else
      var before, last := Concerning(ski, events[..|events| - 1]), events[|events| - 1];
      if ski == "" || last.ski == ski then before + [last] else before
  }

  /** A channel that nobody reads keeps the first 64 events that concern it, in order, and counts the rest. */
  lemma {:induction false} FirstEventsStay(ski: Ski, events: seq<Event>)
    ensures var s, n := Offered(NewSubscriber(ski), events), |Concerning(ski, events)|;
            && s.buffer == Concerning(ski, events)[..Min(n, 64)]
            && s.droppedTotal == s.pendingDropped == n - Min(n, 64)
            && s.ski == ski && s.resyncDeferrals == 0
  {
    if events != [] {
      FirstEventsStay(ski, events[..|events| - 1]);
    }
  }

  function Count(m: map<Ski, nat>, ski: Ski): nat {
    if ski in m then m[ski] else 0
  }

  type ChannelId = nat

  /** The subscribers among the visited ones that lose this event. */
  ghost function MissedBy(subscribers: map<ChannelId, Subscriber>, visited: set<ChannelId>, e: Event): set<ChannelId> {
    set ch | ch in visited && ch in subscribers && Overflows(subscribers[ch], e)
  }

  /** An event on its way round: the visited subscribers have been offered it, the others not yet. */
  ghost predicate Fanned(
    before: map<ChannelId, Subscriber>, now: map<ChannelId, Subscriber>, visited: set<ChannelId>, e: Event)
  {
    && now.Keys == before.Keys
    && forall ch :: ch in before ==> now[ch] == if ch in visited then Offer(before[ch], e) else before[ch]
  }

  lemma FanStep(
    before: map<ChannelId, Subscriber>, now: map<ChannelId, Subscriber>, visited: set<ChannelId>, ch: ChannelId,
    e: Event)
    requires Fanned(before, now, visited, e) && ch in before && ch !in visited
    ensures ch in now && now[ch] == before[ch]
    ensures Fanned(before, now[ch := Offer(now[ch], e)], visited + {ch}, e)
  {
    hide Offer;
  }

  lemma FanStarts(before: map<ChannelId, Subscriber>, e: Event)
    ensures Fanned(before, before, {}, e)
  {
  }

  lemma FanEnds(before: map<ChannelId, Subscriber>, now: map<ChannelId, Subscriber>, e: Event)
    requires Fanned(before, now, before.Keys, e)
    ensures now == map ch | ch in before :: Offer(before[ch], e)
  {
    hide Offer;
  }

  lemma NoneMissed(subscribers: map<ChannelId, Subscriber>, e: Event)
    ensures |MissedBy(subscribers, {}, e)| == 0
  {
    assert MissedBy(subscribers, {}, e) == {};
  }

  lemma MissedByStep(subscribers: map<ChannelId, Subscriber>, visited: set<ChannelId>, ch: ChannelId, e: Event)
    requires ch !in visited && ch in subscribers
    ensures |MissedBy(subscribers, visited + {ch}, e)| ==
            |MissedBy(subscribers, visited, e)| + if Overflows(subscribers[ch], e) then 1 else 0
  {
    assert MissedBy(subscribers, visited + {ch}, e) ==
           MissedBy(subscribers, visited, e) + if Overflows(subscribers[ch], e) then {ch} else {};
  }

  class Bus {
    var subscribers: map<ChannelId, Subscriber>
    var revisions: map<Ski, nat>
    var droppedByDevice: map<Ski, nat>
    var resyncsByDevice: map<Ski, nat>
    var unresolvedEvents: nat
    var nextChannel: ChannelId

    ghost predicate Valid()
      reads this
    {
      forall ch :: ch in subscribers ==> ch < nextChannel && |subscribers[ch].buffer| <= CHANNEL_CAPACITY
    }

    constructor ()
      ensures Valid() && subscribers == map[] && revisions == map[] && unresolvedEvents == 0
    {
      subscribers, revisions, droppedByDevice, resyncsByDevice := map[], map[], map[], map[];
      unresolvedEvents, nextChannel := 0, 0;
    }

    /** Subscribes and reads the device's revision in one step. */
    method SubscribeWithRevision(ski: Ski) returns (ch: ChannelId, revision: nat)
      requires Valid()
      modifies this`subscribers, this`nextChannel
      ensures Valid()
      ensures ch !in old(subscribers) && subscribers == old(subscribers)[ch := NewSubscriber(ski)]
      ensures revision == Count(revisions, ski)
    {
      ch := nextChannel;
      nextChannel := nextChannel + 1;
      subscribers := subscribers[ch := NewSubscriber(ski)];
      revision := Count(revisions, ski);
    }

    method Unsubscribe(ch: ChannelId)
      requires Valid()
      modifies this`subscribers
      ensures Valid() && subscribers == old(subscribers) - {ch}
    {
      if ch in subscribers {
        subscribers := subscribers - {ch};
      }
    }

    /**
      Stamps the event with the device's next revision and offers it to every subscriber. The
      subscribers are visited in an arbitrary order; an event without a device is refused unless it
      reports on the whole list of visible services.
     */
    method Publish(ski: Ski, kind: EventType)
      requires Valid()
      modifies this`subscribers, this`revisions, this`droppedByDevice, this`unresolvedEvents
      ensures Valid()
      ensures ski == "" && kind != DiscoveryUpdated ==>
                && unresolvedEvents == old(unresolvedEvents) + 1
                && subscribers == old(subscribers) && revisions == old(revisions) && droppedByDevice
                                                                                     == old(droppedByDevice)
      ensures !(ski == "" && kind != DiscoveryUpdated) ==>
                var e := Event(ski, kind, Count(old(revisions), ski) + 1, 0);
                && unresolvedEvents == old(unresolvedEvents)
                && revisions == old(revisions)[ski := e.revision]
                && subscribers == (map ch | ch in old(subscribers) :: Offer(old(subscribers)[ch], e))
                && var missed := |MissedBy(old(subscribers), old(subscribers).Keys, e)|;
                forall k :: Count(droppedByDevice, k) == Count(old(droppedByDevice), k) + if k == ski then missed else 0
    {
      if ski == "" && kind != DiscoveryUpdated {
        unresolvedEvents := unresolvedEvents + 1;
        return;
      }
      revisions := revisions[ski := Count(revisions, ski) + 1];
      var e := Event(ski, kind, revisions[ski], 0);
      Fan(e);
    }

    /** Offers the event to every subscriber, in an arbitrary order. */
    method Fan(e: Event)
      requires Valid()
      modifies this`subscribers, this`droppedByDevice
      ensures Valid()
      ensures subscribers == map ch | ch in old(subscribers) :: Offer(old(subscribers)[ch], e)
      ensures var missed := |MissedBy(old(subscribers), old(subscribers).Keys, e)|;
              forall k :: Count(droppedByDevice, k) == Count(old(droppedByDevice), k) + if k == e.ski then missed else 0
    {
      hide Offer, Overflows, Count, MissedBy, Fanned, Valid;
      ghost var before := subscribers;
      ghost var visited: set<ChannelId> := {};
      var todo := subscribers.Keys;
      NoneMissed(before, e);
      assert Fanned(before, subscribers, visited, e) by { FanStarts(before, e); }
      while todo != {}
        invariant Valid() && Fanned(before, subscribers, visited, e)
        invariant visited !! todo && visited + todo == before.Keys
        invariant Count(droppedByDevice, e.ski) == Count(old(droppedByDevice), e.ski) + |MissedBy(before, visited, e)|
        invariant forall k | k != e.ski :: Count(droppedByDevice, k) == Count(old(droppedByDevice), k)
        decreases todo
      {
        var ch :| ch in todo;
        MissedByStep(before, visited, ch, e);
        FanStep(before, subscribers, visited, ch, e);
        todo := todo - {ch};
        visited := visited + {ch};
        Deliver(ch, e);
      }
      assert visited == before.Keys;
      FanEnds(before, subscribers, e);
    }

    method Deliver(ch: ChannelId, e: Event)
      requires Valid() && ch in subscribers
      modifies this`subscribers, this`droppedByDevice
      ensures Valid()
      ensures subscribers == old(subscribers)[ch := Offer(old(subscribers)[ch], e)]
      ensures Count(droppedByDevice, e.ski) ==
              Count(old(droppedByDevice), e.ski) + if Overflows(old(subscribers)[ch], e) then 1 else 0
      ensures forall k | k != e.ski :: Count(droppedByDevice, k) == Count(old(droppedByDevice), k)
    {
      var s := subscribers[ch];
      if !Addressed(s, e) {
        assert subscribers == subscribers[ch := s];
        return;
      }
      if |s.buffer| < CHANNEL_CAPACITY {
        subscribers := subscribers[ch := s.(buffer := s.buffer + [e])];
      } else {
        subscribers := subscribers[ch := s.(droppedTotal := s.droppedTotal + 1,
        pendingDropped := s.pendingDropped + 1)];
        droppedByDevice := droppedByDevice[e.ski := Count(droppedByDevice, e.ski) + 1];
      }
    }

    /** One coalesced marker for the events a scoped subscriber missed, or nothing yet. */
    method TakePendingResync(ch: ChannelId) returns (marker: Option<Event>)
      requires Valid()
      modifies this`subscribers, this`resyncsByDevice
      ensures Valid()
      ensures ch !in old(subscribers) ==>
                marker == None && subscribers == old(subscribers) && resyncsByDevice == old(resyncsByDevice)
      ensures ch in old(subscribers) ==>
                var s := old(subscribers)[ch];
                && marker == PendingResync(s, Count(revisions, s.ski))
                && (marker.Some? <==>
                    s.ski != "" && s.pendingDropped > 0 && (s.buffer == [] || s.resyncDeferrals >= 64))
                && (marker.Some? ==> && marker.value.kind == ResyncRequired && marker.value.ski == s.ski
                                     && marker.value.revision == Count(revisions, s.ski)
                                     && marker.value.dropped == s.pendingDropped)
                && subscribers == old(subscribers)[ch := AfterTakePending(s)]
                && AfterTakePending(s) == (if marker.Some? then s.(pendingDropped := 0, resyncDeferrals := 0)
                                           else if s.ski != "" && s.pendingDropped > 0
                                           then s.(resyncDeferrals := s.resyncDeferrals + 1) else s)
                && (forall k :: Count(resyncsByDevice, k) ==
                                Count(old(resyncsByDevice), k) + if marker.Some? && k == s.ski then 1 else 0)
    {
      if ch !in subscribers {
        return None;
      }
      var s := subscribers[ch];
      if s.ski == "" || s.pendingDropped == 0 {
        assert subscribers == subscribers[ch := s];
        return None;
      }
      if |s.buffer| != 0 && s.resyncDeferrals < MAX_DEFERRALS {
        subscribers := subscribers[ch := s.(resyncDeferrals := s.resyncDeferrals + 1)];
        return None;
      }
      marker := Some(Event(s.ski, ResyncRequired, Count(revisions, s.ski), s.pendingDropped));
      subscribers := subscribers[ch := s.(pendingDropped := 0, resyncDeferrals := 0)];
      resyncsByDevice := resyncsByDevice[s.ski := Count(resyncsByDevice, s.ski) + 1];
    }

    /** The receiving end of a channel: the oldest buffered event, if there is one. */
    method Receive(ch: ChannelId) returns (event: Option<Event>)
      requires Valid()
      modifies this`subscribers
      ensures Valid()
      ensures if ch in old(subscribers) && old(subscribers)[ch].buffer != [] then
                var s := old(subscribers)[ch];
                event == Some(s.buffer[0]) && subscribers == old(subscribers)[ch := s.(buffer := s.buffer[1..])]
              else
                event == None && subscribers == old(subscribers)
    {
      event := None;
      if ch in subscribers && subscribers[ch].buffer != [] {
        var s := subscribers[ch];
        event := Some(s.buffer[0]);
        subscribers := subscribers[ch := s.(buffer := s.buffer[1..])];
      }
    }
  }
}
