/**
  One server stream: a scoped subscription and the loop that moves its channel to the wire, with
  publishers running at any point in between (eebus-bridge/internal/grpc/adapter_helpers.go).
 */
module StreamLoop {
  import opened Common
  import opened EventBus

  /** Where the loop stands: no subscription, before the initial envelope, at its top, or in the select. */
  datatype Loop = Down | Opening | AtTop | AtSelect

  /** The subscription, its device's revision, the loop, and what the loop has done so far. */
  datatype Channel = Channel(
    ski: Ski,
    revision: nat,
    sub: Subscriber,
    loop: Loop,
    subscribedAt: nat,
    received: seq<nat>,
    markers: seq<nat>,
    sentTip: nat)

  datatype Step = Publish(kind: EventType) | Open | SendInitial | TakeMarker | Receive | Lose

  predicate Enabled(c: Channel, step: Step) {
    match step
    case Publish(kind) => kind != DiscoveryUpdated
    case Open => c.loop == Down
    case SendInitial => c.loop == Opening
    case TakeMarker => c.loop == AtTop
    case Receive => c.loop == AtSelect && c.sub.buffer != []
    case Lose => c.loop != Down
  }

  function NewEvent(c: Channel, kind: EventType): Event {
    Event(c.ski, kind, c.revision + 1, 0)
  }

  function Next(c: Channel, step: Step): Channel
    requires Enabled(c, step)
  {
    match step
    case Publish(kind) =>
      c.(revision := c.revision + 1, sub := if c.loop == Down then c.sub else Offer(c.sub, NewEvent(c, kind)))
    case Open =>
      Channel(c.ski, c.revision, NewSubscriber(c.ski), Opening, c.revision, [], [], 0)
    case SendInitial =>
      c.(loop := AtTop, sentTip := c.subscribedAt)
    case TakeMarker =>
      var after := c.(sub := AfterTakePending(c.sub));
      var marker := PendingResync(c.sub, c.revision);
      if marker.None? then after.(loop := AtSelect)
      else after.(markers := c.markers + [marker.value.dropped], sentTip := marker.value.revision)
    case Receive =>
      var e := c.sub.buffer[0];
      c.(sub := c.sub.(buffer := c.sub.buffer[1..]), loop := AtTop, received := c.received + [e.revision],
      sentTip := if e.revision > c.sentTip then e.revision else c.sentTip)
    case Lose =>
      c.(loop := Down)
  }

  function Initially(ski: Ski, revision: nat): Channel {
    Channel(ski, revision, NewSubscriber(ski), Down, revision, [], [], 0)
  }

  predicate Increasing(s: seq<nat>) {
    forall i, j :: 0 <= i < j < |s| ==> s[i] < s[j]
  }

  /** The revisions that went into the channel: those received from it, then those still buffered. */
  function Passed(c: Channel): seq<nat> {
    c.received + Revisions(c.sub.buffer)
  }

  function Revisions(buffer: seq<Event>): seq<nat> {
    seq(|buffer|, i requires 0 <= i < |buffer| => buffer[i].revision)
  }

  /** The channel holds increasing revisions, all of them later than anything received from it. */
  predicate Ordered(c: Channel) {
    && Increasing(Passed(c))
    && forall i :: 0 <= i < |Passed(c)| ==> c.subscribedAt < Passed(c)[i] <= c.revision
  }

  /** Every published event since subscribing is received, buffered or dropped; every drop is pending or announced. */
  predicate Conserved(c: Channel) {
    && |c.received| + |c.sub.buffer| + c.sub.droppedTotal == c.revision - c.subscribedAt
    && c.sub.droppedTotal == c.sub.pendingDropped + Sum(c.markers)
  }

  /** A loop waiting in its select has something to wake it whenever drops are pending. */
  predicate Wakeful(c: Channel) {
    c.loop == AtSelect && c.sub.pendingDropped > 0 ==> c.sub.buffer != []
  }

  /** The latest revision is still buffered, or pending as a drop, or already sent. */
  predicate TipKept(c: Channel) {
    || (c.loop == Opening && c.revision == c.subscribedAt)
    || (c.sub.buffer != [] && c.sub.buffer[|c.sub.buffer| - 1].revision == c.revision)
    || c.sub.pendingDropped > 0
    || (c.loop != Opening && c.sentTip == c.revision)
  }

  predicate Bounded(c: Channel) {
    && c.sub.ski == c.ski != ""
    && |c.sub.buffer| <= CHANNEL_CAPACITY
    && c.sub.resyncDeferrals <= MAX_DEFERRALS
    && c.subscribedAt <= c.revision
    && (c.loop == Opening ==> c.received == [] && c.markers == [])
    && (c.loop != Opening ==> c.subscribedAt <= c.sentTip <= c.revision)
    && (forall i :: 0 <= i < |c.sub.buffer| ==> c.sub.buffer[i].ski == c.ski)
  }

  predicate Sound(c: Channel) {
    && c.ski != ""
    && (c.loop != Down ==> Bounded(c) && Ordered(c) && Conserved(c) && Wakeful(c) && TipKept(c))
  }

  lemma StepKeepsOrder(c: Channel, step: Step)
    requires Bounded(c) && Ordered(c) && Enabled(c, step) && step != Lose && c.loop != Down
    ensures Ordered(Next(c, step))
  {
    var d := Next(c, step);
    match step
    case Publish(kind) =>
      assert Passed(d) == Passed(c) || Passed(d) == Passed(c) + [d.revision];
    case Receive =>
      assert Passed(d) == Passed(c);
    case TakeMarker =>
      assert Passed(d) == Passed(c);
    case _ =>
  }

  lemma StepKeepsCount(c: Channel, step: Step)
    requires Bounded(c) && Conserved(c) && Enabled(c, step) && step != Lose && c.loop != Down
    ensures Conserved(Next(c, step))
  {
    var d := Next(c, step);
    assert d.markers != c.markers && d.markers != [] ==> d.markers[..|d.markers| - 1] == c.markers;
  }

  lemma StepKeepsRest(c: Channel, step: Step)
    requires Bounded(c) && Ordered(c) && Wakeful(c) && TipKept(c) && Enabled(c, step) && step != Lose && c.loop != Down
    ensures var d := Next(c, step);
            Bounded(d) && Wakeful(d) && TipKept(d)
  {
    match step
    case Receive =>
      assert Passed(c)[|c.received|] == c.sub.buffer[0].revision;
    case _ =>
  }

  lemma StepKeepsSound(c: Channel, step: Step)
    requires Sound(c) && Enabled(c, step)
    ensures Sound(Next(c, step))
  {
    if c.loop != Down && step != Lose {
      hide Bounded, Ordered, Conserved, Wakeful, TipKept;
      StepKeepsOrder(c, step);
      StepKeepsCount(c, step);
      StepKeepsRest(c, step);
    }
  }

  // ------------------------------------------------------------------ runs

  predicate Runnable(c: Channel, steps: seq<Step>)
    decreases |steps|
  {
    steps == [] || (Enabled(c, steps[0]) && Runnable(Next(c, steps[0]), steps[1..]))
  }

  function Run(c: Channel, steps: seq<Step>): Channel
    requires Runnable(c, steps)
    decreases |steps|
  {
    if steps == [] then c else Run(Next(c, steps[0]), steps[1..])
  }

  lemma {:induction false} RunKeepsSound(c: Channel, steps: seq<Step>)
    requires Sound(c) && Runnable(c, steps)
    ensures Sound(Run(c, steps))
    decreases |steps|
  {
    hide Sound;
    if steps != [] {
      StepKeepsSound(c, steps[0]);
      RunKeepsSound(Next(c, steps[0]), steps[1..]);
    }
  }

  /** Over any run: conservation, channel order, no lost wake-up, and deferrals within their cap. */
  lemma StreamConserves(ski: Ski, revision: nat, steps: seq<Step>)
    requires ski != "" && Runnable(Initially(ski, revision), steps)
    ensures var c := Run(Initially(ski, revision), steps);
            c.loop != Down ==>
              && |c.received| + |c.sub.buffer| + c.sub.droppedTotal == c.revision - c.subscribedAt
              && c.sub.droppedTotal == c.sub.pendingDropped + Sum(c.markers)
              && Ordered(c)
              && !(c.loop == AtSelect && c.sub.buffer == [] && c.sub.pendingDropped > 0)
              && c.sub.resyncDeferrals <= MAX_DEFERRALS
  {
    RunKeepsSound(Initially(ski, revision), steps);
  }

  function Turns(steps: seq<Step>): nat {
    if steps == [] then 0 else (if steps[0] == TakeMarker then 1 else 0) + Turns(steps[1..])
  }

  /** A stream that stays up: no loss, no new subscription. */
  predicate StaysUp(steps: seq<Step>) {
    forall i :: 0 <= i < |steps| ==> steps[i].Publish? || steps[i] == TakeMarker || steps[i] == Receive
  }

  /** Until a marker goes out, a pending drop stays pending and every turn of the loop uses up a deferral. */
  lemma {:induction false} TurnsUseUpDeferrals(c: Channel, steps: seq<Step>)
    requires Sound(c) && c.loop != Down && Runnable(c, steps) && StaysUp(steps)
    requires c.sub.pendingDropped > 0
    ensures var d := Run(c, steps);
            || |d.markers| > |c.markers|
            || (d.sub.pendingDropped > 0 && |d.markers| == |c.markers| &&
                d.sub.resyncDeferrals == c.sub.resyncDeferrals + Turns(steps))
    decreases |steps|
  {
    if steps != [] {
      var d := Next(c, steps[0]);
      StepKeepsSound(c, steps[0]);
      if |d.markers| == |c.markers| {
        TurnsUseUpDeferrals(d, steps[1..]);
      } else {
        MarkersStay(d, steps[1..]);
      }
    }
  }

  lemma {:induction false} MarkersStay(c: Channel, steps: seq<Step>)
    requires Runnable(c, steps) && StaysUp(steps)
    ensures |Run(c, steps).markers| >= |c.markers|
    decreases |steps|
  {
    if steps != [] {
      MarkersStay(Next(c, steps[0]), steps[1..]);
    }
  }

  /** However fast publishers overflow the channel, 65 turns of the loop put a pending drop on the wire. */
  lemma DropsAnnouncedInTime(c: Channel, steps: seq<Step>)
    requires Sound(c) && c.loop != Down && Runnable(c, steps) && StaysUp(steps)
    requires c.sub.pendingDropped > 0 && Turns(steps) > MAX_DEFERRALS
    ensures |Run(c, steps).markers| > |c.markers|
  {
    TurnsUseUpDeferrals(c, steps);
    RunKeepsSound(c, steps);
    StillUp(c, steps);
  }

  lemma {:induction false} StillUp(c: Channel, steps: seq<Step>)
    requires Runnable(c, steps) && StaysUp(steps) && c.loop != Down
    ensures Run(c, steps).loop != Down
    decreases |steps|
  {
    if steps != [] {
      StillUp(Next(c, steps[0]), steps[1..]);
    }
  }

  // ------------------------------------------------------------------ the loop itself

  /** What a publish makes of the bus's counters and channels. */
  ghost predicate Told(
    revisions: map<Ski, nat>, subscribers: map<ChannelId, Subscriber>,
    revisions': map<Ski, nat>, subscribers': map<ChannelId, Subscriber>, device: Ski, kind: EventType)
  {
    var e := Event(device, kind, Count(revisions, device) + 1, 0);
    && revisions' == revisions[device := e.revision]
    && subscribers' == map c | c in subscribers :: Offer(subscribers[c], e)
  }

  /**
    One stream served from a bus that it shares with others. Every method takes exactly one step of the
    channel machine, and leaves every other channel of the bus as it was.
   */
  class StreamServer {
    const bus: Bus
    const ski: Ski
    var ch: ChannelId
    var loop: Loop
    var subscribedAt: nat
    /** What the loop has done on this stream, and the record its last stream ended with. */
    ghost var received: seq<nat>
    ghost var markers: seq<nat>
    ghost var sentTip: nat
    ghost var ended: Subscriber

    ghost predicate Valid()
      reads this, bus
    {
      && bus.Valid() && ski != ""
      && (loop != Down ==> ch in bus.subscribers && bus.subscribers[ch].ski == ski)
    }

    /** The stream as the channel machine sees it. */
    ghost function View(): Channel
      reads this, bus
      requires Valid()
    {
      Channel(ski, Count(bus.revisions, ski), if loop == Down then ended else bus.subscribers[ch], loop,
              subscribedAt, received, markers, sentTip)
    }

    /** A step touched the bus in this server's own channel only. */
    twostate predicate OnlyOwn()
      reads this, bus
    {
      bus.revisions == old(bus.revisions) && bus.subscribers - {ch} == old(bus.subscribers) - {ch}
    }

    constructor (bus: Bus, ski: Ski)
      requires bus.Valid() && ski != ""
      ensures this.bus == bus && this.ski == ski
      ensures Valid() && View() == Initially(ski, Count(bus.revisions, ski))
    {
      this.bus, this.ski, loop, ch := bus, ski, Down, 0;
      subscribedAt := Count(bus.revisions, ski);
      received, markers, sentTip, ended := [], [], 0, NewSubscriber(ski);
    }

    /** Subscribes; the stream will announce the revision read in the same step. */
    method Start()
      requires Valid() && loop == Down
      modifies this, bus
      ensures Valid() && View() == Next(old(View()), Open)
      ensures OnlyOwn() && ch !in old(bus.subscribers)
    {
      ch, subscribedAt := bus.SubscribeWithRevision(ski);
      loop := Opening;
      received, markers, sentTip := [], [], 0;
    }

    method SendFirst() returns (revision: nat)
      requires Valid() && loop == Opening
      modifies this
      ensures Valid() && View() == Next(old(View()), SendInitial) && revision == sentTip
      ensures OnlyOwn() && ch == old(ch)
    {
      revision := subscribedAt;
      loop := AtTop;
      sentTip := subscribedAt;
    }

    /** The top of the loop: a due marker is sent and the loop starts over, otherwise it goes on to wait. */
    method AskForMarker() returns (marker: Option<Event>)
      requires Valid() && loop == AtTop
      modifies this, bus
      ensures Valid() && View() == Next(old(View()), TakeMarker)
      ensures marker == PendingResync(old(View()).sub, old(View()).revision)
      ensures marker.Some? ==> && marker.value.kind == ResyncRequired && marker.value.ski == ski
                               && marker.value.revision == Count(bus.revisions, ski)
                               && marker.value.dropped == old(View()).sub.pendingDropped > 0
      ensures OnlyOwn() && ch == old(ch)
    {
      marker := bus.TakePendingResync(ch);
      if marker.None? {
        loop := AtSelect;
      } else {
        markers := markers + [marker.value.dropped];
        sentTip := marker.value.revision;
      }
    }

    /** The select with something to receive. */
    method TakeEvent() returns (e: Event)
      requires Valid() && loop == AtSelect && View().sub.buffer != []
      modifies this, bus
      ensures Valid() && View() == Next(old(View()), Receive) && e == old(View()).sub.buffer[0]
      ensures OnlyOwn() && ch == old(ch)
    {
      var event := bus.Receive(ch);
      e := event.value;
      loop := AtTop;
      received := received + [e.revision];
      sentTip := if e.revision > sentTip then e.revision else sentTip;
    }

    method Stop()
      requires Valid() && loop != Down
      modifies this, bus
      ensures Valid() && View() == Next(old(View()), Lose)
      ensures OnlyOwn() && ch == old(ch)
    {
      ended := bus.subscribers[ch];
      bus.Unsubscribe(ch);
      loop := Down;
    }

    /** A step of this server on its own channel leaves every other server of the bus where it stood. */
    twostate lemma BesideOthers(other: StreamServer)
      requires other != this && other.bus == bus && unchanged(other)
      requires old(other.Valid()) && bus.Valid() && OnlyOwn()
      requires other.loop != Down ==> other.ch != ch
      ensures other.Valid() && other.View() == old(other.View())
    {
      if other.loop != Down {
        assert other.ch in old(bus.subscribers) - {ch};
        assert (bus.subscribers - {ch})[other.ch] == (old(bus.subscribers) - {ch})[other.ch];
      }
    }

    /** Any publisher, while the loop stands anywhere: only its own device's events reach this stream. */
    method Publish(device: Ski, kind: EventType)
      requires Valid()
      modifies bus
      ensures Valid()
      ensures device != ski ==> View() == old(View())
      ensures device == ski && kind != DiscoveryUpdated ==> View() == Next(old(View()), Step.Publish(kind))
      ensures device != "" || kind == DiscoveryUpdated ==>
                Told(old(bus.revisions), old(bus.subscribers), bus.revisions, bus.subscribers, device, kind)
    {
      bus.Publish(device, kind);
    }
  }

  /** Two servers of one bus: the one keeps its place while the other opens a stream, ... */
  method StartBeside(a: StreamServer, b: StreamServer)
    requires a != b && a.bus == b.bus && a.Valid() && b.Valid() && a.loop == Down
    modifies a, a.bus
    ensures a.Valid() && a.View() == Next(old(a.View()), Open)
    ensures b.Valid() && b.View() == old(b.View()) && (b.loop != Down ==> a.ch != b.ch)
  {
    label Before:
    a.Start();
    a.BesideOthers@Before(b);
  }

  /** ... while the other asks for a marker, ... */
  method AskBeside(a: StreamServer, b: StreamServer) returns (marker: Option<Event>)
    requires a != b && a.bus == b.bus && a.Valid() && b.Valid() && a.loop == AtTop && (b.loop != Down ==> a.ch != b.ch)
    modifies a, a.bus
    ensures a.Valid() && a.View() == Next(old(a.View()), TakeMarker)
    ensures b.Valid() && b.View() == old(b.View()) && (b.loop != Down ==> a.ch != b.ch)
  {
    label Before:
    marker := a.AskForMarker();
    a.BesideOthers@Before(b);
  }

  /** ... and both hear of a publish, each of its own device's only. */
  method PublishToBoth(a: StreamServer, b: StreamServer, device: Ski, kind: EventType)
    requires a.bus == b.bus && a.Valid() && b.Valid() && device != "" && kind != DiscoveryUpdated
    modifies a.bus
    ensures a.Valid() && a.View() == if device == a.ski then Next(old(a.View()), Step.Publish(kind)) else old(a.View())
    ensures b.Valid() && b.View() == if device == b.ski then Next(old(b.View()), Step.Publish(kind)) else old(b.View())
  {
    a.Publish(device, kind);
  }
}
