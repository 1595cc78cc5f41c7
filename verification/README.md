# EEBUS bridge and Home Assistant client: a verified model

A Go bridge publishes device state over a revisioned, lossy event stream; a Home Assistant client
follows it, and both sides keep small state machines whose correctness is a matter of whole runs.
This project models those machines in Dafny and proves what they promise. Objects that the code
updates in place are classes whose methods are proved against specification functions; the
properties of whole runs are lemmas about those functions.

| module | models |
|---|---|
| `EventBus`, `StreamLoop` | the per-device event bus with 64-slot channels, coalesced resync markers, and the server's stream loop |
| `DeviceStreams` | the client's duplicate filter, gap detection and coalesced refresh task |
| `State`, `Reducer`, `Legacy`, `DeviceStore` | the observation reducer, its per-leaf laws, results without explicit states, and the re-entrant store |
| `Transport`, `Convergence` | device, bus, loop, wire, client, polls and reducer together, in any interleaving |
| `Readings`, `OwnedLeaves` | what each leaf rests on in every reachable state, and agreement for leaves that a capability owns |
| `Registry`, `RegistryRuns` | catalog, health and capability projections, tombstones and outages |
| `HealthEvidence`, `CapabilityTrace` | what health verdicts and capability entries rest on, read off the trace of callbacks |
| `Recovery`, `RecoveryRuns`, `RecoveryEvidence` | the per-device recovery supervisor, what ends a recovery, and the restart request |
| `Provider`, `ProviderRuns` | the grid provider's versioned sample, timers, wire and advertised availability |
| `Ledger` | the startup ledger with reverse rollback |
| `Runtimes` | reference-counted runtimes under setup, reload and unload |

Places where a promise does not hold of the code as it stands. Each has a theorem that says, within
the limits named under "Left out", exactly when it does hold, and a run that reaches the failure:

- A refresh whose poll fails is not retried, and some leaves change without an event (compressor
  temperature and power and the heating and hot-water energy are read by snapshots and polls alone, and
  losing a use case takes readings away unannounced). The client then stays behind until the next reading.
  It agrees on an unowned leaf exactly while the reading that the leaf rests on still holds
  (`Readings.LeafShowsItsReading`; `Convergence.FailedPollLosesRefresh`,
  `Convergence.UnannouncedChangeGoesUnseen`, `Convergence.LatestPollIsOverruled`).
- The explicit contract withholds readings of an owned leaf without a stamp, so an announced change can be
  lost with no refresh owed, and a poll's older reading can overwrite it (`Reducer.LatePollWithVerdicts`,
  `OwnedLeaves.SettledOwnedLeafAgrees`; `Reducer.LatePollOverwritesWithheld`,
  `OwnedLeaves.WithheldChangeIsLost`).
- A fresh leaf does not mean an available capability (`Reducer.FreshOutlivesAvailability`,
  `Reducer.FreshIsAvailableOrUnknown`; `Reducer.UnknownKeepsFreshness`).
- The reducer asks whether a leaf is newer after its own loops have stamped the table, so a legacy
  poll that read a capability's leaves never makes that capability available
  (`Legacy.LegacyPollTells`; `Reducer.SuccessfulLegacyReadStaysUnknown`).
- A device known only through a trust grant counts as disconnected although its capabilities were
  never taken down, so its table is not frozen (`RegistryRuns.FrozenExactlyWhenDark`;
  `RegistryRuns.TrustAloneIsNotDark`).
- A failed expiry write is never retried, so an outdated sample stays advertised until the next
  publish or close (`ProviderRuns.ExpiryHasOneChance`; `ProviderRuns.FailedExpiryStaysAdvertised`), and
  registering a provider after it has announced something breaks the agreement with its sample
  (`ProviderRuns.AddUseCaseAgrees`; `ProviderRuns.RegisteredAfterClose`).

Concurrency is interleaving: one step is one section under a lock, or one stretch of a coroutine
without an await. Device identities are already canonical, times are natural numbers with 0 as the
zero time, and values of leaves, readings and errors are opaque.

## Model

| member | source | states |
|---|---|---|
| `Transport.NoSilentLoss` | eebus-bridge/internal/eebus/eventbus.go:57-137 | Over every interleaving of changes, drops, markers, deliveries, polls, failures and reconnects: a quiescent client stands at the device's revision, and every revision since it subscribed was handled as an event or already published when a refresh was signalled, and since the latest signal a poll has begun or is still owed |
| `Convergence.SettledClientAgrees` | custom_components/eebus/device_streams.py:318-390 | End to end over every run, announced and unannounced changes mixed: a settled client shows every followed leaf as the device had it at the reading the leaf rests on, with no announced change since; so it shows the device as it is if and only if that reading still holds, which is so whenever the last unannounced change came before it. Nothing but a refresh whose poll failed, with no successful poll since, makes it miss an announcement |
| `Convergence.AnnouncedLeafAgrees` | custom_components/eebus/device_streams.py:339-390 | A leaf whose every change is announced agrees with the device in every settled state that missed nothing |
| `Convergence.UnannouncedChangeGoesUnseen` | eebus-bridge/internal/grpc/monitoring_service.go:341-349 | A concrete run: a compressor temperature, which only snapshots and polls read, changes between polls and the client goes on showing the old value as fresh |
| `Convergence.LatestPollIsOverruled` | custom_components/eebus/state.py:361-379 | A concrete run: a successful poll that read the device after the change is overruled by a snapshot read before it, so it is the reading a leaf rests on that counts, not the latest poll |
| `Convergence.ScheduledPollUpdates` | custom_components/eebus/snapshot.py:897-928 | A scheduled poll of a settled client brings every followed leaf up to date, announced or not |
| `Convergence.EveryRunCanAgree` | eebus-bridge/internal/grpc/adapter_helpers.go:144-170 | From every reachable state there is a continuation without any further change after which the client agrees with the device on a followed leaf, announced or not: the protocol never gets stuck |
| `Convergence.FailedPollLosesRefresh` | custom_components/eebus/device_streams.py:328-337 | The exception is real: a concrete run in which the refresh poll fails, nothing retries it, and the settled client never learns the device's value |
| `Readings.LeafShowsItsReading` | custom_components/eebus/state.py:365-384 | The exact condition in every reachable state, settled or not and whatever polls failed: a followed leaf that was never read agrees with the device if and only if the device has no value there; any other shows the device as of its reading, so it agrees if and only if that reading still holds, and shows all that was announced if and only if the last announced change came before the reading |
| `Readings.FreshLeafIsTrue` | custom_components/eebus/state.py:365-384 | In every reachable state a fresh leaf, owned or not, shows a value that the device had at the reading the leaf rests on |
| `Readings.ConnectionLands` | custom_components/eebus/device_streams.py:507-525 | In every reachable state an accepted connection envelope leaves the Connected leaf fresh, with the value that the device had right after the change the event reports |
| `Readings.RunKeepsTruth` | custom_components/eebus/state.py:341-424 | Invariant over runs: every reading on the wire or in a poll is true of its own instant, every connection event of the moment it was published, and every leaf of the reading it rests on |
| `OwnedLeaves.SettledOwnedLeafAgrees` | custom_components/eebus/state.py:365-416 | End to end for capability-owned leaves too: a settled client that missed nothing shows a fresh leaf true to its reading, with nothing announced since, unless a reading taken since that announcement was withheld; it agrees with the device if and only if its reading still holds |
| `OwnedLeaves.WithheldChangeIsLost` | custom_components/eebus/state.py:369-376 | A concrete run: a delta withheld by the contract loses an announced change of the consumption limit with no refresh owed, and an older reading that a poll brings is shown as fresh |
| `OwnedLeaves.CapabilityLands` | custom_components/eebus/device_streams.py:366-372 | An accepted capability change puts the explicit contract in force and gives the capability the last state named for it; each of its leaves is emptied, made stale or left alone by what the results say |
| `Convergence.NextToSettleProgresses` | eebus-bridge/internal/grpc/adapter_helpers.go:144-170 | While the client is not settled some step other than a change is possible, and it lowers a lexicographic rank |
| `Convergence.RunKeepsLeaf` | custom_components/eebus/state.py:341-384 | Invariant over runs: an announced change to a leaf is still on its way, owed by a refresh, fetched by a poll under way, lost to a refresh's failed poll, or learned by the store; the device's history and the instants of the readings are kept right |
| `Transport.StepKeepsStream` | custom_components/eebus/device_streams.py:339-390 | Every step of bus, loop, wire, client and poll keeps the joint invariant: nothing ahead of what was sent, the newest thing sent still arriving, every revision accounted for, every signal answered |
| `Transport.HandlerFacts` | custom_components/eebus/device_streams.py:318-390 | Handling an envelope never loses an owed refresh, and a gap or a marker always leaves one owed |
| `DeviceStreams.HandlerAsks` | custom_components/eebus/device_streams.py:339-364 | Exactly when handling an envelope asks for a refresh, and what that leaves of the refresh task: never for an old revision or another device; on a gap, a resync, a connection event, an unclassified measurement or an empty envelope |
| `Transport.MarkerSignals` | eebus-bridge/internal/grpc/device_state_stream.go:121-122 | Whatever marker the bus returns converts to an envelope at the device's revision, and a client that accepts it owes a refresh |
| `Transport.MarkerIsSent` | eebus-bridge/internal/grpc/adapter_helpers.go:145-154 | Asking for a marker puts one on the wire exactly when drops are pending and the channel is empty or 64 deferrals are used up, and every client behind it will owe a refresh |
| `Transport.EventEffects` | eebus-bridge/internal/grpc/device_state_stream.go:166-203 | From event to effect, through conversion and handling: which kinds of event ask for a refresh, and what each brings to the store, leaf by leaf |
| `StreamLoop.StreamConserves` | eebus-bridge/internal/eebus/eventbus.go:86-137 | Over every run: received + buffered + dropped equals device revision minus subscription revision, drops equal pending plus announced, channel contents increase above everything received, no wait on an empty channel with drops pending, deferrals at most 64 |
| `StreamLoop.DropsAnnouncedInTime` | eebus-bridge/internal/eebus/eventbus.go:115-137 | However fast publishers overflow the channel, a pending drop is announced within 65 turns of the loop |
| `StreamLoop.TurnsUseUpDeferrals` | eebus-bridge/internal/grpc/adapter_helpers.go:144-154 | Until a marker goes out every turn of the loop uses up exactly one deferral and the drop stays pending |
| `StreamLoop.StepKeepsSound` | eebus-bridge/internal/grpc/adapter_helpers.go:138-170 | Each publish, subscription, marker, receive or loss keeps order, conservation, wake-up and the latest revision's trace |
| `StreamLoop.StreamServer.AskForMarker` | eebus-bridge/internal/grpc/adapter_helpers.go:145-154 | The top of the loop takes exactly the marker step of the channel machine, sends what the bus returned, a resync at the device's revision with the pending drops, and leaves every other channel of the bus as it was |
| `StreamLoop.StreamServer.TakeEvent` | eebus-bridge/internal/grpc/adapter_helpers.go:155-166 | The receiving branch takes the oldest buffered event, and leaves every other channel of the bus as it was |
| `StreamLoop.StreamServer.Publish` | eebus-bridge/internal/eebus/eventbus.go:86-109 | A publish reaches this stream as one step of its channel machine if it is for this device and not at all otherwise; every channel of the bus is offered it |
| `StreamLoop.StreamServer.BesideOthers` | eebus-bridge/internal/grpc/adapter_helpers.go:138-170 | A step of one server on its own channel leaves every other server of the bus valid and where it stood |
| `StreamLoop.PublishToBoth` | eebus-bridge/internal/eebus/eventbus.go:86-109 | Two servers of one bus both hear of a publish, each of its own device's only |
| `StreamLoop.StartBeside` | eebus-bridge/internal/eebus/eventbus.go:57-65 | Opening a stream gets a channel of its own and leaves another server where it stood |
| `EventBus.Bus.SubscribeWithRevision` | eebus-bridge/internal/eebus/eventbus.go:57-65 | Subscribes a fresh empty channel and returns the device's current revision in the same step |
| `EventBus.Bus.Publish` | eebus-bridge/internal/eebus/eventbus.go:86-109 | Rejects events without a device, numbers the others per device, offers each to exactly the addressed subscribers, and counts exactly the drops |
| `EventBus.FirstEventsStay` | eebus-bridge/internal/eebus/eventbus.go:95-108 | A channel that nobody reads keeps the first 64 events that concern its subscriber, in order, and counts the rest as dropped; a subscriber without a device is concerned by all |
| `EventBus.Bus.TakePendingResync` | eebus-bridge/internal/eebus/eventbus.go:115-137 | One coalesced marker, a resync event at the device's current revision for all pending drops, exactly when the channel is empty or 64 deferrals are used up; otherwise one more deferral, or nothing |
| `EventBus.Bus.Unsubscribe` | eebus-bridge/internal/eebus/eventbus.go:68-75 | Removes one subscriber and leaves every other untouched |
| `DeviceStreams.Streams.HandleDeviceStateEvent` | custom_components/eebus/device_streams.py:339-390 | The duplicate filter, gap detection, refresh signal and dispatch of one envelope |
| `DeviceStreams.Streams.Refresh` | custom_components/eebus/device_streams.py:318-326 | Starts the refresh task or marks the running one for a trailing pass |
| `DeviceStreams.Streams.EndPass` | custom_components/eebus/device_streams.py:328-337 | A pass ends the refresh, or begins the one trailing pass that a signal asked for meanwhile |
| `DeviceStreams.Streams.OpenStream` | custom_components/eebus/device_streams.py:194-195 | A new stream forgets the last revision and nothing else |
| `State.ReduceObservation` | custom_components/eebus/state.py:341-424 | The mutating loops, in whatever order the sets are visited, equal the pointwise specification, including the revision table changed in place |
| `State.FoldObserved` | custom_components/eebus/state.py:365-379 | The observed loop equals its pointwise specification although is_newer reads the table being written |
| `State.FoldUnavailable` | custom_components/eebus/state.py:381-384 | The unavailable loop equals its pointwise specification |
| `State.FoldResults` | custom_components/eebus/state.py:388-416 | The capability loop equals its fold, stamps included |
| `Reducer.NewerLeafKept` | custom_components/eebus/state.py:361-416 | A leaf newer than the poll keeps value, freshness and revision, unless an explicit UNSUPPORTED empties it or an explicit TEMPORARILY_UNAVAILABLE makes it stale |
| `Reducer.UnnamedLeafKept` | custom_components/eebus/state.py:388-416 | Results never touch a leaf whose capability they do not name |
| `Reducer.ResultsCommute` | custom_components/eebus/state.py:388-416 | Results about different capabilities commute on every leaf |
| `Legacy.LegacyResultDecides` | custom_components/eebus/state.py:264-284 | On the whole reducer, for a legacy result that is the only one about its capability, in a stream observation or a poll not overtaken: the capability it leaves for each status, the stickiness of UNSUPPORTED and its lift by explicit support, and whether the leaf is emptied, made stale or shows what was read |
| `Legacy.LegacyRunTells` | custom_components/eebus/state.py:264-284 | Over any run of an older bridge's stream: a capability is UNSUPPORTED from an Unimplemented on until a result with explicit support lifts it, and otherwise what the last telling result said |
| `Legacy.LegacyPollTells` | custom_components/eebus/state.py:361-401 | What a legacy poll leaves of a capability: its state as it was if any leaf of it is newer than the base or was read by the poll itself; otherwise what its results say, up to the first that stamps the leaves |
| `Legacy.LastWordStands` | custom_components/eebus/state.py:347-350 | Over any run the contract in force is the last one stated, and a capability's metadata are those of the last explicit state named for it |
| `Reducer.SuccessfulLegacyReadStaysUnknown` | custom_components/eebus/state.py:388-401 | A concrete first, successful legacy read of the consumption limit shows the limit and leaves its capability Unknown |
| `Reducer.LatePollCommutes` | custom_components/eebus/snapshot.py:897-928 | Stream observations first and the poll last gives a leaf the same freshness, and the same value when fresh, as the poll first and the stream after it: every leaf without an owning capability, and every owned one while the contract flag stands and no result names its capability |
| `Reducer.LatePollWithVerdicts` | custom_components/eebus/state.py:361-416 | Where the poll does speak on the capability of an owned leaf under the explicit contract: exactly when the two orders still agree, read off the poll, the stream and whether the contract withheld the leaf |
| `Reducer.LatePollOverwritesWithheld` | custom_components/eebus/state.py:369-376 | They do not always: a concrete delta withheld without a stamp, and a poll with an older reading and an explicit AVAILABLE that overwrites it |
| `Reducer.StreamDecides` | custom_components/eebus/state.py:365-384 | From any two starting points under one contract the same stream leaves the same reading of a leaf that it touches |
| `Reducer.UnsupportedIsEmpty` | custom_components/eebus/state.py:408-412 | While the explicit contract stays on, an UNSUPPORTED capability has all its leaves empty and stale in every reachable state |
| `Reducer.FreshNeedsAvailable` | custom_components/eebus/state.py:369-378 | Under the explicit contract a capability-owned leaf that turns fresh in a step has its capability AVAILABLE after that step |
| `Reducer.FreshIsAvailableOrUnknown` | custom_components/eebus/state.py:365-416 | Over every explicit-contract run a fresh owned leaf has its capability AVAILABLE or UNKNOWN |
| `Reducer.FreshOutlivesAvailability` | custom_components/eebus/state.py:413-416 | Exactly when a step leaves a leaf fresh without its capability AVAILABLE: an explicit UNKNOWN has the last word, no other verdict of the observation retires the leaf, and its own reads leave the leaf alone |
| `Reducer.UnknownKeepsFreshness` | custom_components/eebus/state.py:413-416 | That this happens: a concrete run in which an explicit UNKNOWN leaves its leaf fresh |
| `Reducer.ExplicitStep` | custom_components/eebus/state.py:350-416 | What one observation leaves of a capability and each of its leaves under the explicit contract |
| `Reducer.RevisionsGrow` | custom_components/eebus/state.py:379-416 | Over any run leaf revisions never decrease nor exceed the store's revision |
| `DeviceStore.DeviceStateStore.Dispatch` | custom_components/eebus/state.py:452-472 | With a callback that dispatches again any number of times and may raise: everything is reduced once, in enqueue order, with consecutive revisions; the state stays the left fold of the reducer; it raises exactly when a reaction reached by the drain raises, and then exactly the rest stays queued |
| `DeviceStore.DeviceStateStore.ReduceNext` | custom_components/eebus/state.py:460-467 | One turn of the drain reduces the oldest observation and keeps the fold |
| `DeviceStore.DrainReducesAll` | custom_components/eebus/state.py:459-469 | Without a raising callback the drain empties the queue and reduces the queued observations first, in order |
| `RegistryRuns.RunKeepsCoherent` | eebus-bridge/internal/eebus/registry.go:148-214 | In every reachable state, whatever the order of callbacks: a removed device leaves nothing in any of the three projections, and each entry of a locally disabled capability is Unsupported/LocalDisabled |
| `RegistryRuns.TombstoneHolds` | eebus-bridge/internal/eebus/registry.go:558-574 | Removal is final: no later callback changes anything about a removed device until trust is granted |
| `RegistryRuns.TrustStartsAfresh` | eebus-bridge/internal/eebus/registry.go:183-196 | The trust grant that ends a tombstone finds an empty, unconnected device |
| `RegistryRuns.RunKeepsReasoned` | eebus-bridge/internal/eebus/capabilities.go:60-115 | Over every run without hand-written states an entry says LocalDisabled if and only if its capability is switched off, and DeviceDisconnected only while temporarily unavailable |
| `RegistryRuns.QuietRunFreezes` | eebus-bridge/internal/eebus/capabilities.go:176-323 | After a loss, any sequence of support, source-support, read, not-bound, missing-entity, add and observation calls leaves every state, reason and timestamp of the table unchanged |
| `RegistryRuns.LossDarkens` | eebus-bridge/internal/eebus/registry.go:198-236 | Losing a connection, or trust, takes down every entry that is not unsupported |
| `RegistryRuns.FrozenExactlyWhenDark` | eebus-bridge/internal/eebus/registry.go:183-196 | A known unconnected device's table is frozen if and only if every entry has been taken down: a trust grant alone does not freeze it |
| `RegistryRuns.TrustAloneIsNotDark` | eebus-bridge/internal/eebus/registry.go:183-196 | Such a device is reachable: catalogued, trusted, never connected, and its table not frozen |
| `RegistryRuns.ReconnectRevives` | eebus-bridge/internal/eebus/capabilities.go:123-132 | The reconnection maps exactly the entries that are not Unsupported to Unknown/EntityNotBound |
| `RegistryRuns.OutageForgetsAllButUnsupported` | eebus-bridge/internal/eebus/capabilities.go:123-142 | A whole outage: whatever arrives between loss and reconnection, entries unsupported before the loss come out untouched, timestamps included, all others as Unknown/EntityNotBound at the reconnection |
| `CapabilityTrace.EntryRestsOnTrace` | eebus-bridge/internal/eebus/capabilities.go:176-323 | Read off the callbacks alone, over every run without hand-written states: an entry reads Available if and only if its capability is enabled and a successful read, of a device neither away nor refusing it, is the last word, with no later switch, removal, loss or callback about the capability; and in the same way which callback each of ReadFailed, RemoteNotAdvertised, EntityNotBound and DeviceDisconnected points to |
| `CapabilityTrace.EntrySaysNothingElse` | eebus-bridge/internal/eebus/capabilities.go:60-142 | Apart from these an entry only ever says Unknown without a reason: each reason comes with its state |
| `CapabilityTrace.TableFollowsTrace` | eebus-bridge/internal/eebus/capabilities.go:60-323 | The table shows, entry by entry, the standing that the trace of callbacks gives each capability |
| `CapabilityTrace.ChangeIsStamped` | eebus-bridge/internal/eebus/capabilities.go:85-115 | An entry that says the same as before is the same; one that says something new carries the time of that callback |
| `CapabilityTrace.BooksRestOnTrace` | eebus-bridge/internal/eebus/registry.go:406-470 | A device is in the catalog, and has a capability table, exactly if a callback of this lifetime put it there |
| `CapabilityTrace.TraceTells` | eebus-bridge/internal/eebus/registry.go:406-637 | Over any run the entities bound, what each support source last said, and whether the device is known are what the trace of callbacks says |
| `CapabilityTrace.TrustRestsOnTrace` | eebus-bridge/internal/eebus/registry.go:156-214 | A known device is trusted exactly when the last word on trust in its lifetime was a grant or a connection, and its record says when connection or trust last changed |
| `CapabilityTrace.ProofRestsOnTrace` | eebus-bridge/internal/eebus/registry.go:256-272 | The record says that a success came on the connection exactly when the trace shows one on a connection, with no later connection, removal or success without a connection |
| `CapabilityTrace.HandIsObeyed` | eebus-bridge/internal/eebus/capabilities.go:73-96 | A state set by hand stands unless the capability is switched off, and the other entries stay |
| `HealthEvidence.TraceDecides` | eebus-bridge/internal/eebus/capabilities.go:184-195 | The record's tombstone, connection, trust and heartbeat latch are what a reading of the callback trace alone says |
| `HealthEvidence.RecordHears` | eebus-bridge/internal/eebus/registry.go:156-181 | For any instant, the record answers "heard since" about successes and heartbeats exactly as the trace of the current connection does |
| `HealthEvidence.VerdictRestsOnEvidence` | eebus-bridge/internal/eebus/registry.go:304-321 | Past grace, a connected device is found stale if and only if the trace lacks a success on this connection within the threshold or, when heartbeats were advertised in this lifetime, a heartbeat on this connection within the tolerance |
| `HealthEvidence.ConnectedSince` | eebus-bridge/internal/eebus/registry.go:156-181 | A connected device was connected at a callback after which nothing dropped it |
| `HealthEvidence.StaleIsConnected` | eebus-bridge/internal/eebus/registry.go:304-321 | Only a connection that the trace shows, older than the grace period, is ever listed stale |
| `HealthEvidence.HeartbeatIsRecorded` | eebus-bridge/internal/eebus/registry.go:278-293 | A recorded heartbeat time belongs to a heartbeat callback of this lifetime |
| `HealthEvidence.SuccessIsRecorded` | eebus-bridge/internal/eebus/registry.go:256-273 | A recorded success time belongs to a success callback of this lifetime |
| `Registry.DeviceRegistry.MarkConnected` | eebus-bridge/internal/eebus/registry.go:156-181 | Takes its effect on one device over all three projections, and none on any other |
| `Registry.DeviceRegistry.MarkTrusted` | eebus-bridge/internal/eebus/registry.go:183-196 | Ends a tombstone and records trust, leaving capabilities alone |
| `Registry.DeviceRegistry.MarkUntrusted` | eebus-bridge/internal/eebus/registry.go:198-214 | Drops connection and trust and takes the table down, for this device only |
| `Registry.DeviceRegistry.MarkDisconnected` | eebus-bridge/internal/eebus/registry.go:218-236 | Acts only on a connected device |
| `Registry.DeviceRegistry.RemoveDevice` | eebus-bridge/internal/eebus/registry.go:558-574 | Clears all three projections of one device |
| `Registry.DeviceRegistry.RecordSupport` | eebus-bridge/internal/eebus/capabilities.go:176-199 | Support callback: heartbeat latch, and the entry as connection and local switches allow |
| `Registry.DeviceRegistry.RecordSourceSupport` | eebus-bridge/internal/eebus/capabilities.go:204-237 | Aggregates the sources of one capability: unsupported only when every source says so |
| `Registry.DeviceRegistry.RecordRead` | eebus-bridge/internal/eebus/capabilities.go:254-276 | Read outcome, without effect on an unsupported entry and overruled by a lost connection |
| `Registry.DeviceRegistry.RecordEntityNotBound` | eebus-bridge/internal/eebus/capabilities.go:278-296 | The same for an entity that is not bound |
| `Registry.DeviceRegistry.RecordMissingEntity` | eebus-bridge/internal/eebus/capabilities.go:300-323 | The same for a missing entity, unsupported when the device has other entities |
| `Registry.DeviceRegistry.SetLocalCapabilityEnabled` | eebus-bridge/internal/eebus/capabilities.go:60-71 | Rewrites exactly one entry of every existing table |
| `Registry.DeviceRegistry.EnsureCapabilities` | eebus-bridge/internal/eebus/capabilities.go:98-115 | Builds a missing table once, honouring the local switches |
| `Registry.DeviceRegistry.ConnectTable` | eebus-bridge/internal/eebus/capabilities.go:123-132 | The loop over the entries, in any order, equals its pointwise effect |
| `Registry.DeviceRegistry.DisconnectTable` | eebus-bridge/internal/eebus/capabilities.go:134-142 | The loop over the entries, in any order, equals its pointwise effect |
| `Registry.DeviceRegistry.AnySource` | eebus-bridge/internal/eebus/capabilities.go:230-235 | The scan finds a supporting source if and only if there is one |
| `Registry.DeviceRegistry.StaleDevices` | eebus-bridge/internal/eebus/registry.go:304-321 | Lists exactly the devices whose evidence is missing or too old |
| `Recovery.Backoff` | eebus-bridge/internal/eebus/recovery.go:317-326 | The doubling loop returns min(Base * 2^(n-1), Max) |
| `Recovery.RecoverySupervisor.Recover` | eebus-bridge/internal/eebus/recovery.go:115-161 | One recovery attempt: the record and the commands it sends |
| `Recovery.RecoverySupervisor.ReconcileHealthy` | eebus-bridge/internal/eebus/recovery.go:163-235 | One reconciliation of a device that is not stale |
| `Recovery.RecoverySupervisor.Tick` | eebus-bridge/internal/eebus/recovery.go:91-113 | Each device takes exactly its own step and is sent exactly its own commands, whatever the visiting order: its entities cleared, its link taken down, then set up again, and the commands of a device stay in that order over every run |
| `Recovery.RecoverySupervisor.constructor` | eebus-bridge/internal/eebus/recovery.go:75-89 | Missing or contradictory settings are repaired: three attempts, the grace period as the first wait, a ceiling no lower than it; the others are taken as given |
| `Recovery.RecoverySupervisor.RestartDecision` | eebus-bridge/internal/eebus/recovery.go:237-262 | Counting the exhausted devices against the relevant ones decides "at least one, and all of them" |
| `RecoveryRuns.RunKeepsSane` | eebus-bridge/internal/eebus/recovery.go:115-235 | Over every run, lost connections and trust included: attempts equal the commands sent since the device was last healthy and never exceed the maximum; Exhausted means all used, Healthy none; no record stays Recovering; the next attempt is the last one plus its backoff |
| `RecoveryRuns.TickKeepsSane` | eebus-bridge/internal/eebus/recovery.go:115-235 | Every tick keeps that invariant of a record |
| `RecoveryRuns.CommandsCount` | eebus-bridge/internal/eebus/recovery.go:133-161 | A command is exactly one more attempt, and only a tick that leaves the device healthy takes attempts back |
| `RecoveryRuns.FailingDeviceIsGivenUp` | eebus-bridge/internal/eebus/recovery.go:115-235 | A permanently failing device is driven to Exhausted by at most MaxAttempts - Attempts + 2 due ticks, whatever early ticks come between |
| `RecoveryRuns.FailingTickWearsOut` | eebus-bridge/internal/eebus/recovery.go:122-161 | A due tick over a failing device strictly lowers the attempts left to it; an early one changes nothing |
| `RecoveryRuns.SilentDeviceFails` | eebus-bridge/internal/eebus/recovery.go:196-216 | A connected device whose trace shows no success since the last attempt (or on this connection) is found failing by every tick |
| `RecoveryRuns.SilentDeviceIsGivenUp` | eebus-bridge/internal/eebus/recovery.go:115-235 | From the trace alone: while one connection lasts and the growing trace shows no success, that many due ticks exhaust the device, whatever other callbacks arrive |
| `RecoveryRuns.AttemptsWaitTheirTurn` | eebus-bridge/internal/eebus/recovery.go:122-125 | An attempt made from the grace state never precedes its due time |
| `RecoveryRuns.FirstWaitIsGrace` | eebus-bridge/internal/eebus/recovery.go:183-195 | Before any attempt the due time lies a grace period after the tick that first found the device connected without evidence |
| `RecoveryRuns.RecordKeepsTimes` | eebus-bridge/internal/eebus/recovery.go:132-137 | Over any run a record holds the times of the first and the last command sent since it was last Healthy |
| `RecoveryRuns.TransitionIsStamped` | eebus-bridge/internal/eebus/recovery.go:308-315 | A record carries the time of the tick that last changed its state or made an attempt |
| `RecoveryRuns.HealthyNeedsEvidence` | eebus-bridge/internal/eebus/recovery.go:196-215 | A device with attempts becomes Healthy if and only if it is connected, trusted, not stale and its record shows a success later than its last attempt, and a heartbeat later than it where heartbeats are required |
| `RecoveryEvidence.RecoveryRestsOnTrace` | eebus-bridge/internal/eebus/recovery.go:196-215 | From the trace alone, both ways: a tick leaves a connected device Healthy if and only if its connection is not stale and the trace shows a success later than the last attempt (or on this connection when there was none) and, if heartbeats were advertised, such a heartbeat on this connection; it then forgets every attempt and sends no command |
| `RecoveryEvidence.EvidentDeviceIsKept` | eebus-bridge/internal/eebus/recovery.go:163-235 | Over any run: a device that every tick finds connected, not stale and heard since the attempt it started with is Healthy from the first tick on and is never sent another command |
| `RecoveryEvidence.AwayIsParked` | eebus-bridge/internal/eebus/recovery.go:167-182 | A known device without a connection is parked with its attempts and without a command, as Untrusted if its trace last revoked its trust and as Disconnected otherwise |
| `RecoveryEvidence.UnknownIsLeft` | eebus-bridge/internal/eebus/recovery.go:91-113 | A device that the registry does not know is left alone |
| `RecoveryEvidence.SuccessIsKept` | eebus-bridge/internal/eebus/registry.go:256-272 | Over any run the recorded success is at or after an instant if and only if the trace of this lifetime shows such a success of a known device |
| `RecoveryRuns.HealthyIsRecorded` | eebus-bridge/internal/eebus/registry.go:342-351 | That success is a callback in the device's trace, later than the attempt and of this lifetime, and where heartbeats are required so is a heartbeat later than the attempt |
| `RecoveryRuns.DevicesAreIndependent` | eebus-bridge/internal/eebus/recovery.go:91-113 | Over any run of the whole supervisor each record is what its own history alone makes of it |
| `RecoveryRuns.RestartIsEdgeTriggered` | eebus-bridge/internal/eebus/recovery.go:237-262 | A restart is requested exactly when at least one connected, not-untrusted device exists, all of them are given up on, and that did not hold a tick ago |
| `ProviderRuns.SampleHeldExactlyWhileAdvertised` | eebus-bridge/internal/usecases/mgcp.go:219-279 | Any order of publishes, failed writes, late timers and closes: a sample is held exactly while the last announcement says available, and announcements alternate |
| `ProviderRuns.RegisteredProviderAgrees` | eebus-bridge/internal/usecases/mgcp.go:104-110 | The same from a new provider, registered first or not at all |
| `ProviderRuns.AddUseCaseAgrees` | eebus-bridge/internal/usecases/mgcp.go:107-110 | Registering keeps that agreement if and only if nothing was announced before |
| `ProviderRuns.WireFollowsTheSample` | eebus-bridge/internal/usecases/mgcp.go:219-269 | Without single-value publishes, an open provider last wrote the sample it holds, or an invalidation or nothing when it holds none |
| `ProviderRuns.ClosedForGood` | eebus-bridge/internal/usecases/mgcp.go:271-292 | After a close nothing is written, held or announced again |
| `ProviderRuns.TimerClearsItsOwnSample` | eebus-bridge/internal/usecases/provider_snapshot.go:106-121 | A callback takes away only the sample committed under its own version, and only when that is no longer current |
| `ProviderRuns.ReaderSeesLatest` | eebus-bridge/internal/usecases/mgcp.go:245-251 | What a reader gets over any run: the last sample committed, if nothing has withdrawn it since and the instant lies between its observation and its expiry; otherwise nothing |
| `ProviderRuns.ExpiryHasOneChance` | eebus-bridge/internal/usecases/mgcp.go:253-269 | An outdated sample is withdrawn if and only if the one expiry write succeeds: a failed one is never retried, and through failed publishes, single values and other timers the sample stays held and advertised |
| `ProviderRuns.FailedExpiryStaysAdvertised` | eebus-bridge/internal/usecases/mgcp.go:253-269 | A concrete run from a new provider that ends with an outdated sample held and advertised |
| `ProviderRuns.RegisteredAfterClose` | eebus-bridge/internal/usecases/mgcp.go:107-110 | A concrete run from a new provider, closed and then registered, that advertises availability with nothing held |
| `Provider.MGCPProvider.PublishGridSnapshot` | eebus-bridge/internal/usecases/mgcp.go:219-243 | Write first, then announce, then commit or invalidate; a failed write changes nothing |
| `Provider.MGCPProvider.ExpireGridSnapshot` | eebus-bridge/internal/usecases/mgcp.go:253-269 | A late callback withdraws only an outdated sample of its version |
| `Provider.MGCPProvider.Close` | eebus-bridge/internal/usecases/mgcp.go:273-279 | Closes the store and withdraws availability, repeatably |
| `Provider.MGCPProvider.PublishIfOpen` | eebus-bridge/internal/usecases/mgcp.go:285-292 | A single value is written only while open |
| `Provider.Availability.Set` | eebus-bridge/internal/usecases/provider_availability.go:39-53 | Announces only a difference from what was announced last |
| `Provider.SnapshotStore.Commit` | eebus-bridge/internal/usecases/provider_snapshot.go:66-82 | A commit takes a new version and one timer |
| `Provider.SnapshotStore.ClearExpired` | eebus-bridge/internal/usecases/provider_snapshot.go:112-121 | Clears nothing but the version it was asked to clear |
| `Provider.SnapshotStore.CurrentSample` | eebus-bridge/internal/usecases/provider_snapshot.go:96-104 | A reader is given a sample only while it is current |
| `Ledger.EveryStageStoppedOnce` | eebus-bridge/cmd/eebus-bridge/lifecycle.go:34-71 | For any interleaving of adds and rollbacks, once settled: each started stage was stopped exactly once, recorded ones by the rollback in exact reverse order, late ones by their own add, and every rollback call returned the same failures |
| `Ledger.NothingStoppedTwice` | eebus-bridge/cmd/eebus-bridge/lifecycle.go:51-71 | At every moment before that, nothing has been stopped twice and the rollback has stopped the right tail |
| `Ledger.CanSettle` | eebus-bridge/cmd/eebus-bridge/lifecycle.go:51-71 | No interleaving gets stuck |
| `Ledger.StepAccounts` | eebus-bridge/cmd/eebus-bridge/lifecycle.go:34-71 | Every step keeps every started stage in exactly one place and the rollback on its reverse path |
| `Ledger.LifecycleTransaction.Add` | eebus-bridge/cmd/eebus-bridge/lifecycle.go:34-49 | Records a stage, or stops it at once when the ledger is closed |
| `Ledger.LifecycleTransaction.Rollback` | eebus-bridge/cmd/eebus-bridge/lifecycle.go:51-71 | The first call closes the ledger and runs the reverse loop to its end; each later one returns the same result, or is told to wait while the first is still at it |
| `Runtimes.ReferencesAreConserved` | custom_components/eebus/__init__.py:161-331 | For any interleaving of setups, failed setups, reloads of every outcome and unloads: a runtime's count is the references that entries and acquisitions in flight hold, and a created runtime has been closed, once, exactly when nobody holds it |
| `Runtimes.HeldRuntimesStayOpen` | custom_components/eebus/__init__.py:280-331 | What an entry works with is registered under its key and never closed under it |
| `Runtimes.NothingLeaks` | custom_components/eebus/__init__.py:249-261 | With every entry unloaded the registry is empty and every runtime ever created has been closed |
| `Runtimes.EntryFollowsCourse` | custom_components/eebus/__init__.py:280-331 | An entry works for the key it was last set up for or switched to: a reload that ended before its commit point leaves it where it was, one that ended after it serves the new key, and a reload for the same key changes nothing |
| `Runtimes.StepKeepsSound` | custom_components/eebus/__init__.py:161-331 | Each step of an entry keeps the books |
| `Runtimes.ReleaseKeepsSound` | custom_components/eebus/runtime.py:374-385 | A release gives back one reference and closes exactly at the last one |
| `Runtimes.AcquireKeepsSound` | custom_components/eebus/runtime.py:356-365 | An acquisition adds one reference, to a runtime that is registered |
| `Runtimes.RetainKeepsSound` | custom_components/eebus/runtime.py:367-372 | Retaining a registered runtime is one more reference to it; any other is refused and changes nothing |
| `Runtimes.BridgeRuntimeRegistry.Acquire` | custom_components/eebus/runtime.py:341-365 | Shares the registered runtime of a key or registers a new one |
| `Runtimes.BridgeRuntimeRegistry.Release` | custom_components/eebus/runtime.py:374-385 | Ignores a runtime that is not registered; closes and forgets at zero |
| `Runtimes.BridgeRuntimeRegistry.Retain` | custom_components/eebus/runtime.py:367-372 | Refuses a runtime that is not registered |

## Left out

- Integer widths: revisions, versions and the deferral counter are unbounded naturals; durations do not overflow.
- Channels and subscriber records are values in the bus's map, so aliasing of a subscriber record and the closing of its channel are not modelled; a closed stream is one whose loop is down.
- Nested state records: a leaf is an entry of one map, so the accessors `_field_value` and `_replace_field` become a lookup and an update.
- Payload conversion, event classification tables, SKI normalisation and protobuf: an envelope already carries the observation it converts to; what the conversion adds is chosen freely at each step.
- Transport.NoSilentLoss: polls are serialised, read the device at one instant and either return or fail; an exception that leaves the refresh task itself is not modelled.
- Convergence.SettledClientAgrees: covers the device leaves that no capability owns; `OwnedLeaves.SettledOwnedLeafAgrees` covers the others while they are fresh. The leaf that says whether the client has registered is the client's own and is not followed.
- A call of the refresh callback is taken to start a poll after the call; Home Assistant's async_request_refresh, which the coordinator passes, may coalesce calls and is not part of this model.
- Which callback publishes which event is not modelled: a change comes with any event, or with none; a connection event is published with the device's connection in the state it reports.
- StreamLoop.StreamServer.Publish: says nothing of a discovery event that carries a device; none does (device_state_stream.go:128-131).
- Legacy per-domain streams, contract renegotiation and the stream reconnect delay.
- Reducer.LatePollWithVerdicts: the stream itself says nothing on the leaf's capability and the explicit contract is on throughout; streams with verdicts of their own, and legacy results that name the capability, are not compared with a late poll.
- Catalog contents other than the set of bound entities (classification, labels, use cases): one operation stands for all description updates.
- RegistryRuns.QuietRunFreezes: hand-written states through `SetCapability` and local switches are excluded, since both rewrite entries; nothing in the bridge calls `SetCapability`.
- RegistryRuns.RunKeepsReasoned: excludes `SetCapability` for the same reason.
- CapabilityTrace.EntryRestsOnTrace: excludes `SetCapability` for the same reason.
- Legacy.LegacyRunTells: covers streams; a legacy poll is one reduction of `Legacy.LegacyPollTells`.
- Recovery without a controller, logging, and the supervisor's diagnostic snapshot.
- RecoveryRuns.SilentDeviceFails: assumes, like the laws of `RecoveryEvidence`, that the tick's three readings of the registry find one record; the other recovery laws do not.
- The health list and the stale list name each device once, so they are a map and a set, visited in any order; the order of commands between devices is left open.
- The library's own use-case registration is not part of this model: as mgcp.go:104-106 says of it, it announces the use case as available.
- Provider writes are atomic oracles, a timer's callback runs at most once, and the PV and battery providers, which follow the same pattern, are not repeated.
- ProviderRuns.WireFollowsTheSample: excludes single-value publishes, which overwrite parts of a sample on the wire.
- Ledger.EveryStageStoppedOnce: a stop that panics is not modelled; a stage carries the outcome of its stop.
- Runtimes: the session table of a runtime and the work of closing it; a close counts when it starts.
- gRPC servers, SHIP and SPINE, certificates, configuration, Home Assistant entities, diagnostics views and scripts: input, output or unseen libraries.
