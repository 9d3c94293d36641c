# Ephemeral rollups router: verified model

The router sits between clients and a set of upstream validators: the base chain and the
ephemeral rollup (ER) nodes to which accounts can be delegated. It decides for each request
which upstream has to answer it. This project models the parts of the router that have to be
right under concurrency or for every input, and proves what they promise:

- the **delegation cache** and its fill protocol: readers, fill owners, coalesced waiters, the
  stream updater, evictions, clears and cancellations interleaving on one map
  (`CacheEntry`, `FillProtocol`, `FillInvariant`, `Provenance`, `FillTheorems`, `WakeUps`,
  `GetRecord`, `RetryLedger`, `DelegationsCache`);
- the **upstream websocket connection** with its three linked tables
  (`ConnectionProtocol`, `ConnectionRuns`, `ConnectionTables`, `ConnectionLosses`,
  `WebsocketConnection`);
- **proximity, health and node choice** in the routing table (`Proximity`, `RoundRobin`);
- **request routing** over HTTP (`HttpRouting`);
- the **subscription dispatcher** and its readiness signal (`Dispatcher`).

`dafny verify dfyconfig.toml` checks the whole project.

## How the system is modelled

**Fill protocol.** A state is the shared map, a table of fills, the program counter of every
`get_record` call and the updater. Each access to the map is one atomic step, as is each
arming, reading and waking in `stream_fill`. A call can be cancelled wherever it awaits, which
drops the sender of a fill it owns. An insert may evict any other key. `clear_async` is a
removal of any set of keys, so that it can also happen in pieces. `chain(key, slot)` is the parsed
record the account had at a slot; an RPC answer or a stream update at slot n carries
`chain(key, n)`, RPC answers have slot > 0 and honour `min_context_slot`. `IsRun` admits every
finite interleaving. A cell of the map also carries the history of its residence (which
observations were delivered, from which slot its owner subscribed); no step reads it.
`CallerStepsAreMapOperations` and `OtherStepsAreMapOperations` tie the protocol's steps to the
map operations that the imperative `Cache` class is verified against.

**No lost wake-up.** `stream_fill` may stay asleep past the notification in one case: it arms
itself only after the notification was given and then finds that the installed record has
already been evicted or cleared. The comment in the source describes this, and the fetch it is
raced against ends the wait. `NoLostWakeUp` says that the owner is lost exactly in this case,
`OwnerCanSleepOn` gives a run in which it happens for every key, and `WakesWhileResident` says
that it cannot happen while the entry stays in the map.

**Order of observations.** Fetch merges and stream updates commute, except that a fetch made by
a caller that does not own the pending fill bounces off the placeholder. `OrderIndependentExactly`
says that the order matters exactly if such a foreign fetch is newer than every other delivery
and one of those is newer than the entry.

**Bounded retries.** A call may also start over once for a placeholder that its owner had
already abandoned before the call began; `RetriesCharged` carries that as a credit of one.
`UnprovokedExactly` says that a call can start over without interference exactly if it begins on
such a placeholder, and `PlaceholdersAreAbandoned` that they occur.

**Connection.** The order in which a hash map is iterated and whether a channel is still open
are part of the event, so every order and every outcome is covered. The log records a
Notification or a Disconnected when its send is attempted and a Subscribed when its send
succeeds. The only demand on clients is that a request id is not submitted while it
has a listener; `DiscourtesyBreaksOrder` shows that each violation of it can break the message
order. A request that was told Subscribed can lose its listener without being told:
`ListensUnlessLost` lists exactly how (its channel was found closed, or the same subscriber was
confirmed for, or unsubscribed from, another request under the same subscription id), and
`OverwrittenIsLost` gives a run.

**Dispatcher.** An upstream that went offline can be registered again without having been
announced: `OfflineStaysOut` says that this is possible exactly if an attempt to connect to it
was pending when it went offline.

**Numbers.** Proximity uses wrapping u64 arithmetic, as a release build does; products are
reduced before they are added. Everything else uses unbounded integers, where the source cannot
overflow.

**Parameters.** Clock readings, RPC replies, completion orders, hash-map iteration orders, the
set of registered nodes and whether a send succeeds are parameters of the members that
depend on them.

## Model

| member | source | states |
|---|---|---|
| CacheEntry.GreatestSlotWins | src/cache/delegations.rs:356-373 | any sequence of stream updates and of fetch merges by the owner of the pending fill, or by anyone if no fill is pending, leaves the chain's record at the greatest slot delivered, or the entry as it was if none is newer |
| CacheEntry.LatestIsGreatest | src/cache/delegations.rs:432-435 | the slot used in that statement bounds every delivery and, unless it is 0, is the slot of one of them |
| CacheEntry.OrderIndependent | src/cache/delegations.rs:432-463 | two permutations of the same stream updates and such merges leave the same entry |
| CacheEntry.Outcome | src/cache/delegations.rs:356-373 | with foreign merges among them, the entry stays as it was if no other delivery is newer, and otherwise ends at the greatest of those or at a foreign slot beyond it |
| CacheEntry.OrderMatters | src/cache/delegations.rs:357-366 | if a foreign fetch is ahead of every other delivery, two permutations end at different slots |
| CacheEntry.OrderIndependentExactly | src/cache/delegations.rs:356-373 | all permutations of any deliveries leave the same entry exactly if no foreign fetch is ahead of them |
| FillInvariant.StepKeeps | src/cache/delegations.rs:99-218 | every enabled step of callers, updater and environment keeps the invariant over entries, fills and program counters |
| FillInvariant.RunKeeps | src/cache/delegations.rs:99-242 | the invariant holds in every reachable state |
| Provenance.RunSourced | src/cache/delegations.rs:196-216 | in every run whatever is resident, fetched, about to be returned or returned with a slot was sighted at that slot for that key |
| Provenance.SightingsObserved | src/cache/delegations.rs:260-327 | a sighting is a stream update of the key at the slot, or an RPC answer at the slot to a call on the key, in that run |
| FillTheorems.Soundness | src/cache/delegations.rs:99-218 | in every run each initialised entry holds the record the chain had at its slot, at which the run observed that key; every value `get_record` returned is such an observed record or the `None` of a call on the same key whose four fetch attempts all failed in that run |
| FillTheorems.FailuresCounted | src/cache/delegations.rs:263-317 | the failure counter that soundness refers to equals the number of failed RPC attempts of that call in the run |
| FillTheorems.AttemptsBounded | src/cache/delegations.rs:263-317 | one call makes at most four failing attempts, however often it goes round its loop |
| FillTheorems.Lifecycle | src/cache/delegations.rs:137-190 | in every reachable state a pending fill or pending minimal slot implies slot 0 and no record, a pending fill sits under its owner's key and is not resolved, and an unresolved fill has an owner that holds its sender |
| FillTheorems.FillInOnePlace | src/cache/delegations.rs:141-151 | no two entries carry the same fill |
| FillTheorems.Coalesced | src/cache/delegations.rs:119-121 | whoever was served by a fill returned exactly what the fill's owner returned |
| WakeUps.NoLostWakeUp | src/cache/delegations.rs:223-242 | once a stream update has taken a fill, its sleeping owner has the notification still coming or can wake now, exactly unless it armed itself after the notification of that fill; it then found the record gone |
| WakeUps.TakenThenTold | src/cache/delegations.rs:463-469 | from the moment an update takes a fill, the updater is about to notify it or has notified it exactly once |
| WakeUps.SleeperWakes | src/accounts.rs:44-53 | while the record a stream update installed is resident, a sleeping owner can wake, at the latest after the updater's next step |
| WakeUps.WakesWhileResident | src/cache/delegations.rs:229-240 | if the entry was neither evicted nor cleared since the update, the sleeping owner has its notification coming or can wake |
| WakeUps.NotifiedCounts | src/accounts.rs:50-53 | the counter that an armed notification captures is raised exactly by the fill's notification in the run |
| WakeUps.OwnerCanSleepOn | src/cache/delegations.rs:220-222 | for every key there is a run that ends with the owner asleep, the updater idle and no wake-up possible |
| GetRecord.ReadServes | src/cache/delegations.rs:115-117 | a call whose read finds an initialised entry has returned that entry's record, at that slot, and takes no step after the read |
| GetRecord.PendingIsAwaited | src/cache/delegations.rs:119-121 | a call whose read finds a pending fill only waits for it, until it sees that fill dropped: it returns what the fill was resolved with and asks neither the map nor the RPC |
| GetRecord.FetchReachesCache | src/cache/delegations.rs:174-198 | over every run, a call that checked its own placeholder or read an entry with nothing pending, and returned the chain's record at slot n, has left that entry at slot n or later, unless it was evicted or cleared in between |
| GetRecord.UpdateReachesCache | src/cache/delegations.rs:427-462 | over every run, once a resident key was updated at slot n its entry is at slot n or later until it is evicted or cleared |
| GetRecord.AtLeastStays | src/cache/delegations.rs:367-373 | only an eviction or a clear removes an initialised entry or takes it back to an earlier slot |
| GetRecord.EntersAsPlaceholder | src/cache/delegations.rs:141-153 | a key enters the map only as the empty placeholder of a new fill, inserted by a call that found it missing |
| GetRecord.UnsubscribedLeavesNothing | src/cache/delegations.rs:162-171 | a call whose subscription failed and that served its own fill has left no entry of its own in the map |
| GetRecord.OwnerFloor | src/cache/delegations.rs:172-198 | an owner that subscribed at slot `from` accepts exactly the RPC answers from slot `from` minus 8 on |
| GetRecord.ReaderFloor | src/cache/delegations.rs:131-133 | so does a call that reads the entry after the owner's fetch failed |
| GetRecord.WithdrawnFloor | src/cache/delegations.rs:165-168 | an owner that withdrew its placeholder accepts any RPC answer |
| GetRecord.SubscriptionSlot | src/cache/delegations.rs:162-172 | a failed subscription leads to the withdrawal only, a successful one to the check only, with the slot it returned |
| FillTheorems.PlaceholderGuarded | src/cache/delegations.rs:244-255 | an entry carrying a fill is changed or removed only by the fill's owner, the stream, an eviction, a clear, or a waiter that has seen that fill dropped |
| FillTheorems.OwnerAdvances | src/cache/delegations.rs:196-216 | each step of an owner settles its fill or lowers its rank, and nobody else's step raises it |
| FillTheorems.OwnerCanStep | src/cache/delegations.rs:162-216 | the owner of an unresolved fill always has an enabled step other than being cancelled |
| FillTheorems.RankPaysForSteps | src/cache/delegations.rs:162-216 | over any stretch of a run in which a fill stays unresolved, the steps its owner took are paid for by the fall of its rank |
| FillTheorems.SettledWithin | src/cache/delegations.rs:162-216 | a fill is resolved or dropped within 14 steps of its owner, whatever everyone else does in between |
| FillTheorems.ResidenceOnlyAdvances | src/cache/delegations.rs:367-373 | while an entry stays resident no step lowers its slot or forgets an observation delivered to it |
| FillTheorems.Converges | src/cache/delegations.rs:432-462 | if a resident entry has received one observation at `from` or later and every change after `from` up to `until`, it holds the chain's record at `until` or at a slot beyond it |
| FillTheorems.MergeServesAndAnchors | src/cache/delegations.rs:349-377 | an admitted merge returns what the entry then holds, and a successful fetch anchors the residence it was made for |
| FillTheorems.Coherent | src/cache/delegations.rs:172-198 | once a fetch made for the residence is merged, the entry is at most 8 slots older than the subscription; with every later change delivered it equals the chain at `until` |
| RetryLedger.OthersDue | src/cache/delegations.rs:158-194 | another task's step forces a retry on a call only together with an interfering event on its key |
| RetryLedger.ActorDue | src/cache/delegations.rs:122-128 | a call that starts over pays with a retry that was already forced on it |
| RetryLedger.LedgerBalances | src/cache/delegations.rs:102-194 | in every run each call's retries, made or already forced, are covered by others' events on its key, and a fill it gave up on is dropped and in no entry |
| RetryLedger.RetriesCharged | src/cache/delegations.rs:102-194 | a call starts over at most as often as others inserted, evicted, cleared, stream-filled or dropped a placeholder under its key since it began, plus one if it began on an abandoned placeholder |
| RetryLedger.NeverAwaitsTwice | src/cache/delegations.rs:119-128 | a call never waits for a fill it has given up on before |
| RetryLedger.UnprovokedExactly | src/cache/delegations.rs:122-128 | after any run a new call can start over without any interference exactly if it begins on an abandoned placeholder |
| RetryLedger.AbandonedCostsARetry | src/cache/delegations.rs:119-128 | a call that reads next can be continued to one more retry without interference if its key holds an abandoned placeholder |
| RetryLedger.PlaceholdersAreAbandoned | src/cache/delegations.rs:137-162 | for every key there is a run that leaves an abandoned placeholder behind |
| DelegationsCache.CallerStepsAreMapOperations | src/cache/delegations.rs:141-214 | the protocol's insert, check, withdraw, merge and clean-up steps change the map exactly as the cache's operations do |
| DelegationsCache.OtherStepsAreMapOperations | src/cache/delegations.rs:405-469 | so do stream updates and clears, an update hands exactly the taken fill to the notifier, and no other step changes the map |
| DelegationsCache.Fetch | src/cache/delegations.rs:260-327 | the loop returns the first answer among its four attempts and stops there; if all fail it returns the slot-0 entry |
| DelegationsCache.UpdateBalances | src/cache/delegations.rs:432-463 | one stream update changes the number of delegated entries by exactly what it is counted as |
| DelegationsCache.CountsOneTransition | src/cache/delegations.rs:437-452 | a stale update, the first value of a pending entry and an unchanged authority leave all counters alone; any other update raises exactly one by one: delegated if there was no record, undelegated if there is none now, redelegated if both exist |
| DelegationsCache.TransitionsTelescope | src/cache/delegations.rs:390-462 | after any messages the delegated entries are those before plus counted delegations and initial fills minus counted undelegations and what clears discarded |
| DelegationsCache.TalliesAdd | src/cache/delegations.rs:421-470 | disjoint parts of the map evolve and are counted as if each were alone |
| DelegationsCache.EntryIsLatest | src/cache/delegations.rs:432-463 | after any uninterrupted messages a resident entry is the first of its updates at the greatest slot, with nothing pending, or untouched if none is newer |
| DelegationsCache.ResidentAfter | src/cache/delegations.rs:405-430 | messages add and remove no key until an interruption empties the cache |
| DelegationsCache.EntryTelescopes | README.md:330 | for one initialised entry, delegated minus undelegated is the change of its delegatedness, all transitions together are as many as the messages that changed its authority, and the counters are its share plus that of the other entries |
| DelegationsCache.Cache.constructor | src/cache/delegations.rs:60-88 | an empty map and counters at zero |
| DelegationsCache.Cache.RemovePendingFill | src/cache/delegations.rs:244-255 | the entry is removed, and that reported, exactly if it still is the slot-0 placeholder of this fill |
| DelegationsCache.Cache.MergeFetched | src/cache/delegations.rs:349-377 | the map becomes the merged map; the result is the entry's record unless there is none or it belongs to another fill, which stays untouched |
| DelegationsCache.Cache.ReleaseFill | src/cache/delegations.rs:205-214 | the owner's clean-up clears its own pending fill and nothing else |
| DelegationsCache.Cache.UpdateCachedEntry | src/cache/delegations.rs:421-470 | stale updates change nothing; others install record and slot, clear what was pending and return the fill to notify; exactly one counter rises, by one, if the entry was initialised and its authority changed, and otherwise none |
| DelegationsCache.Cache.Updater | src/cache/delegations.rs:390-418 | the message loop leaves the map and the counters that the stream's messages call for |
| ConnectionProtocol.OrderSafetyMeans | src/pubsub/connection.rs:108-169 | in an order-safe log each Notification or Disconnected goes to the channel, and with the upstream kind, of the latest Subscribed for its request, with no Disconnected and no matching unsubscription in between |
| ConnectionProtocol.SilentAfterUnsubscribe | src/pubsub/connection.rs:175-188 | in an order-safe log nothing is sent for a request after its matching unsubscription until it is subscribed again |
| ConnectionRuns.OneListener | src/pubsub/connection.rs:167-168 | a request has at most one listener across all subscriptions |
| ConnectionRuns.StepKeeps | src/pubsub/connection.rs:84-239 | every event keeps the three tables linked, in agreement with the log, and the log order-safe |
| ConnectionRuns.RunKeeps | src/pubsub/connection.rs:84-257 | this holds after every run of events that obeys the demand on clients |
| ConnectionRuns.MessagesInOrder | src/pubsub/connection.rs:108-169 | over every such run each Notification or Disconnected follows its Subscribed with no Disconnected and no matching unsubscription in between |
| ConnectionRuns.ReconnectTellsEachOnce | src/pubsub/connection.rs:248-257 | a reconnect attempts exactly one Disconnected per listener, nothing else, and empties both confirmed tables |
| ConnectionRuns.ListenersAfter | src/pubsub/connection.rs:134-188 | for each event, exactly which listeners there are afterwards |
| ConnectionRuns.UnsubscribeStops | src/pubsub/connection.rs:175-188 | after the unsubscription that matches its open subscription a request has no listener |
| ConnectionRuns.DeliveryTellsEachOnce | src/pubsub/connection.rs:117-133 | a notification reaches each listener exactly once, under its own request id and on its own channel |
| ConnectionRuns.DiscourtesyBreaksOrder | src/pubsub/connection.rs:156-209 | from any reachable state, resubmitting a request that has a listener can be continued to a notification after the matching unsubscription |
| ConnectionTables.InFlightExactly | src/pubsub/connection.rs:142-209 | after any events a request is in flight exactly if it was submitted and neither confirmed nor submitted again since |
| ConnectionTables.FiledExactly | src/pubsub/connection.rs:156-168 | after any events a request is filed under a subscription id exactly if it was confirmed under it while in flight, whether or not its channel was open, and neither confirmed again nor disconnected since |
| ConnectionLosses.ListeningStep | src/pubsub/connection.rs:108-188 | one event leaves a request listened to exactly if it confirms it, or it was listened to, its subscription did not end and the event did not take its listener away |
| ConnectionLosses.ListensUnlessLost | src/pubsub/connection.rs:134-188 | over every run a request is listened to exactly if its subscription is open by the log and its listener was not taken away since its last Subscribed |
| ConnectionLosses.OverwrittenIsLost | src/pubsub/connection.rs:167-168 | a run in which a second request of the same subscriber under the same subscription id silently takes the first one's listener |
| WebsocketConnection.Prune | src/pubsub/connection.rs:134-136 | removing the closed listeners one by one removes exactly them |
| WebsocketConnection.Connection.constructor | src/pubsub/connection.rs:66-81 | a new connection has empty tables and satisfies the invariant |
| WebsocketConnection.Connection.OnRequest | src/pubsub/connection.rs:202-217 | the request becomes in-flight under its own id |
| WebsocketConnection.Connection.OnConfirmation | src/pubsub/connection.rs:141-169 | a known request leaves the in-flight table, is indexed, and gets a listener exactly if its channel is open |
| WebsocketConnection.Connection.NotifyAll | src/pubsub/connection.rs:119-133 | every listener is notified in iteration order, and those returned are exactly the closed ones |
| WebsocketConnection.Connection.OnNotification | src/pubsub/connection.rs:108-140 | all listeners are notified, closed ones removed, and the subscription too if none is left |
| WebsocketConnection.Connection.OnUnsubscription | src/pubsub/connection.rs:175-188 | the subscriber is removed from the subscription of its request, which goes when empty |
| WebsocketConnection.Connection.Reestablish | src/pubsub/connection.rs:245-257 | every listener is told, both confirmed tables end empty, in-flight requests stay |
| WebsocketConnection.Connection.Turn | src/pubsub/connection.rs:84-239 | one turn of the loop performs the protocol's step and keeps the invariant |
| Proximity.SmoothedIsAverage | src/cache/routes.rs:407-416 | below the overflow bound the wrapping average is the floor average |
| Proximity.WrapsExactly | src/cache/routes.rs:412 | the update is the floor average exactly as long as the weighted sum fits 64 bits; otherwise it is the wrapped sum's hundredth, which is below the average |
| Proximity.AverageApproaches | src/cache/routes.rs:407-416 | each constant ping moves the average strictly towards its limit, never past it, and keeps it there; the limit is the ping from above and at most 6 short of it from below |
| Proximity.AverageReachesLimit | src/cache/routes.rs:412 | after as many pings as the starting distance the floor average is at its limit |
| Proximity.ConstantPingsReachLimit | src/cache/routes.rs:407-416 | after any history of bounded pings, constant pings bring the record's own proximity nearer to its limit with each ping and to it after as many as the distance; a record without a measurement takes the ping at once |
| Proximity.HealthTracksWindow | src/cache/routes.rs:397-423 | after any run of successes and failures the failure count is the current streak, and the proximity lies between the least and greatest sample since the last three failures in a row, or is the sentinel when there is none |
| Proximity.StampedLast | src/cache/routes.rs:414 | after any pings the time stamp is that of the last success, and there is none if none succeeded |
| Proximity.FreshExactly | src/cache/routes.rs:397-405 | after any pings the record is fresh exactly if its last three pings did not all fail and its last success is no longer ago than the limit |
| Proximity.FreshIsMeasured | src/cache/routes.rs:397-405 | a record kept by these updates is fresh only with a measured proximity between its samples |
| Proximity.ClosestNode | src/cache/routes.rs:147-173 | a pinned node is returned or reported unknown; otherwise, for any iteration order, the first fresh node of least proximity, or the base chain if no fresh node is below the sentinel |
| Proximity.ClosestMaintained | src/cache/routes.rs:156-172 | on records kept by these updates the choice is a minimal fresh node, and the base chain exactly when none is fresh |
| Proximity.UpstreamRecord.constructor | src/cache/routes.rs:375-382 | a new record has no measurement and no failures |
| Proximity.UpstreamRecord.UpdateProximity | src/cache/routes.rs:407-416 | the first sample is taken as it is, truncated to 64 bits, later ones are averaged in with wrap-around; the time stamp is now and the failure count restarts |
| Proximity.UpstreamRecord.RegisterPingFailure | src/cache/routes.rs:418-423 | the count saturates, and from three failures on the proximity is the sentinel |
| RoundRobin.ChosenExactly | src/cache/routes.rs:134-145 | the counter stays in range, and each upstream has been chosen once per full round plus once if its turn came since |
| RoundRobin.Fair | src/cache/routes.rs:134-145 | in any window of calls each upstream is chosen the floor or the ceiling of its share, from any reachable counter |
| RoundRobin.BaseChainUpstreams.constructor | src/cache/routes.rs:350-353 | the counter starts at the first of a non-empty list |
| RoundRobin.BaseChainUpstreams.BaseChain | src/cache/routes.rs:134-145 | the upstream at the old counter is returned and the counter advances by one, modulo the list |
| RoundRobin.BaseChainUpstreams.Window | src/cache/routes.rs:134-145 | a window of real calls picks each upstream a fair number of times |
| HttpRouting.ExpectedIsLookup | src/server/http.rs:140-148 | if the upstream of key i answers its own group key by key, the value that belongs at position i is the lookup of key i at that upstream |
| HttpRouting.ExpectedExactly | src/server/http.rs:140-170 | the value for a position is the one in its upstream's reply at the place the key has among the keys of the same authority, where that key was sent, or nothing if the reply is too short |
| HttpRouting.GroupKeys | src/server/http.rs:117-129 | keys are grouped by authority with their positions in request order; every authority and only those has a group |
| HttpRouting.BuildRequests | src/server/http.rs:131-166 | one request per group in any iteration order, failing exactly if some authority is unknown |
| HttpRouting.Plan | src/server/http.rs:106-166 | the requests cover each upstream concerned exactly once with all its keys |
| HttpRouting.Scatter | src/server/http.rs:167-171 | one reply's values go to their positions, surplus on either side is ignored, other positions stay |
| HttpRouting.Absorb | src/server/http.rs:145-171 | filing one reply brings in exactly its upstream's answers and raises the slot to the maximum |
| HttpRouting.Gather | src/server/http.rs:167-176 | for every completion order the result is complete and its slot the maximum, or the error is one an upstream gave |
| HttpRouting.MultipleAccounts | src/server/http.rs:101-177 | for every grouping and completion order and with duplicate keys, position i is the answer for key i from its own upstream and the context slot the maximum over the groups; success exactly if all nodes are known and all replies arrive |
| HttpRouting.DecideForAccounts | src/server/http.rs:289-302 | comparing only with the previous authority conflicts exactly when two different authorities occur, and otherwise finds the single authority or none |
| HttpRouting.DecideForTransaction | src/server/http.rs:417-432 | the same for the writable keys of a transaction |
| HttpRouting.DecisionUnique | src/server/http.rs:290-309 | the set of authorities allows only one decision |
| HttpRouting.OrderDoesNotMatter | src/server/http.rs:290-302 | permuting the accounts does not change the decision |
| HttpRouting.RoutesAgree | src/server/http.rs:417-446 | under one snapshot a blockhash for a transaction's writable keys and the transaction itself fare alike: to the ER node if there is one authority and it is known, to the base chain if there is none, an unknown-node error if there is one and it is unknown, a conflict if there are two |
| Dispatcher.OnlineIsKnown | src/pubsub/dispatch.rs:87-113 | an upstream whose last state is online, with no failed send since, is always registered or still being connected to |
| Dispatcher.RegisteredExactly | src/pubsub/dispatch.rs:87-113 | after any run an upstream is registered with a pool exactly if an attempt ended with that pool and since then no other attempt ended, it did not go offline and no send to it failed |
| Dispatcher.PendingExactly | src/pubsub/dispatch.rs:93-113 | after any run the attempts pending for an upstream and those ended are together as many as its announcements while it was not registered |
| Dispatcher.UnknownStays | src/pubsub/dispatch.rs:87-113 | an upstream that is neither registered nor being connected to stays so until it is announced online |
| Dispatcher.OfflineStaysOut | src/pubsub/dispatch.rs:88-113 | after an offline state some continuation without a new announcement registers the upstream exactly if an attempt to connect to it was pending |
| Dispatcher.ReadyOnce | src/pubsub/dispatch.rs:114-119 | the signal is given at most once, and exactly if it was held and is held no longer |
| Dispatcher.ReadyMeansRegistered | src/pubsub/dispatch.rs:83-120 | when the signal is given every such upstream is registered |
| Dispatcher.ReadyAsSoonAsConnected | src/pubsub/dispatch.rs:112-119 | once a finished attempt leaves none pending, the signal has been given |
| Dispatcher.SubscriptionDispatcher.constructor | src/pubsub/dispatch.rs:83-84 | the loop starts with nothing pending and the signal held if there is one |
| Dispatcher.SubscriptionDispatcher.OnState | src/pubsub/dispatch.rs:87-98 | offline removes the upstream; online starts an attempt only if it is not registered |
| Dispatcher.SubscriptionDispatcher.OnRequest | src/pubsub/dispatch.rs:99-111 | the request is handed to the pool the upstream is registered with, if any; a failed send removes the upstream, nothing else changes |
| Dispatcher.SubscriptionDispatcher.OnConnected | src/pubsub/dispatch.rs:112-120 | the finished pool is registered, and the signal given when none is pending |
| Dispatcher.SubscriptionDispatcher.Run | src/pubsub/dispatch.rs:83-127 | after any run of events the object is in the state the whole-run theorems speak about |

## Left out

- `get_record` as one sequential method: its control flow is the step relation, because what matters is what happens between its steps; its map operations and its fetch loop are imperative.
- That every resident entry is subscribed: not claimed; the state of the sync service's subscriptions is not modelled.
- Fairness of the scheduler: progress is stated as a bound on the owner's own steps, not as eventual completion.
- `ParsedDelegationRecord::from_bytes` and the address derivation: a record is what parsing yields, keys are the derived addresses.
- HTTP and websocket transport, TLS, JSON, base58, base64 and bincode decoding, configuration, start-up and shutdown.
- Metrics, except the transition counters.
- The forwarding RPC methods (`account_info`, `balance`, `transaction` and the like), the transaction and blockhash caches and the websocket front end: single forwarded calls or unbounded client sessions.
- The JSON-RPC unsubscriptions sent upstream, also while other listeners remain, and the replay of in-flight requests after a reconnect, which the source does not do.
- The sixteen reconnect attempts, backoff durations, ping scheduling and other wall-clock behaviour.
- Replacement of registry records and updates of the routing table from the registry: the source keeps an existing record.
- Proximity.ClosestNode: takes the base-chain client as a parameter, so it does not model the round-robin counter that each non-pinned call advances.
- HttpRouting.RoutesAgree: treats the base chain as one destination; with several base-chain upstreams the two calls take successive turns of the round-robin.
- Panics of an overflow-checked build in the moving average: the model wraps instead.
