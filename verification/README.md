# aggbook: order-book merge and feed protocol

`aggserver` merges the order books of two exchanges and streams the merged summary to any number of
gRPC clients. This project models its two cores, for every depth `n`, and proves what they keep.

**The merge** (`Floats` to `EndToEnd`). The parsers' level loops fill a fixed-capacity snapshot; the combined
summary holds one snapshot per source; `to_proto` groups the levels of all sources in price-ordered
maps of bounded buckets, keeps the first `n` buckets, sorts each by amount and flattens. `MergeSpec`
says what a side is without any map: as a multiset exactly the levels whose keyed price has fewer than
`n` distinct better ones, sorted by price and then amount. The classes (`PriceMap`, `ContributorLevels`,
`ContributorSnapshot`, `CombinedSummary`, `Publisher`) are proved against it. On top of it: the
grouped form is "sort everything, cut after the n-th distinct price" (`Reference`), it is unique up to
levels equal in price and amount (`Uniqueness`), truncating the sources first loses nothing
(`Truncation`), nothing is invented or changed (`Conservation`), the spread is global (`Spreads`, `SideOrders`), the
panics are characterised exactly (`PanicFreedom`), only the last snapshot of each source matters
(`Updates`).

**The protocol** (`Lifecycle*`, `Propagation*`). Two step systems, each with any number of tasks, one
step per atomic operation, lock operation, channel operation, or store or load of a shared value. A
run is a sequence of labels; every theorem is over every run. `Lifecycle` is the manager: clients that
open and publish, removal tasks, shutdown calls, over any number of symbols and feeds;
`LateSubscribers` and `GracePeriods` say what can still happen after a run of it, `OpenResults` and
`Subscriptions` what its operations return and change, `LifecycleProgress` who can move. `Propagation`
is one feed: exchange connections, source tasks, the bounded queue, the publisher, clients;
`Deliveries` and `PropagationProgress` say what one round of its loops does. `EndToEnd`
joins the protocol to the merge.

The steps and the lines of `crates/aggserver/src/service` they stand for:

- `OpenStep` (manager.rs): Acquire 268, LoadFlag 270, Lookup 274-283, CreateFails 290-296, Insert 298-305, Release 271, 276 and 307.
- `PublishStep` (manager.rs): FetchAdd 176, NotifyWaiters 177-180, FetchSub 185, Spawn 187-193.
- `TimerStep` (manager.rs): Register, Fire and Cancel 194-198, AcquireT 335, Check 337-338, Remove 339, ReleaseT 340 and 344, Close 341.
- `CloserStep` (manager.rs): StoreFlag 317, AcquireD 319, Drain 320, ReleaseD 321, CloseOne 323-325.
- `SourceStep`: ConnStore and ConnNotify (sources/binance.rs 56-57 and 126-127, sources/bitstamp.rs 59-60 and 138-139), Subscribe, Load, Send, GiveUp and Wake (manager.rs 367, 375, 377, 383-384, 395).
- `PubStep` (publisher.rs): Recv and Panic 145-148, Store and Notify 151-152, End 155-158, StoreErr and NotifyErr 163-164, CloseQueue 82.
- `ClientStep` (manager.rs): FirstLoad 96, FirstDeliver 97, Watch 110, WakeUp 113, Read 118, Deliver 121, Leave 103-106, 125 and 134-136.

What is assumed of tokio:

- the `feeds` mutex is exclusive and is held across the await inside `open`;
- `notify_waiters` wakes only the waiters registered at that moment and stores no permit;
- a watch send changes nothing when there is no receiver, and a new watch receiver starts with the
  current version seen;
- a broadcast receiver sees only sends made after it subscribed;
- the mpsc queue is first-in first-out and bounded, and a cancelled send delivers nothing.

Also assumed: fewer than 2^64 - 1 clients are alive at one time; atomic operations are sequentially
consistent, as the source asks for; a waiting task may stay where it is for ever, so nothing here
promises progress.

What the proofs brought out about the code, each with an input and the exact condition:

- README.md line 18 of the repository promises the top 10 bids and asks. The code counts price
  buckets, so a side can have more levels (`MergeExamples.DepthCanBeExceeded`);
  `Conservation.DepthBoundsLevels` says exactly when it has not.
- With a depth of 1 the conversion panics, and the publisher task dies, as soon as both exchanges quote
  one price on a side: the bucket has room for one level (`MergeExamples.DepthOneCanPanic`,
  `PropagationTraces.PublisherCanCrash`). `PanicFreedom.PanicsExactly` and
  `PropagationTheorems.PublisherCrashesExactly` show that this is the only panic there is for snapshots
  with distinct prices in each source.
- A feed that was shut down can gain a subscriber (`LifecycleTraces.ClosedFeedCanGainSubscriber`). It can
  if and only if some client already has it from `open` and has not subscribed
  (`LateSubscribers.UnmappedGainsExactly`).
- A cancellation can be lost, and then the removal task of an earlier departure cuts the grace period of
  a later one short (`LifecycleTraces.LostCancellationShortensGrace`). That can happen if and only if, at
  the departure, such a task is pending or about to be spawned, the feed is mapped and no shutdown holds
  the lock (`GracePeriods.GraceIsCutExactly`).
- A client can miss an update before its first wakeup (`PropagationTraces.FirstUpdateCanBeMissed`);
  `PropagationTheorems.ClientFreshExactly` says exactly when it has.
- A client that comes after the shutdown signal can wait for ever
  (`PropagationTraces.LateClientCanWait`); `PropagationEnd.IdleForEverExactly` says exactly which do.

## Model

| member | source | states |
|---|---|---|
| Contributors.ContributorLevels.Push | crates/aggserver/src/service/model.rs:199-204 | appends the level while there is room; at capacity the levels are unchanged |
| Contributors.ContributorSnapshot.PushBid | crates/aggserver/src/service/model.rs:249-251 | adds to the bids of the snapshot and leaves the asks alone |
| Contributors.ContributorSnapshot.PushAsk | crates/aggserver/src/service/model.rs:254-256 | adds to the asks of the snapshot and leaves the bids alone |
| Parsers.ParseBinance | crates/aggserver/src/service/sources/binance.rs:163-193 | the first fault of the first n bids, then asks, decides between an error and the unwrap panic; otherwise the snapshot holds exactly the positive-quantity entries among the first n, none dropped for lack of room |
| Parsers.ParseBitstamp | crates/aggserver/src/service/sources/bitstamp.rs:210-231 | the same for Bitstamp, whose loop skips an entry that is not two strings instead of panicking |
| Parsers.BinanceBids | crates/aggserver/src/service/sources/binance.rs:172-180 | the bid loop: first fault, or exactly the positive entries in order |
| Parsers.BinanceAsks | crates/aggserver/src/service/sources/binance.rs:182-190 | the ask loop, same promise |
| Parsers.BitstampBids | crates/aggserver/src/service/sources/bitstamp.rs:210-218 | the bid loop: first fault, or exactly the positive entries in order |
| Parsers.BitstampAsks | crates/aggserver/src/service/sources/bitstamp.rs:221-229 | the ask loop, same promise |
| Parsers.PositiveIsClean | crates/aggserver/src/service/sources/binance.rs:173-178 | what a parser admits never has a NaN amount and never exceeds the depth, so `push` drops nothing |
| Selections.PositiveSelects | crates/aggserver/src/service/sources/binance.rs:173-178 | what a parser keeps is exactly the entries with two numbers and a quantity above 0: each kept level is such an entry, price and quantity unchanged, in the order of the entries, and none is missing |
| Selections.OnlyPositiveAmounts | crates/aggserver/src/service/sources/bitstamp.rs:211-216 | no level without a positive amount leaves a parser |
| Selections.BinanceFaultExactly | crates/aggserver/src/service/sources/binance.rs:173-175 | which entries stop the Binance loops: the first one that is not two numbers, with a panic or a parse error according to which of its strings is missing or malformed, price first |
| Selections.BitstampFaultExactly | crates/aggserver/src/service/sources/bitstamp.rs:210-214 | the Bitstamp loops fail if and only if some entry is two strings of which one is no number, and never panic |
| Parsers.ParsedMergeIsWholeMerge | crates/aggserver/src/service/sources/binance.rs:172-190 | with strictly sorted books and positive first n quantities, the merge of the two parsed snapshots is the merge of the two whole books |
| PriceMaps.PriceMap.Locate | crates/aggserver/src/service/model.rs:128-132 | finds the only position at which a key can stand in the side's order (bids descending, asks ascending) |
| PriceMaps.PriceMap.Push | crates/aggserver/src/service/model.rs:345-348 | the map entry push: keeps keys strictly ordered and every bucket equal to the pushed levels at its key in arrival order; fails exactly when the bucket already holds n levels |
| Buckets.SortByAmount | crates/aggserver/src/service/model.rs:368 | a permutation in descending amount; fails exactly when two or more levels include a NaN amount |
| Buckets.RankIsPosition | crates/aggserver/src/service/model.rs:364-366 | the number of distinct better prices of a bucket's key is its position in the map, so `take(N)` is a rank bound |
| Buckets.KeptIsInFirst | crates/aggserver/src/service/model.rs:364-366 | a level's price is among the n best exactly when its key is in one of the first n buckets |
| Buckets.TakeSorted | crates/aggserver/src/service/model.rs:364-380 | take, sort and flatten give the specified side; a panic exactly when a NaN amount shares a kept price |
| Combined.CombinedSummary.UpdateSnapshot | crates/aggserver/src/service/model.rs:319-322 | overwrites the slot of the snapshot's source and no other, and keeps every slot empty or of its own source |
| Combined.CombinedSummary.FillMaps | crates/aggserver/src/service/model.rs:330-362 | the loop over the slots puts exactly all levels of the non-empty slots in the maps and finds the latest arrival; it stops only when a bucket overflows |
| Combined.PushAll | crates/aggserver/src/service/model.rs:339-349 | pushing one source's levels fails exactly when some price then occurs more than n times |
| Combined.CombinedSummary.ToProto | crates/aggserver/src/service/model.rs:325-390 | returns the specified summary, and panics exactly when a keyed price occurs more than n times on a side or a NaN amount shares a kept price |
| SideOrders.FiniteLevelsInOrder | crates/aggserver/src/service/model.rs:364-380 | on a side, finite bids fall, finite asks rise, and amounts fall at one price |
| SideOrders.InfiniteLevelsInOrder | crates/aggserver/src/service/model.rs:128-172 | infinite prices stand at the ends of a side |
| SideOrders.NaNStandsAtZero | crates/aggserver/src/service/model.rs:111-157 | a NaN price stands between the negative and the positive prices, among those at 0.0 by amount |
| Reference.ReferenceIsMerge | crates/aggserver/src/service/model.rs:364-380 | sorting all levels and cutting after the n-th distinct keyed price satisfies the specification of a side |
| Reference.MergeRefinesSortAndCut | crates/aggserver/src/service/model.rs:325-380 | a side is a correct merge if and only if it equals sort-and-cut up to levels equal in keyed price and amount |
| Reference.ConversionExists | crates/aggserver/src/service/model.rs:325-390 | slots that do not panic have a summary |
| Uniqueness.MergeUnique | crates/aggserver/src/service/model.rs:364-380 | two merges of permutations of the same levels have the same keyed prices and amounts in the same places and the same levels as a multiset |
| Uniqueness.SourceOrderIrrelevant | crates/aggserver/src/service/model.rs:332-362 | merging source A then B or B then A admits the same sides |
| Uniqueness.PublishedUnique | crates/aggserver/src/service/model.rs:382-389 | two conversions of the same slots agree in spread and time, and in the sides up to equal levels |
| Truncation.TruncationLossless | crates/aggserver/src/service/model.rs:180-204 | for strictly sorted books, merging their first n levels is merging them whole |
| Conservation.PublishedLevelsAreSourceLevels | crates/aggserver/src/service/model.rs:312-380 | each published level occurs exactly as often as the source it names supplied it, price and amount unchanged, if its price is among the n best, and not at all otherwise |
| Conservation.MergeDistinct | crates/aggserver/src/service/model.rs:364-366 | the distinct prices published are the n best ones, or all when there are fewer |
| Conservation.DepthBoundsLevels | crates/aggserver/src/service/model.rs:364-380 | a side has at most n levels if and only if there are no more to begin with, or no published price is quoted twice and there are n prices |
| MergeExamples.DepthCanBeExceeded | crates/aggserver/src/service/model.rs:364-380 | two clean slots at depth 2 every conversion of which has four bids |
| Spreads.HeadIsBest | crates/aggserver/src/service/model.rs:382 | the head of a side is a level no level of any source is better than |
| Spreads.SpreadIsGlobal | crates/aggserver/src/service/model.rs:395-400 | with positive best prices, the spread is the least ask of all sources minus the greatest bid of all sources |
| SideOrders.HeadIsBestKey | crates/aggserver/src/service/model.rs:382 | the keyed price of the head is the one best keyed price of its side |
| SideOrders.NoSpreadWithoutBothSides | crates/aggserver/src/service/model.rs:396-399 | a book with an empty side has the spread NaN |
| SideOrders.SpreadFromBest | crates/aggserver/src/service/model.rs:395-400 | the spread for every pair of best prices, infinite ones included: NaN unless both are above 0 and not both infinite, otherwise ask minus bid |
| SideOrders.SpreadIsFiniteExactly | crates/aggserver/src/service/model.rs:395-400 | the spread is a finite number if and only if both sides have a finite best price above 0 |
| Spreads.BestExists | crates/aggserver/src/service/model.rs:395-400 | a non-empty side of finite positive prices has such a best price |
| Spreads.SupersetNeverWidens | crates/aggserver/src/service/model.rs:319-322 | replacing a snapshot by one with a superset of its levels never increases the spread |
| PanicFreedom.SidePanicsExactly | crates/aggserver/src/service/model.rs:326-380 | for one side, with distinct prices per source and comparable amounts: a panic exactly at depth 1 with a shared price |
| PanicFreedom.PanicsExactly | crates/aggserver/src/service/model.rs:325-380 | for the whole conversion: it panics if and only if the depth is 1 and both sources quote one price on one side |
| MergeExamples.DepthOneCanPanic | crates/aggserver/src/service/model.rs:326-348 | two clean slots whose conversion panics at depth 1 |
| Updates.FoldKeepsLast | crates/aggserver/src/service/model.rs:319-322 | after any sequence of updates each slot holds the last snapshot of its source, or the default |
| Updates.FoldValid | crates/aggserver/src/service/model.rs:312-316 | every sequence of updates keeps the slot invariant, default ids included |
| Updates.InterleavingIndependent | crates/aggserver/src/service/publisher.rs:142-153 | two update sequences with the same last snapshot per source end in the same slots and the same summary |
| Updates.LatestTimeIsMax | crates/aggserver/src/service/model.rs:330-337 | the published time is the maximum over the non-empty slots, 0 without any |
| Updates.ArrivalDropsExactly | crates/aggserver/src/service/model.rs:319-337 | an update lowers the published time if and only if the replaced snapshot alone was latest and the new one is empty or earlier |
| Updates.TimelyStep | crates/aggserver/src/service/model.rs:319-337 | an update that is not empty and not earlier than its source's previous one does not lower the time |
| Updates.ArrivalNeverDecreases | crates/aggserver/src/service/publisher.rs:142-153 | along a run of non-empty snapshots with non-decreasing times per source the published time never decreases |
| Publishers.Publisher.WatchLatest | crates/aggserver/src/service/publisher.rs:46-48 | one receiver more, which has seen the current version |
| Publishers.Publisher.StoreAndNotify | crates/aggserver/src/service/publisher.rs:151-152 | what others observe is the store and then the notification, in this order; the version moves only when there is a receiver |
| Publishers.Publisher.HandleMessage | crates/aggserver/src/service/publisher.rs:145-153 | updates the source's slot, stores a conversion of the new slots and notifies, or panics without doing either |
| Publishers.Publisher.Consume | crates/aggserver/src/service/publisher.rs:143-160 | the loop up to the shutdown signal: one conversion stored and notified for each message, until a conversion panics |
| Publishers.Publisher.LocalRun | crates/aggserver/src/service/publisher.rs:137-167 | the values stored are one empty one, then for every message the conversion of the fold of exactly the messages so far, then the shutdown error if the loop ended; each one after the first is notified right after it is stored, so that the version grows by one for each when there is a receiver; a panic happens only where the conversion panics |
| Publishers.AnnouncedAlternates | crates/aggserver/src/service/publisher.rs:150-164 | the log of what `local_run` does alternates: the store of a value and, right after it, the notification |
| Instruments.NewInstrumentMap | crates/aggcommon/src/instrument.rs:79-85 | every instrument is filed under its own symbol, the last one of a symbol wins, no symbol is lost |
| LifecycleTheorems.RunInv | crates/aggserver/src/service/manager.rs:86-344 | every reachable state satisfies the invariants: references, lock ownership, what the lock holder established, counts, transitions, ownership, finality |
| OpenResults.FeedIsOfSymbol | crates/aggserver/src/service/manager.rs:267-308 | in every run the feed a client gets, subscribes to and leaves is the feed of the symbol it asked for |
| OpenResults.LoadFlagExactly | crates/aggserver/src/service/manager.rs:270-272 | `open` is refused by the flag if and only if some shutdown stored it before |
| OpenResults.LookupExactly | crates/aggserver/src/service/manager.rs:274-283 | for the symbol asked for: the mapped feed if there is one, creation if only the table knows it, an error otherwise, and no change to map, feeds or lock |
| OpenResults.InsertExactly | crates/aggserver/src/service/manager.rs:285-307 | a feed is created only under the symbol asked for, known to the table and not mapped; it starts unsubscribed and goes to the client that created it |
| OpenResults.WhyRefused | crates/aggserver/src/service/manager.rs:270-296 | a client is refused only after reading the flag as true, after finding its symbol neither mapped nor in the table, or after the creation of its feed failed |
| LifecycleProgress.HolderCanMove | crates/aggserver/src/service/manager.rs:267-344 | no deadlock: whoever holds the `feeds` lock has a step |
| LifecycleProgress.ClientMovesExactly | crates/aggserver/src/service/manager.rs:86-308 | a client is without a step if and only if it is gone or waits for a lock that is held, and waiting it can give up |
| LifecycleProgress.CreationIsOpen | crates/aggserver/src/service/manager.rs:285-305 | starting the sources may succeed, with any new feed, or fail |
| LifecycleProgress.TimerMovesExactly | crates/aggserver/src/service/manager.rs:193-208 | a removal task is without a step if and only if it is finished or waits for a lock that is held |
| LifecycleProgress.CloserMovesExactly | crates/aggserver/src/service/manager.rs:316-326 | a shutdown is without a step if and only if it has shut every feed it took down or waits for a lock that is held |
| LifecycleInvariants.OpenKeepsLock | crates/aggserver/src/service/manager.rs:267-308 | every step of `open` keeps the `feeds` lock with exactly the task whose position holds it |
| LifecycleInvariants.OpenKeepsHeld | crates/aggserver/src/service/manager.rs:274-305 | between its lookup and its insert no other task can map the symbol |
| LifecycleInvariants.TimerKeepsHeld | crates/aggserver/src/service/manager.rs:337-339 | between the check and the removal the feed stays mapped |
| LifecycleCounts.PublishKeepsCount | crates/aggserver/src/service/manager.rs:175-187 | each `fetch_add` and `fetch_sub` keeps the count equal to the number of subscribed tasks, wrap-around included in the model |
| LifecycleCounts.SubscriberKeepsCount | crates/aggserver/src/service/manager.rs:175-181 | a subscriber between `fetch_add` and `notify_waiters` keeps the count at least 1 |
| LifecycleCounts.PublishKeepsLatest | crates/aggserver/src/service/manager.rs:175-200 | the removal task of the latest transition of an unused feed has not been notified, whatever subscribers do |
| LifecycleTheorems.NoOrphanFeed | crates/aggserver/src/service/manager.rs:175-210 | a mapped feed that was subscribed and has no subscriber has, from its latest 1-to-0 transition, a task spawned or about to be, which has not finished its check and has not been notified |
| LifecycleTheorems.CancelledOnlyAfterReturn | crates/aggserver/src/service/manager.rs:193-206 | a removal task can be cancelled only when its feed has a subscriber again or a later transition has spawned another task |
| Subscriptions.NotifyWakesExactly | crates/aggserver/src/service/manager.rs:177-180 | a notification makes exactly the removal tasks of the feed that wait at that moment cancellable and leaves every other one alone |
| Subscriptions.SubscribeExactly | crates/aggserver/src/service/manager.rs:175-181 | subscribing counts one more, wakes nobody by itself, and is followed by a notification if and only if the count was 0 |
| Subscriptions.CancelledIsFinished | crates/aggserver/src/service/manager.rs:194-206 | a cancelled removal task stays finished in every extension: it never checks, removes or shuts down |
| Subscriptions.UnsubscribeExactly | crates/aggserver/src/service/manager.rs:184-193 | leaving counts one less; the last one goes on to spawn a removal task for a new transition, any other one is gone |
| Subscriptions.SpawnExactly | crates/aggserver/src/service/manager.rs:189-193 | the task spawned is for the feed and the transition of its spawner and has not registered |
| Subscriptions.EpochsAreEmptyings | crates/aggserver/src/service/manager.rs:185-187 | the transitions that carry removal tasks are exactly the steps of the run that took the count from above 0 to 0 |
| LifecycleTheorems.SubscriptionBalance | crates/aggserver/src/service/manager.rs:86-141 | the count is the number of `publish` tasks past `fetch_add` and not past `fetch_sub` |
| LifecycleTheorems.NeverUnderflows | crates/aggserver/src/service/manager.rs:185 | the count is at least 1 before every `fetch_sub` and falls by exactly 1 |
| LifecycleTheorems.OneTaskPerTransition | crates/aggserver/src/service/manager.rs:187-209 | each 1-to-0 transition has exactly one removal task, or one unsubscriber about to spawn it, never both and never two |
| LifecycleTheorems.ShutdownIsFinal | crates/aggserver/src/service/manager.rs:267-326 | after a drain the map is empty in every later state, however many calls of `open` race with it |
| LifecycleOwnership.CloserKeepsFinal | crates/aggserver/src/service/manager.rs:316-321 | the drain, done under the lock after the flag is set, leaves no client between its flag check and its insert |
| LifecycleTheorems.DrainedStays | crates/aggserver/src/service/manager.rs:316-321 | once some drain has happened it has happened in every extension of the run |
| LifecycleTheorems.SingleOwnership | crates/aggserver/src/service/manager.rs:305-344 | every feed ever inserted is mapped, or held by exactly one drain or removal task, or was shut down exactly once; exactly one of the three |
| LifecycleTheorems.LeavesMapOnlyBy | crates/aggserver/src/service/manager.rs:319-341 | a step unmaps a feed if and only if it is a drain or the removal by a task spawned for that very feed |
| LifecycleTheorems.TimerUnmapsOwn | crates/aggserver/src/service/manager.rs:332-344 | a removal task never unmaps a newer feed under the same symbol |
| LifecycleTheorems.PassedWasChecked | crates/aggserver/src/service/manager.rs:335-339 | a task about to remove its feed read it mapped with count 0 and has held the lock since that read |
| LifecycleTraces.ClosedFeedCanGainSubscriber | crates/aggserver/src/service/manager.rs:91 | a reachable state in which a feed that entered its shutdown has never had a subscriber, and the next `fetch_add` gives it one |
| LateSubscribers.UnmappedGainsExactly | crates/aggserver/src/service/manager.rs:267-308 | after any run, some extension subscribes once more to a feed that has left the map if and only if a client holds it from `open` and has not subscribed |
| LateSubscribers.ClosedGainsExactly | crates/aggserver/src/service/manager.rs:150-181 | the same for a feed that entered its shutdown |
| LifecycleTraces.LostCancellationShortensGrace | crates/aggserver/src/service/manager.rs:193-198 | a reachable state in which the removal task of an earlier departure has passed its check with no grace period for the later one |
| GracePeriods.GraceIsCutExactly | crates/aggserver/src/service/manager.rs:175-206 | after any run, a departure to 0 can be followed by the removal task of an earlier departure passing its check if and only if, at the departure, the feed is mapped, no shutdown holds the lock, and an earlier task is pending or about to be spawned |
| GracePeriods.ThreatIsReal | crates/aggserver/src/service/manager.rs:187-206 | in that case some extension lets the earlier task pass before the departing task has even spawned its own, whoever else holds the lock |
| GracePeriods.NoThreatNoPass | crates/aggserver/src/service/manager.rs:193-206 | otherwise no extension lets an earlier task pass, whatever later subscribers and departures do |
| PropagationTheorems.RunInv | crates/aggserver/src/service/publisher.rs:62-167 | every reachable state satisfies the invariants of sources, queue, publisher and clients |
| PropagationInvariants.SourceStepOk | crates/aggserver/src/service/manager.rs:373-399 | each step of a source task or its connection keeps: nothing unseen means the stored value was loaded |
| PropagationInvariants.SendKeepsQueue | crates/aggserver/src/service/manager.rs:377 | a send keeps the last message of each source, consumed or queued, the one it forwarded last |
| PropagationInvariants.PubKeepsPub | crates/aggserver/src/service/publisher.rs:142-164 | each publisher step keeps the history of stored values tied to the consumed prefix |
| PropagationTheorems.NoLostUpdate | crates/aggserver/src/service/manager.rs:367-398 | a source task waiting with nothing unseen, its connection not between store and send, has loaded the stored value, snapshot or error |
| PropagationProgress.RoundExactly | crates/aggserver/src/service/manager.rs:374-397 | from a wakeup the task loads what is stored, has nothing unseen, and sends it if and only if it is a snapshot |
| PropagationProgress.FirstRoundExactly | crates/aggserver/src/service/manager.rs:367-393 | so does the first round, which starts by subscribing |
| PropagationProgress.TaskMovesExactly | crates/aggserver/src/service/manager.rs:373-399 | a source task is without a step if and only if it has stopped, waits with nothing unseen (the wait has no shutdown arm), or sends to a full open queue before the shutdown signal |
| PropagationProgress.SendOrGiveUp | crates/aggserver/src/service/manager.rs:410-426 | a send is abandoned only after the shutdown signal or on a closed queue, and goes through only to an open queue with room |
| PropagationProgress.ConnNotifyReaches | crates/aggserver/src/service/sources/binance.rs:126-127 | after the notification of a connection a waiting task can wake; the version moves if and only if the task watches |
| PropagationProgress.StopsOnlyFor | crates/aggserver/src/service/publisher.rs:63 | the queue never exceeds its capacity; a source task stops only after the shutdown signal or on a closed queue, a connection only after the signal |
| PropagationProgress.PubMovesExactly | crates/aggserver/src/service/publisher.rs:137-167 | the publisher is without a step if and only if it has crashed or ended, or has an empty queue and no shutdown to take |
| PropagationProgress.MessageExactly | crates/aggserver/src/service/publisher.rs:145-148 | on its next message the publisher panics if and only if the conversion of the new slots does, and otherwise takes it and publishes such a conversion |
| PropagationProgress.PubNotifyReaches | crates/aggserver/src/service/publisher.rs:151-164 | after a notification every waiting client can wake; without a watching client the version stays |
| PropagationTheorems.QuiescentAgreement | crates/aggserver/src/service/manager.rs:366-398 | with nothing on its way the latest value is the conversion of each source's last forwarded snapshot, and that is the stored one wherever a snapshot is stored |
| PropagationTheorems.PublisherRunShape | crates/aggserver/src/service/publisher.rs:62-167 | the k-th value stored is the conversion of the fold of the first k messages consumed, the first is empty, and a shutdown error is the last |
| PropagationTheorems.LatestOnlyGrows | crates/aggserver/src/service/publisher.rs:151-164 | no step rewrites a stored value, and nothing is stored after the shutdown error |
| PropagationTheorems.ClientOrder | crates/aggserver/src/service/manager.rs:93-138 | the publisher indices of the summaries sent to one client never decrease, and each was a stored summary |
| PropagationTheorems.ClientFreshExactly | crates/aggserver/src/service/manager.rs:110-138 | an idle client with nothing unseen, the publisher not between store and send, has the latest value if and only if it has woken once or nothing was stored between its first load and its subscription |
| Deliveries.WokenWasSent | crates/aggserver/src/service/manager.rs:118-126 | a client that has woken and waits again has loaded a summary, and it is the last one it was sent |
| Deliveries.FirstWasSent | crates/aggserver/src/service/manager.rs:96-108 | past its first load and before its first wakeup a client was sent the summary it loaded, if any, and nothing else |
| Deliveries.IdleHasLatest | crates/aggserver/src/service/manager.rs:110-138 | a woken client with nothing unseen, the publisher not between store and send, was sent the latest summary last |
| Deliveries.WakeupExactly | crates/aggserver/src/service/manager.rs:113-132 | a wakeup reads the latest value: a summary is sent, the shutdown error ends the client, and the empty value is never read then |
| Deliveries.FirstLoadExactly | crates/aggserver/src/service/manager.rs:96-110 | a summary is sent before the client watches, anything else is not, and the watch starts with nothing unseen |
| Deliveries.WhyLeft | crates/aggserver/src/service/manager.rs:97-140 | a client leaves only at the shutdown error, during a send, or after the shutdown signal |
| PropagationProgress.ClientMovesExactly | crates/aggserver/src/service/manager.rs:93-138 | a client is without a step if and only if it has left, or waits with nothing unseen and no shutdown signal to receive |
| PropagationOrder.SourceOrder | crates/aggserver/src/service/manager.rs:374-395 | the messages of a source, consumed or queued, are snapshots its connection stored in the run, at store indices that never decrease |
| PropagationOrder.StoresThenNotifies | crates/aggserver/src/service/sources/binance.rs:126-127 | over every run a connection stores and notifies in turn, the store first, reconnects included |
| PropagationOrder.StoppedStoresNothing | crates/aggserver/src/service/sources/bitstamp.rs:59-70 | a connection that has stopped stores nothing more |
| PropagationOrder.ConsumedIsTimely | crates/aggserver/src/service/publisher.rs:145-147 | if no connection stores an empty snapshot and the times each stores never decrease, the same holds of what the publisher consumes |
| PropagationOrder.PublishedTimesNeverDecrease | crates/aggserver/src/service/publisher.rs:142-153 | in a run in which each connection stores non-empty snapshots at non-decreasing times, the arrival times of the stored summaries never decrease |
| PropagationTheorems.PublisherCrashesExactly | crates/aggserver/src/service/publisher.rs:147-148 | with distinct prices and comparable amounts in each snapshot, the publisher can panic on its next message if and only if the depth is 1 and the message makes both sources quote one price on a side |
| PropagationTheorems.PublisherNeverCrashes | crates/aggserver/src/service/publisher.rs:147-148 | at depth 2 or more, with distinct prices and comparable amounts in each snapshot, the publisher cannot panic in any interleaving |
| PropagationTraces.FirstUpdateCanBeMissed | crates/aggserver/src/service/manager.rs:96-110 | a reachable state, at any depth from 1, in which a client waits with nothing unseen and nothing sent to it while a summary with a bid is published |
| PropagationTraces.PublisherCanCrash | crates/aggserver/src/service/publisher.rs:147-148 | at depth 1 a reachable state in which one quote of each exchange has crashed the publisher |
| PropagationEnd.IdleForEverExactly | crates/aggserver/src/service/manager.rs:93-138 | once the publisher has ended, an idle client stays in place in every extension if and only if it subscribed to the shutdown signal after it was sent and has nothing unseen; every other idle client can wake or leave |
| PropagationEnd.StrandedForEver | crates/aggserver/src/service/manager.rs:110-138 | such a client is unchanged by every extension of the run |
| PropagationTraces.LateClientCanWait | crates/aggserver/src/service/manager.rs:93-110 | a reachable state with such a client |
| EndToEnd.StrictParses | crates/aggserver/src/service/sources/binance.rs:172-190 | a strictly sorted numeric side parses without error or panic, at any depth |
| EndToEnd.QuiescentShowsWholeBooks | crates/aggserver/src/service/publisher.rs:142-153 | with nothing on its way, and both connections holding what their parsers made of two books, the latest value is the merge of the two whole books cut at the n best prices |
| EndToEnd.QuiescentSpread | crates/aggserver/src/service/model.rs:382-400 | and, for n >= 1, its spread is the least ask of the whole books minus their greatest bid wherever both are positive |

## Left out

- WebSocket connections, TLS, ping, backoff and JSON decoding: the model starts from decoded entries, and a reconnect is a step that stores an error.
- The gRPC service, stream wrappers, configuration, client display, logging and build files.
- Wall-clock time: a task's own grace period is a step that may happen at any time, so `GracePeriods` is about the tasks of earlier departures; arrival times are inputs.
- Rounding of f64 and the sign of zero: finite values are exact reals, -0.0 is 0.0.
- Buckets.SortByAmount: the order of levels of equal amount is the one of an insertion sort here; the contract leaves it open, as `sort_unstable_by` does, and every caller relies on the contract alone.
- Liveness: no promise that `Feed::shutdown` or `wait_complete` returns, that a source task ends (it has no shutdown arm while it waits), or that a removal task is ever scheduled.
- The publisher's join handle, stored by a separate task and taken by `wait_complete`: it decides only who waits.
- Source tasks, connections and clients that panic or are aborted: only the conversion's panic in the publisher is a step. A parser's panic is a result of `ParseBinance` that no step takes up.
- The manager, feeds and their tasks are values of the step systems, not classes: sharing through `Arc` and update in place are not represented, atomicity is that of the steps.
- Lifecycle and propagation are separate step systems: entering `Feed::shutdown` in one is the `Signal` step of the other, with no joint theorem.
- Publishers.Publisher.LocalRun: the order in which `select!` takes messages and the shutdown signal is the given sequence of events; the interleaving with the other tasks is in `PropagationTheorems.PublisherRunShape`.
- Parsers.ParseBitstamp: the checks of the event name and the channel before the loops are left out; a message that fails them yields no snapshot.
- The name of a level's exchange is the source's identifier, not its printed string.
- `SourceId` parsing, `Instrument` lookups and the factory map, beyond the agreement of map key and symbol: starting the sources is a step that may fail.
