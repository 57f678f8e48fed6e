# Verified model of the Biei render scheduler and the Ishikari tile reader

Biei is a distributed map renderer: nodes gossip what their workers have loaded,
route each request to a node that is warm for its style, and share finished images
through a cache with one leader per key. Ishikari reads PMTiles archives through a
range source. This project models the parts of both whose correctness spans several
functions, threads or machines, and proves it for all inputs, all interleavings and
all reachable states.

How the model is laid out:

- **Worker pool and worker** (`PoolState`, `WorkerPick`, `Scheduler`,
  `WarmPrediction`, `LastTaken`, `RendererSync`, `WarmRace`, `Refusal`, `Permits`). `PoolState` is the object behind the
  pool's lock. `Scheduler` is the whole machine of callers, channels, staged workers
  and completion guards as interleaved atomic events; the other modules prove what
  every run keeps. It relates three views that the program updates separately: the
  atomic queue depths, the pool's predictions and each worker's own loaded profile.
- **Output cache** (`Namespaces`, `CacheKey`, `RenderFlight`): grants, faithful keys,
  and the single-flight protocol.
- **Node** (`NodeIngress`): one request through cache, dispatcher decision, local pool
  and peer failover, against a clock, probe, pool and peers that may answer anything.
- **Dispatcher** (`Hrw`, `Tier3`, `Dispatcher`): the four tiers of the routing decision.
- **Gossip and wire** (`Decimal`, `GossipText`, `Gossip`, `Wire`).
- **Auth registry** (`AuthRefresh`): refresh, check-then-install and single flight.
- **PMTiles** (`Varint`, `Directory`, `DirectoryCodec`, `TileLookup`, `Reader`,
  `ArchiveFile`, `TileId`): parser, codec, lookup, bounded walk, cached reader, what it
  answers over a file, and tile ids.

`dafny verify dfyconfig.toml` checks everything.

## Conventions

- Time, durations and instants are numbers; randomness, clocks, the network, health
  probes, JSON, hashes and decompression are parameters, arbitrary unless a contract
  says otherwise. A method's query counter lets the outside world change its answer
  at every question.
- Machine integers are written out where they matter: 64-bit limits in the parser,
  wrapping generations and counters in the pool, the 32-bit narrowing of a queue depth
  in the drain estimate, saturating budgets on the wire.
- A lock-protected region, an atomic instruction or a cache operation is one event.
  Cancellation happens only where the program awaits. Cached entries may vanish at any
  event.
- A string is its UTF-8 bytes, one character each.

## Where the code falls short of what one would expect

- *Warm predictions can be wrong for an idle worker.* `process` records the prediction
  under the lock and sends the command afterwards
  (crates/biei-core/src/worker_pool.rs:477-505), so two callers can record in one order
  and send in the other. After the newest dispatch a prediction is always right
  (`LastTaken.LatestTakenIsSound`). A late command that meets a right prediction keeps
  it right if and only if its verdict does not make the worker forget what it holds and
  it wanted the predicted profile or never finished a set-up (`LastTaken.LateCommand`,
  for every interleaving and every verdict). Both ways to fail are reachable: a late
  command for another profile completes (`WarmRace.OutOfOrderBreaksPrediction`), or one
  for the same profile times out, the worker forgets its profile
  (crates/biei-core/src/worker.rs:170-173) and its stale guard withdraws nothing
  (`WarmRace.LateFailureBreaksPrediction`).
- *The drain estimate narrows the queue depth to 32 bits*
  (crates/biei-core/src/dispatcher.rs:118). `Tier3.EstimateIsExactIff` gives the exact
  depths for which this is harmless; saturation never matters.
- *A worker whose style id is empty disappears from gossip*
  (crates/biei-core/src/types.rs:302-304): `Gossip.DecodeEncoded` returns the encoded list
  if and only if no loaded style id is empty.
- *Remote gossip keys are never deleted*: `Gossip.Publisher.PublishRound` keeps the remote
  map equal to the snapshot exactly when no key disappears, which a fixed worker count
  guarantees (`Gossip.RemoteIsLatest`).

## Model

| member | source | states |
|---|---|---|
| PoolState.MarkLoadedWellFormed | crates/biei-core/src/worker_pool.rs:153-168 | marking a dispatch keeps the count table a recount of the predictions (absent exactly at zero) and every affinity set equal to its duplicate-free queue of at most 64; the new prediction is the dispatched profile and no other worker changes |
| PoolState.MarkSourceWellFormed | crates/biei-core/src/worker_pool.rs:170-186 | touching an addlayer source keeps the same invariants |
| PoolState.ClearIfLatestWellFormed | crates/biei-core/src/worker_pool.rs:188-200 | withdrawing a prediction keeps the same invariants, does nothing for a stale generation and clears exactly that worker for the latest one |
| PoolState.TouchedKeepsShape | crates/biei-core/src/worker_pool.rs:170-186 | the LRU touch leaves a duplicate-free queue within capacity whose newest element is the touched one |
| PoolState.TouchedSurvivors | crates/biei-core/src/worker_pool.rs:170-186 | an older element survives a touch exactly when fewer than capacity minus one others are newer, and keeps its place among them |
| PoolState.MarkLoadedEffect | crates/biei-core/src/worker_pool.rs:153-168 | a dispatch moves the generation and the time stamp, and clears the slot's sources exactly when its profile changes |
| PoolState.MarkSourceEffect | crates/biei-core/src/worker_pool.rs:170-186 | the touched source is remembered, nothing else of the pool changes, and nobody is forgotten while there is room |
| PoolState.ClearEffect | crates/biei-core/src/worker_pool.rs:188-200 | a withdrawal forgets profile, time stamp and sources and keeps the generation |
| PoolState.InitialWellFormed | crates/biei-core/src/worker_pool.rs:142-151 | a new pool satisfies the invariants |
| PoolState.Pool.constructor | crates/biei-core/src/worker_pool.rs:142-151 | the object starts as the initial view |
| PoolState.Pool.DecrementProfileCount | crates/biei-core/src/worker_pool.rs:202-212 | one count less, the entry gone at zero |
| PoolState.Pool.ClearAddlayerSources | crates/biei-core/src/worker_pool.rs:214-217 | exactly that slot forgets its sources |
| PoolState.Pool.MarkLoaded | crates/biei-core/src/worker_pool.rs:153-168 | the in-place update is the specified transition, keeps the invariant and returns the new generation |
| PoolState.Pool.MarkAddlayerSource | crates/biei-core/src/worker_pool.rs:170-186 | the in-place update is the specified LRU touch and keeps the invariant |
| PoolState.Pool.ClearLoaded | crates/biei-core/src/worker_pool.rs:188-194 | the in-place update is the specified withdrawal and keeps the invariant |
| PoolState.Pool.ClearLoadedIfLatest | crates/biei-core/src/worker_pool.rs:196-200 | the withdrawal happens for the latest generation only |
| PoolState.TouchAffinity | crates/biei-core/src/worker_pool.rs:170-186 | set and queue of one slot after a touch: the queue is the LRU touch, the set is its elements |
| PoolState.EvictOldest | crates/biei-core/src/worker_pool.rs:179-183 | the eviction loop keeps the newest capacity-minus-one entries |
| PoolState.SourceCache.constructor | crates/biei-core/src/worker.rs:73-78 | a capacity of at least one |
| PoolState.SourceCache.Contains | crates/biei-core/src/worker.rs:80-82 | membership |
| PoolState.SourceCache.Touch | crates/biei-core/src/worker.rs:84-92 | the in-place queue becomes the LRU touch of the old one |
| PoolState.SourceCache.Clear | crates/biei-core/src/worker.rs:94-96 | empty again |
| WorkerPick.BestAvailableWorker | crates/biei-core/src/worker_pool.rs:376-402 | nothing is chosen exactly when every worker is at the hard limit; otherwise the first worker with the least lexicographic score among those below it |
| WorkerPick.LexTrichotomy | crates/biei-core/src/worker_pool.rs:33-42 | scores are totally ordered |
| WorkerPick.LexTransitive | crates/biei-core/src/worker_pool.rs:33-42 | the score order is transitive |
| WorkerPick.PickPreferences | crates/biei-core/src/worker_pool.rs:569-586 | comfortable warm worker, then fresh, then warm under the soft limit, then idle with another profile, then warm under the hard limit, then the rest |
| WorkerPick.TieBreaks | crates/biei-core/src/worker_pool.rs:601-613 | among equals the worker with the wanted source, then the shorter queue |
| WorkerPick.SwapTieBreaks | crates/biei-core/src/worker_pool.rs:588-600 | among idle swaps: last copies spared, same shape first, most copied first, longest unused first |
| WorkerPick.EvictsLastCopyOnlyIfForced | crates/biei-core/src/worker_pool.rs:569-613 | an idle profile is given up only with no fresh worker and no warm worker under the soft limit, and a last copy only when every comparable idle swap candidate holds a last copy |
| WorkerPick.LastCopyIsProtected | crates/biei-core/src/worker_pool.rs:569-613 | without an addlayer source a last copy is safe while a duplicated profile is idle |
| Scheduler.StepAccounting | crates/biei-core/src/worker_pool.rs:407-424 | every event keeps each depth equal to the number of live reservations and within the hard limit |
| Scheduler.StepReserveAccounting | crates/biei-core/src/worker_pool.rs:407-424 | a successful compare-and-swap adds one reservation and stays within the limit |
| Scheduler.SlotIffBelowLimit | crates/biei-core/src/worker_pool.rs:407-424 | a slot is to be had exactly below the hard limit |
| Scheduler.LimitsAreClamped | crates/biei-core/src/worker_pool.rs:286-300 | the limits a pool starts with are those asked for where sensible, the nearest sensible ones otherwise |
| Scheduler.AnyStageMayFail | crates/biei-core/src/worker.rs:205-334 | any renderer error may end a set-up, a source or a render, the deadline any stage |
| Scheduler.MarkRemembersSource | crates/biei-core/src/worker_pool.rs:477-484 | a marked source is remembered for that worker |
| Scheduler.StepReleaseAccounting | crates/biei-core/src/worker_pool.rs:119-127 | giving a slot back never wraps the counter |
| Scheduler.PlacementMark | crates/biei-core/src/worker_pool.rs:480-489 | marking under the lock predicts the dispatched profile and keeps tickets, channels and running commands consistent |
| Scheduler.PlacementSend | crates/biei-core/src/worker_pool.rs:493-512 | a sent command is in exactly one channel |
| Scheduler.PlacementAbandon | crates/biei-core/src/worker_pool.rs:119-127 | a guard dropped in the caller keeps the placement |
| Scheduler.PlacementTake | crates/biei-core/src/worker.rs:133-150 | a worker takes the head of its channel and no other |
| Scheduler.PlacementFinish | crates/biei-core/src/worker_pool.rs:107-117 | finishing a command keeps the placement |
| Scheduler.PlacementDropQueued | crates/biei-core/src/worker_pool.rs:119-127 | commands left in a dead worker are dropped one by one |
| Scheduler.StepPlacement | crates/biei-core/src/worker_pool.rs:445-513 | all seventeen kinds of event keep tickets, channels, running commands and the pool view consistent |
| WarmPrediction.StepHistory | crates/biei-core/src/worker_pool.rs:153-200 | every event keeps the prediction absent or equal to the newest dispatch |
| WarmPrediction.StepStagesKnow | crates/biei-core/src/worker.rs:205-320 | a worker past its setup stage holds the profile and partition its command wants |
| WarmPrediction.OlderFailureKeepsPrediction | crates/biei-core/src/worker_pool.rs:107-127 | retiring an older command never clears a newer prediction |
| WarmPrediction.StepSound | crates/biei-core/src/worker.rs:133-187 | every event keeps: in dispatch order, a prediction is backed by a live newest command or by what the idle worker holds |
| WarmPrediction.RunKeeps | crates/biei-core/src/worker_pool.rs:72-127 | all invariants hold after every run |
| WarmPrediction.DepthCountsLiveReservations | crates/biei-core/src/worker_pool.rs:72-127 | in every reachable state each depth is the commands in the channel, plus the running one, plus the reservations callers have not sent or not yet given back; it is within the limit and positive while a guard may still release |
| WarmPrediction.PredictionIsLatestDispatch | crates/biei-core/src/worker_pool.rs:153-200 | in every reachable state a prediction is absent or the newest dispatched profile, and the count table is a recount |
| WarmPrediction.IdleWarmIsSound | crates/biei-core/src/worker.rs:133-187 | a live idle worker whose commands arrived in dispatch order holds what the pool predicts |
| LastTaken.StepKnown | crates/biei-core/src/worker.rs:133-187 | every event keeps: a running command is the one taken last, the worker holds what it held then or what the command set up, and after the newest dispatch the prediction is right |
| LastTaken.LatestTakenIsSound | crates/biei-core/src/worker.rs:133-187 | in every reachable state a worker between commands whose last command was the newest dispatch is predicted rightly, whatever was reordered before |
| LastTaken.IdleLatestIsSound | crates/biei-core/src/worker_pool.rs:107-127 | the same for a worker with no reservation left |
| LastTaken.LateVerdict | crates/biei-core/src/worker.rs:163-186 | when any older command ends in any reachable state, a prediction that was right at its start is right afterwards if and only if the verdict invalidates nothing and the command wanted the predicted profile or never finished a set-up |
| LastTaken.LateCommand | crates/biei-core/src/worker_pool.rs:476-513 | the same over every interleaving between the take and the end, told by the events that occurred |
| RendererSync.StepInSync | crates/biei-core/src/worker.rs:161-186 | every event keeps worker and renderer in step, or the worker about to catch up |
| RendererSync.WorkerKnowsRenderer | crates/biei-core/src/worker.rs:165-203 | in every reachable state a worker between commands knows exactly what its renderer holds: the five errors that cost the renderer its style are the five that clear the worker's view |
| RendererSync.RendersOnOwnProfile | crates/biei-core/src/worker.rs:219-300 | no command fetches sources, waits or renders on a renderer that does not hold its profile and partition |
| RendererSync.SetsUpExactlyWhenNeeded | crates/biei-core/src/worker.rs:219-222 | a set-up is planned exactly when the renderer holds something else |
| WarmRace.ServeWith | crates/biei-core/src/worker.rs:133-187 | from any reachable state a ready worker can serve the head of its channel in time, or an older command past its deadline, and this is the state it reaches |
| WarmRace.Serve | crates/biei-core/src/worker.rs:133-187 | from any reachable state a ready worker can serve the head of its channel to completion, and this is the state it reaches |
| WarmRace.LateCompletion | crates/biei-core/src/worker_pool.rs:476-513 | an older command still in its caller's hands after the newest was served can be sent and complete; the prediction is then right exactly when both wanted the same profile |
| WarmRace.OutOfOrderBreaksPrediction | crates/biei-core/src/worker_pool.rs:480-513 | for any two profiles a reachable state has an idle live worker that holds one while the pool predicts the other |
| WarmRace.LateFailureBreaksPrediction | crates/biei-core/src/worker.rs:165-175 | for any profile a reachable state has an idle live worker that holds nothing while the pool predicts the profile: an older command for the same profile timed out |
| Refusal.PhasesAdvance | crates/biei-core/src/worker_pool.rs:445-513 | no event takes a command back to an earlier phase |
| Refusal.RefusedNeverReachedWorker | crates/biei-core/src/worker_pool.rs:491-512 | a command its caller can still abandon was never in a channel and never running, over any run |
| Permits.StepPermits | crates/biei-core/src/worker.rs:205-334 | every event conserves both semaphores and keeps what a worker holds determined by its stage |
| Permits.RunPermits | crates/biei-core/src/worker.rs:205-334 | the same over every run |
| Permits.PermitsAreNested | crates/biei-core/src/worker_pool.rs:296-300 | in every run native holders are render holders, limits hold, idle workers hold nothing, and an exhausted native semaphore has a holder of both that renders or unwinds |
| Permits.NoDeadlock | crates/biei-core/src/worker.rs:205-334 | while any worker is busy some busy worker can take its next step |
| Permits.NeverDeadlocks | crates/biei-core/src/worker.rs:205-334 | the same in every reachable state |
| Permits.ProgressDrains | crates/biei-core/src/worker.rs:205-334 | each such step lowers the remaining work, so busy workers drain |
| Namespaces.TryNew | crates/biei-core/src/types.rs:105-129 | accepted exactly for 1 to 1024 valid names; the result is sorted, duplicate-free, has the same names, or is the lone wildcard |
| Namespaces.TryFromShared | crates/biei-core/src/types.rs:131-151 | accepted exactly when already in that normal form |
| Namespaces.BinarySearch | crates/biei-core/src/types.rs:158-166 | finds a name exactly when it is in the sorted list |
| Namespaces.Allows | crates/biei-core/src/types.rs:158-166 | decides coverage |
| Namespaces.CoversIsInclusion | crates/biei-core/src/types.rs:158-166 | coverage is exactly inclusion of the namespaces the two grants open |
| Namespaces.CoversTransitive | crates/biei-core/src/types.rs:158-166 | coverage composes |
| CacheKey.AddlayerIdentity | crates/biei-core/src/render_cache.rs:312-324 | the appended text is the framing of one or three components |
| CacheKey.FramesInjective | crates/biei-core/src/render_cache.rs:312-324 | length framing is injective for any components of any number |
| CacheKey.IdentityInjective | crates/biei-core/src/render_cache.rs:312-324 | equal identities mean equal layer text and source |
| CacheKey.OverlayFaithful | crates/biei-core/src/render_cache.rs:406-475 | overlays have equal keys exactly when they are equal, GeoJSON when it prints alike |
| CacheKey.KeyIsFaithful | crates/biei-core/src/render_cache.rs:260-375 | two tasks share a key exactly when style, scale, format, source and request agree, GeoJSON by its printed text and layers without their hash |
| CacheKey.FaithfulPrinterSharesEqual | crates/biei-core/src/render_cache.rs:424-435 | with an injective printer, tasks that share a key have equal requests up to the layer |
| RenderFlight.StepInv | crates/biei-core/src/render_cache.rs:152-248 | every step keeps the match of flights and leaders, the debt of each channel and the provenance of each entry |
| RenderFlight.RunInv | crates/biei-core/src/render_cache.rs:152-248 | the same over every run |
| RenderFlight.FlightsMatchLeaders | crates/biei-core/src/render_cache.rs:152-190 | in every reachable state flight keys are exactly the keys of live leaders, one each |
| RenderFlight.NoLostWakeup | crates/biei-core/src/render_cache.rs:238-248 | a waiting caller can wake now, or the owner of its channel leads or is mid-drop and the rest of that drop wakes it |
| RenderFlight.SignalIsStable | crates/biei-core/src/render_cache.rs:193-206 | a signalled channel stays signalled |
| RenderFlight.HitsAreAuthorized | crates/biei-core/src/render_cache.rs:47-53 | every cached answer was stored by a leader of an equal key under a requirement the grant covers; no grant matches only no grant |
| RenderFlight.LeaderStores | crates/biei-core/src/render_cache.rs:210-235 | a leader's image becomes resident under its requirement, unless one with another requirement is, which stays |
| RenderFlight.ResidentIsServed | crates/biei-core/src/render_cache.rs:152-190 | a resident image the caller may read is served, before and under the lock |
| RenderFlight.MissIsElected | crates/biei-core/src/render_cache.rs:152-190 | any other lookup joins the flight of its key, or starts it and leads |
| RenderFlight.StoredIsServed | crates/biei-core/src/render_cache.rs:152-235 | what a leader stores the next caller allowed to read it gets |
| RenderFlight.WokenLooksAgain | crates/biei-core/src/render_cache.rs:193-206 | a woken caller looks again under its own grant |
| RenderFlight.NothingIsPinned | crates/biei-core/src/render_cache.rs:101-124 | any entry may vanish and any waiter give up at any moment |
| RenderFlight.RequirementIsStable | crates/biei-core/src/render_cache.rs:210-235 | no step changes the requirement of an entry that stays resident |
| RenderFlight.ResidentRequirement | crates/biei-core/src/render_cache.rs:210-235 | the same over any stretch of a run |
| NodeIngress.ProcessLocalTask | crates/biei-core/src/node.rs:599-633 | nothing is offered exactly when admission is closed; otherwise the pool is asked once |
| NodeIngress.RetryableReasons | crates/biei-core/src/types.rs:1238-1250 | the four rejections that let the search go on |
| NodeIngress.LastRejectionIsLatest | crates/biei-core/src/node.rs:774-780 | the reported rejection is the latest one any peer gave |
| NodeIngress.TryPeers | crates/biei-core/src/node.rs:686-780 | peers are tried in candidate order, each only after the one before gave a reason to move on, each with budget left; exhaustion reports the latest retryable rejection, else a transport failure, else no capacity; with time enough the search stops only at a peer's answer or the end of the list |
| NodeIngress.ForwardWithFailover | crates/biei-core/src/node.rs:660-824 | nothing is sent at the hop limit; one local overflow offer at most, only after every peer; the outcome is the ending answer, or the peers' own reason, or the lack of time, health or preparation that stopped the search; with time enough every peer is asked and then a healthy local renderer |
| NodeIngress.ProcessLocalRoute | crates/biei-core/src/node.rs:540-597 | a healthy renderer is offered the task first, with its hint; peers come in only if it refused or is down; with no peer left a refused offer means a full queue and no offer a degraded renderer or failed preparation |
| NodeIngress.AcquireCache | crates/biei-core/src/node.rs:469-526 | the first answer that is not an order to wait decides: a hit is served, a miss proceeds with leadership exactly for a leader, shed only if it needs this renderer and that is closed; no such answer means the deadline |
| NodeIngress.Route | crates/biei-core/src/node.rs:342-393 | every decision is carried out by a safe trace; a rejection for capacity turns into a degraded renderer exactly when the local one is closed |
| NodeIngress.WorkIsSafe | crates/biei-core/src/node.rs:312-396 | work whose only last event ends the search makes a safe request trace |
| NodeIngress.HandleIncoming | crates/biei-core/src/node.rs:312-396 | at most one local acceptance, no send after it, nothing sent at the hop limit or under 200 ms, exactly one recorded outcome, last and equal to the returned one; a hit is served, a miss is routed as decided exactly while view and time are there, and a leader's image is stored |
| NodeIngress.HandleForwarded | crates/biei-core/src/node.rs:410-467 | a peer task is never sent on; a miss is offered to the pool by a healthy renderer and shed by a closed one, a hit is served, unknown styles and late tasks are refused; same recording guarantees |
| Varint.ReadAtExact | crates/mmpf-pmtiles/src/format.rs:461-486 | a value is read exactly when a varint of at most ten bytes stands in front and fits in 64 bits, and it is the exact base-128 value |
| Varint.ReadVarint | crates/mmpf-pmtiles/src/format.rs:461-486 | the shifting loop computes that read and leaves the rest of the buffer |
| Varint.ReadEncoded | crates/mmpf-pmtiles/src/format.rs:461-486 | encoding any 64-bit number and reading gives it back, whatever follows |
| Directory.ReadIds | crates/mmpf-pmtiles/src/format.rs:332-338 | the id column fills in running sums, or fails as the specification does |
| Directory.ReadRuns | crates/mmpf-pmtiles/src/format.rs:339-342 | the run column is filled and nothing else changes |
| Directory.ReadLengths | crates/mmpf-pmtiles/src/format.rs:343-346 | the length column is filled and nothing else changes |
| Directory.ReadOffsets | crates/mmpf-pmtiles/src/format.rs:348-361 | the offset column is filled, a stored zero continuing the entry before |
| Directory.ParseDirectory | crates/mmpf-pmtiles/src/format.rs:304-364 | the array-filling parser is the column-wise specification, errors included |
| DirectoryCodec.ParseEncoded | crates/mmpf-pmtiles/src/format.rs:304-364 | writing an encodable entry list by section 4 of the PMTiles version 3 specification and parsing gives it back, whatever bytes follow |
| DirectoryCodec.ParsedIsEncodable | crates/mmpf-pmtiles/src/format.rs:304-364 | every parse result is encodable, and parsing its encoding gives it again: encodable lists are exactly the parse results |
| DirectoryCodec.AscendingOrder | crates/mmpf-pmtiles/src/format.rs:332-338 | encodable ids never decrease |
| DirectoryCodec.ParsedNeverDecreases | crates/mmpf-pmtiles/src/format.rs:332-338 | ids of any parse never decrease |
| TileLookup.SearchSplits | crates/mmpf-pmtiles/src/format.rs:367-385 | on non-decreasing ids the binary search finds the id or the place that separates smaller from larger ones |
| TileLookup.FindIsScan | crates/mmpf-pmtiles/src/format.rs:367-385 | on non-decreasing ids an entry is found exactly when the linear scan finds one; it starts at or before the id and is a leaf or covers it; an id that occurs is found; unless the id is repeated it is the scan's entry |
| TileLookup.ComputeArchiveLen | crates/mmpf-pmtiles/src/reader.rs:812-826 | the checked farthest end of the four sections |
| TileLookup.ArchiveLen | crates/mmpf-pmtiles/src/reader.rs:812-826 | defined exactly when no section overflows; it bounds every section and is attained |
| TileLookup.CheckedSectionOffset | crates/mmpf-pmtiles/src/reader.rs:828-846 | an accepted range lies inside its section, and a range that fits a section within 64 bits is accepted |
| TileLookup.NewWalker | crates/mmpf-pmtiles/src/reader.rs:318-330 | refused exactly for a zero depth limit or overflowing sections; otherwise a walker at depth zero that knows the archive length |
| TileLookup.StepsStayInside | crates/mmpf-pmtiles/src/reader.rs:332-367 | every range a step emits lies in its own section and within the archive |
| TileLookup.StepIsExact | crates/mmpf-pmtiles/src/reader.rs:332-367 | missing, the leaf at its place while depth allows, the tile at its place, or refused: nothing else |
| TileLookup.DirectoryWalker.Step | crates/mmpf-pmtiles/src/reader.rs:332-367 | one step answers exactly that, emits only ranges inside their sections, and a leaf step uses up one level |
| TileLookup.WalkIsBounded | crates/mmpf-pmtiles/src/reader.rs:541-581 | for any loader and however the walk ends: at most the depth limit of leaf loads, each inside the leaf section; on success exactly these are reported and the tile lies in the data section |
| TileLookup.WalkFollowsEntries | crates/mmpf-pmtiles/src/reader.rs:541-581 | a walk that answers loaded each leaf from where the entry before names it, and its tile lies where the last entry names it |
| TileLookup.RootTileIsFound | crates/mmpf-pmtiles/src/reader.rs:541-581 | a tile the root names is found at its place |
| TileLookup.LeafIsFollowed | crates/mmpf-pmtiles/src/reader.rs:541-581 | a leaf that fits and may be read is followed |
| TileLookup.CyclicLoaderIsRefused | crates/mmpf-pmtiles/src/reader.rs:332-367 | a loader whose every answer points at another leaf, cyclic or not, ends in an error |
| TileLookup.BoundIsReached | crates/mmpf-pmtiles/src/reader.rs:541-581 | leaves all the way down make the walk load exactly the depth limit and then fail |
| TileLookup.WalkIsScan | crates/mmpf-pmtiles/src/reader.rs:541-581 | over non-decreasing directories in which the id is not repeated the walk equals the walk by linear scans |
| Reader.ArchiveReader.CachedBootstrap | crates/mmpf-pmtiles/src/reader.rs:592-618 | with any honest store that other readers and evictions change at every call the answer is the uncached one and the store stays honest |
| Reader.ArchiveReader.ReadHeader | crates/mmpf-pmtiles/src/reader.rs:473-475 | same header as without a store |
| Reader.ArchiveReader.ReadMetadata | crates/mmpf-pmtiles/src/reader.rs:620-654 | same metadata as without a store |
| Reader.ArchiveReader.CachedLeaf | crates/mmpf-pmtiles/src/reader.rs:656-695 | same leaf as without a store |
| Reader.ArchiveReader.ResolveTile | crates/mmpf-pmtiles/src/reader.rs:541-581 | same resolution as without a store |
| Reader.ArchiveReader.WalkWith | crates/mmpf-pmtiles/src/reader.rs:553-581 | the loop over cached leaves is the recursive uncached walk; however it ends it asked for at most the depth limit of leaves, all inside the leaf section |
| Reader.ArchiveReader.TraceOf | crates/mmpf-pmtiles/src/reader.rs:481-501 | same trace as without a store |
| Reader.ArchiveReader.ReadTile | crates/mmpf-pmtiles/src/reader.rs:519-539 | same tile as without a store |
| Reader.DirectoryStore.GetLeaf | crates/mmpf-pmtiles/src/reader.rs:130-139 | whatever others did to the store since, an answer is in it and it is honest |
| ArchiveFile.BootstrapOfFile | crates/mmpf-pmtiles/src/reader.rs:769-798 | over a source that serves a file, header and root are the file's own bytes at their places |
| ArchiveFile.ReadOfFile | crates/mmpf-pmtiles/src/reader.rs:697-733 | a read gives exactly the bytes asked for |
| ArchiveFile.ReadsAreExact | crates/mmpf-pmtiles/src/reader.rs:697-733 | whatever the source does, oversized and short reads are refused and errors passed on |
| ArchiveFile.MetadataOfFile | crates/mmpf-pmtiles/src/reader.rs:620-654 | the metadata is the decompressed metadata section, or empty |
| ArchiveFile.LeafOfFile | crates/mmpf-pmtiles/src/reader.rs:656-695 | a leaf is the parse of its range |
| ArchiveFile.TileOfFile | crates/mmpf-pmtiles/src/reader.rs:519-581 | an answered tile is the file's bytes in the data section at the offset and length of the last entry on the way |
| ArchiveFile.RootTileOfFile | crates/mmpf-pmtiles/src/reader.rs:519-539 | a tile the root names is always served, unless it exceeds the read limit |
| ArchiveFile.LeafTileOfFile | crates/mmpf-pmtiles/src/reader.rs:519-581 | so is a tile named by a leaf the root names |
| ArchiveFile.MissingTileOfFile | crates/mmpf-pmtiles/src/reader.rs:519-539 | an id the root says nothing about is missing |
| ArchiveFile.RootTraceOfFile | crates/mmpf-pmtiles/src/reader.rs:481-501 | the trace names that place, the archive length and the size of the first read |
| ArchiveFile.RefusedLookups | crates/mmpf-pmtiles/src/reader.rs:541-551 | ids beyond the last zoom are refused |
| TileId.PyramidIsSum | crates/mmpf-pmtiles/src/format.rs:409-417 | the closed form is the sum of the smaller zooms, up to the id limit |
| TileId.TileIdInjective | crates/mmpf-pmtiles/src/format.rs:66-74 | no two tiles share an id across zooms, for any per-zoom bijective curve |
| TileId.TileIdRange | crates/mmpf-pmtiles/src/format.rs:49-64 | an id is accepted exactly when some tile up to zoom 31 has it |
| Hrw.SortIsStable | crates/biei-core/src/dispatcher.rs:469-499 | the reference sort is by falling weight and leaves equal weights in member order |
| Hrw.StableSortIsUnique | crates/biei-core/src/dispatcher.rs:469-499 | that property determines the list |
| Hrw.TakeInsert | crates/biei-core/src/dispatcher.rs:483-491 | truncating before an insertion loses nothing |
| Hrw.TopCandidates | crates/biei-core/src/dispatcher.rs:469-499 | the online insertion is the first k of the stable descending sort of the eligible members |
| Hrw.SortKeep | crates/biei-core/src/dispatcher.rs:469-499 | members that leave do not disturb the order of those that stay |
| Hrw.LeavingOutsideChangesNothing | crates/biei-core/src/dispatcher.rs:469-499 | removing members outside the result leaves it unchanged |
| Hrw.LeavingInsidePromotesNext | crates/biei-core/src/dispatcher.rs:469-499 | removing one inside only promotes the next |
| Tier3.BeforeTrichotomy | crates/biei-core/src/dispatcher.rs:348-362 | the comparator is total and asymmetric up to (node, worker) identity |
| Tier3.BeforeTransitive | crates/biei-core/src/dispatcher.rs:348-362 | the comparator is transitive |
| Tier3.OrderedIsUnique | crates/biei-core/src/dispatcher.rs:348-362 | one arrangement is ordered, whatever sorts it |
| Tier3.Scan | crates/biei-core/src/dispatcher.rs:316-338 | the loops count loaded profiles of accepting nodes exactly and collect exactly the drainable workers |
| Tier3.Tier3Candidates | crates/biei-core/src/dispatcher.rs:303-381 | the loops compute the ordered, in-time, truncated selection |
| Tier3.SelectionIgnoresEnumeration | crates/biei-core/src/dispatcher.rs:303-381 | any two enumerations of the same workers select the same list |
| Tier3.SlotsComplete | crates/biei-core/src/dispatcher.rs:316-338 | every worker of every accepting node is considered |
| Tier3.NodesPermute | crates/biei-core/src/dispatcher.rs:318-321 | reordering nodes is such an enumeration |
| Tier3.WorkersPermute | crates/biei-core/src/dispatcher.rs:322-338 | reordering workers inside nodes is such an enumeration |
| Tier3.SelectedQualify | crates/biei-core/src/dispatcher.rs:303-381 | a selected worker accepts, is under the drain limit, does not hold the profile and is in time; with room left nobody who qualifies is missing |
| Tier3.LimitIsKept | crates/biei-core/src/dispatcher.rs:364-381 | the list is within its limit exactly when the limit is positive or nobody qualifies |
| Tier3.Preferences | crates/biei-core/src/dispatcher.rs:506-519 | the comparator spares last copies, then prefers the same renderer shape, then the most copied profile (fresh workers above all), then the shorter queue |
| Tier3.SelectedAreFirst | crates/biei-core/src/dispatcher.rs:364-381 | whoever qualifies and compares before a selected worker is selected before it |
| Tier3.SoleCopyGoesLast | crates/biei-core/src/dispatcher.rs:343-362 | a last copy is offered for eviction only behind every in-time worker that is fresh or duplicated |
| Tier3.EstimateIsModular | crates/biei-core/src/dispatcher.rs:112-126 | the saturating estimate meets the deadline exactly when the queue, narrowed to 32 bits, drains in time |
| Tier3.OtherEstimates | crates/biei-core/src/dispatcher.rs:112-126 | a warm worker pays its warm render; a service time beyond the clock is always met |
| Tier3.EstimateIsExactIff | crates/biei-core/src/dispatcher.rs:112-126 | the estimate agrees with the true queue at all times exactly when the depth fits in 32 bits, tasks cost nothing, or even the narrowed queue never fits |
| Dispatcher.NewView | crates/biei-core/src/dispatcher.rs:36-40 | a local state counts only for a member, and then it is the one seen |
| Dispatcher.EntriesEnumerate | crates/biei-core/src/dispatcher.rs:36-68 | the merged iteration lists every visible state once, the local one in place of its gossiped copy |
| Dispatcher.WarmCandidate | crates/biei-core/src/dispatcher.rs:438-467 | a node is warm exactly when it accepts, a worker holds the profile, and a worker can take it without eviction; counts and spare room are exact |
| Dispatcher.WarmsAreThoseWarm | crates/biei-core/src/dispatcher.rs:128-139 | the sampled list is the warm nodes, each once, in view order |
| Dispatcher.DrawWeighted | crates/biei-core/src/dispatcher.rs:149-167 | the subtraction walk returns the owner of the ticket; nothing only at total weight zero; the code after the loop is dead |
| Dispatcher.TicketsAreShared | crates/biei-core/src/dispatcher.rs:149-167 | each candidate owns as many tickets as warm workers and no ticket has two owners |
| Dispatcher.DrawPowerOfTwo | crates/biei-core/src/dispatcher.rs:168-206 | two distinct candidates exist, the one with more spare room wins, ties go to the first |
| Dispatcher.SkipFirstIsBijective | crates/biei-core/src/dispatcher.rs:180-184 | every ordered pair of distinct candidates comes from exactly one pair of draws |
| Dispatcher.SelectWarmTarget | crates/biei-core/src/dispatcher.rs:141-207 | a target is found exactly when a warm node exists, and it is the one the configured strategy picks for these draws |
| Dispatcher.CapacityIsRoom | crates/biei-core/src/types.rs:849-863 | capacity is an accepting node with a worker below the limit |
| Dispatcher.RankMembers | crates/biei-core/src/dispatcher.rs:254-262 | the ranked members with room; none exactly when no member has room |
| Dispatcher.WarmRoute | crates/biei-core/src/dispatcher.rs:227-248 | the warm target first, then the best-ranked other member with room, missing only if no other has any |
| Dispatcher.DrainRoute | crates/biei-core/src/dispatcher.rs:264-275 | candidates accept and the hinted worker exists, holds another profile and is in time; none exactly when nothing can drain |
| Dispatcher.MaterializeIsSound | crates/biei-core/src/dispatcher.rs:383-430 | remote candidates accept and are never this node, a forward list is nonempty, a forwarded task gets no remote candidate |
| Dispatcher.MaterializeDirects | crates/biei-core/src/dispatcher.rs:383-430 | the first candidate's node decides: here with its hint and the other nodes as fallback, elsewhere a forward to the others in order, and here without hint or fallback for a task forwarded already |
| Dispatcher.DecideView | crates/biei-core/src/dispatcher.rs:223-291 | who renders follows from the candidate list alone; the list is that of the first tier with anything to offer; remote candidates accept and are not this node; rejection exactly when nobody is warm, nothing can drain and no member has room under the hard limit |
| Dispatcher.DecideWithLocalState | crates/biei-core/src/dispatcher.rs:209-216 | the decision guarantees hold for the view with the node's own fresh state laid over it; a rejection means the own renderer has no room either |
| GossipText.RevisionRoundTrip | crates/biei-core/src/types.rs:294-310 | printing and parsing a revision gives it back, `@` in the id allowed; only the empty id is lost |
| GossipText.ParsedRevisionMeans | crates/biei-core/src/types.rs:300-309 | whatever parses is a nonempty id, the last `@` and a 64-bit version |
| GossipText.RevisionTextInjective | crates/biei-core/src/types.rs:294-298 | the text tells revisions apart |
| GossipText.KeyRoundTrip | crates/biei-core/src/types.rs:789-797 | a printed worker key parses to its worker and field |
| GossipText.ParsedKeyMeans | crates/biei-core/src/types.rs:785-797 | only keys of that shape name a worker, and only the admission key admits |
| Gossip.EncodeWorker | crates/biei-core/src/types.rs:1284-1305 | exactly the four keys of one worker are written |
| Gossip.SnapshotKvs | crates/biei-core/src/worker_pool.rs:232-241 | the map holds every field of every worker, the admission flag, and nothing else |
| Gossip.CollectWorkers | crates/biei-core/src/types.rs:823-840 | the complete workers in id order, partial ones skipped |
| Gossip.FromKvs | crates/biei-core/src/types.rs:765-846 | the loop is the fold over the pairs followed by that collection |
| Gossip.DecodeEncoded | crates/biei-core/src/types.rs:765-846 | whatever order the keys come in, the flag returns, exactly the workers with nonempty style ids return, and the list is the encoded one if and only if no style id is empty |
| Gossip.DecodedWasSaid | crates/biei-core/src/types.rs:765-846 | whatever pairs arrive, a decoded worker has a queue, a style and, if loaded, a mode and a scale that were sent and parse; partial or malformed workers are left out |
| Gossip.AdmissionIsLatest | crates/biei-core/src/types.rs:779-788 | a node is routable exactly when its latest word on admission was yes |
| Gossip.Publisher.PublishRound | crates/biei-core/src/node.rs:188-205 | exactly the new and changed keys are sent; the snapshot merges into the remote map, which equals it exactly when no key disappeared |
| Gossip.RemoteIsLatest | crates/biei-core/src/node.rs:188-205 | after every round of any history the remote map is the latest snapshot |
| Gossip.ReaderSeesLatest | crates/biei-core/src/node.rs:188-205 | end to end: decoding the remote map in any order gives the latest workers and flag |
| AuthRefresh.StepInv | crates/mmpf-auth/src/lib.rs:267-425 | every step keeps the match of flights and leaders, permit conservation and what each phase knows about the installed revision |
| AuthRefresh.StepFollowers | crates/mmpf-common/src/singleflight.rs:31-47 | flight ids are fresh and every follower's flight is in the map, about to be signalled, or closed |
| AuthRefresh.StepRevisions | crates/mmpf-auth/src/lib.rs:367-411 | nothing comes between the check and the installation of a registry |
| AuthRefresh.CheckPassesIff | crates/mmpf-auth/src/lib.rs:367-391 | a fetched snapshot passes exactly for a new registry, a higher revision, or the installed revision with its own hash |
| AuthRefresh.FetchedIsInstalled | crates/mmpf-auth/src/lib.rs:366-411 | the leader's own steps then install and cache it |
| AuthRefresh.RefreshStartsFromCache | crates/mmpf-auth/src/lib.rs:322-322 | a refresh starts from what is cached at that moment |
| AuthRefresh.UnchangedIsKept | crates/mmpf-auth/src/lib.rs:338-344 | an unchanged store keeps the snapshot the refresh started from |
| AuthRefresh.FailureServesStale | crates/mmpf-auth/src/lib.rs:413-425 | a failed refresh serves the cached snapshot, and only without one an error |
| AuthRefresh.FollowerLearnsEnd | crates/mmpf-common/src/singleflight.rs:56-70 | followers of a refresh that failed for good get the error, all others look again |
| AuthRefresh.LookupDecides | crates/mmpf-auth/src/lib.rs:267-310 | a cached snapshot is served; without a flight the request leads, with one it follows |
| AuthRefresh.OneRefreshPerRegistry | crates/mmpf-auth/src/lib.rs:282-300 | in every reachable state one leader per registry and no more refreshes than permits |
| AuthRefresh.InstalledNeverRollsBack | crates/mmpf-auth/src/lib.rs:367-401 | from any reachable state onward revisions never decrease and an equal revision keeps its body hash |
| AuthRefresh.CachedIsInstalled | crates/mmpf-auth/src/lib.rs:326-345 | outside an installation a cached snapshot is the installed one; during one it is at most older |
| AuthRefresh.LeaderAdvances | crates/mmpf-auth/src/lib.rs:286-300 | every step of a leader, whatever the store answers, brings it nearer to its signal |
| AuthRefresh.OwnerWakes | crates/mmpf-common/src/singleflight.rs:100-111 | the owner's own remaining steps wake the follower |
| AuthRefresh.FollowerHasLeader | crates/mmpf-common/src/singleflight.rs:100-111 | a waiting request can wake now, or the owner of its flight leads or is mid-drop and the rest of its own steps wakes it |
| Wire.BudgetBounds | crates/biei-core/src/wire.rs:84-116 | the budget never exceeds what is left after both hops, is zero when they do not fit, and loses less than a millisecond unless capped |
| Wire.LatenessIsHopOvershoot | crates/biei-core/src/wire.rs:84-136 | whatever the clock offset, a render inside the rebuilt deadline is late by at most what the hops took beyond their estimate |
| Wire.ReturnsByDeadline | crates/biei-core/src/wire.rs:103-136 | hops within the estimate: back by the origin deadline |
| Wire.PeerStartsIff | crates/biei-core/src/wire.rs:103-136 | the peer has time to start exactly when a whole millisecond remains after the round trip |
| Wire.PeerIsAtHopLimit | crates/biei-core/src/wire.rs:103-118 | a task that crossed the wire is at the hop limit, whatever its count was |
| Wire.TimelineStaysInside | crates/biei-core/src/wire.rs:408-449 | a decoded timeline is ordered between arrival and receipt |
| Wire.StageLengthsKeptIff | crates/biei-core/src/wire.rs:420-435 | stage lengths survive exactly when the peer time fits or all stages are empty |
| Wire.OrderedHeaderFromTimeline | crates/biei-core/src/wire.rs:345-381 | an ordered timeline prints to a header the decoder accepts |
| Wire.RealTimelineSurvives | crates/biei-core/src/wire.rs:408-449 | a render that happened between arrival and receipt keeps each stage within a millisecond, across any clock offset |
| Wire.FrameRoundTrip | crates/biei-core/src/wire.rs:272-306 | the frame returns the header and leaves exactly the image |
| Wire.BadHeaderIsRefused | crates/biei-core/src/wire.rs:290-306 | an unreadable or disordered header is refused |
| Wire.TooLargeIff | crates/biei-core/src/wire.rs:272-280 | only a header too long for its length field cannot be framed |
| Wire.FrameCutShort | crates/biei-core/src/wire.rs:281-290 | a frame is refused as truncated exactly when it is cut inside its header |
## Left out

- Weak memory: the Relaxed, Acquire and Release orderings are modelled as sequentially consistent atomic steps.
- Rescanning after a lost reservation race (crates/biei-core/src/worker_pool.rs:429-440): each attempt is a `BestAvailableWorker` scan and a `ReserveCas` event; how often it repeats is not bounded by the code.
- Generation wrap-around: the soundness of a prediction is stated for fewer than 2^64 dispatches per worker; the wrapping itself is modelled.
- Renderer repair ticks, retirement and shutdown deadlines of workers: a worker may die at any event instead.
- Panics and poisoned locks.
- Native rendering: what each error leaves loaded in a renderer is a stated assumption (`Scheduler.RendererAfter`), taken from the error table's own comments (crates/biei-core/src/worker.rs:192-203).
- Float comparison: a coordinate is its bits, so two zeros of different sign are different requests, as the keys have it; how GeoJSON prints is a parameter.
- Cache time-to-live, weights and shards: an entry may vanish at any event, and a shard lock is the lock of its keys.
- Cancelled ingress requests: `NodeIngress` describes requests that run to their end; a cancelled one leaves a prefix of such a trace.
- NodeIngress.AcquireCache: the wake-ups before the deadline are a finite list, and the deadline ends it.
- Metrics, tracing, HTTP serving and the profile preparer's bookkeeping of failed styles.
- The body of the rendezvous weight and of the random generator: the weight is any function, a draw is any number in range.
- Dispatcher.DecideView: the order in which the state map is enumerated is a parameter; tier 1 may depend on it, as the code does.
- Cost validation: the sum of the mid-range costs is taken not to overflow a duration.
- Chitchat itself: the remote map is the node's own key set, written by `set_many`.
- Clock drift: two clocks differ by a constant offset.
- JSON, SHA-256, object stores, token parsing and origin checks: outcomes are parameters.
- Cold-retry delays and refresh intervals of the auth registry: a request may find its cached entry fresh, stale or cooling down at any time, which allows every schedule the timers allow.
- Reader.ArchiveReader.ReadTile: header and metadata parsing and decompression are fixed functions of their bytes; the range source is fixed per archive identity.
- Which of several entries with the same id a search returns: the library leaves it open, so `TileLookup.FindIsScan` promises only that it is one that reaches the id.
- The Hilbert curve: any numbering that is one to one per zoom.
- `TileId`: the sum of base and curve position is exact, since it is below 2^63.
