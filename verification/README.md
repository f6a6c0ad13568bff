# Verification of the KV-cache connector

A Dafny model of the parts of this repository where a mistake would corrupt or leak KV cache, with proofs
of what those parts promise.

- **Transfer geometry.** `TransferGeometry`, `DescriptorIds`, `BlockPairing`, `RemoteRead`, `BlockRead`,
  `RankSlices`, `GatherRead`, `AlignedRead`, `TransferWorker`, `Deployments` (with `Grid` and `Exact` for
  arithmetic): which remote bytes end up in which local bytes, for every combination of tensor-parallel
  sizes that divide each other, every block-size ratio, K and V in one region or two, and partial prefix
  hits. Memory is a function from address to byte, a READ is the pairwise copy of the selected
  descriptors.
- **Producer lifetime.** `ProducerState`, `ProducerProtocol`, `ProducerCore`, `ProducerSafety`,
  `ProducerOnce`, `ProducerTheorems`, `ProducerHistory`, `ProducerLimits`, `ProducerWorker`,
  `ProducerBatch`, `ConnectorScheduler`: scheduler tables, metadata in flight, the worker's tables,
  notifications in flight and a clock as one transition system; the theorems are about all its runs, and
  `ProducerLimits` says exactly which deployments they hold for.
- **Consumer receive.** `ReceiveState`, `ReceiveProtocol`, `ReceiveInvariant`, `ReceiveFailures`,
  `ReceiveSoundness`, `ReceiveTheorems`, `ReceiveWorker`, `ReceiveLoads`: background handshakes, the
  ready queue, polled handles, failures and shutdown, in every interleaving. What NIXL answers is a
  parameter of each event.
- **Chunk-ready channel and host staging.** `ChunkState`, `ChunkProtocol`, `ChunkTheorems`,
  `ChunkWorker`, `HostStaging`, `NotificationCodec`.
- **Graph partitions and memory planning.** `PartitionSignature`, `PartitionRuns`, `PartitionMeaning`,
  `MemoryPlanning`.
- **The binomial test of the routing check.** `CacheAffinity`, over the reals.

Classes carry the fields that the source updates in place; each of their methods is proved to change the
state exactly as a function on values does, and the protocols and theorems are about those functions;
where a method does several of a protocol's steps at once, it is proved to be a run of them.
`dafny verify dfyconfig.toml` checks everything.

## Assumptions

- `TpKVTopology` is not part of this repository. Its contract is taken from its uses: the ratio is
  local/remote when local >= remote and -(remote/local) otherwise, rank j targets rank j/ratio or the
  |ratio| ranks from j*|ratio| on, and the block-size ratio divides exactly. Whether the KV heads are
  replicated depends on the remote tensor-parallel size.
- Geometry: distinct local block ids, disjoint cache tensors, and a block is `block_size` slots of equal
  size.
- Producer: a request ends once and is scheduled only before it ends; a consumer rank notifies once,
  about a request it reads, after the worker consumed that request's batch entries. Consumers may notify
  before the request ends. Conservation, the checks, expiry and that nothing is stranded need no more.
  That no request is freed early, and that late notifications are harmless, needs exactly that no two ids
  the deployment ever schedules share a UUID; that none is reported twice also needs that no request is
  scheduled once more after a consumer notified about it. `ProducerLimits` proves the conditions exact by
  building runs that break the properties without them.
- Receive: request ids are unique; releasing a transfer handle does not raise (a raise while polling
  would have the handle released once more by the failure path); a handshake's callbacks are one step,
  and so is one `get_finished`; all reads of a request select the same blocks, so all of them only notify
  or none does.
- Chunk channel: chunk overlap is enabled, and a scheduler output lists a request once. Host staging: the
  first chunk of a request brings all its blocks, a later one the newly allocated blocks, and none is
  reported as no list.
- Partitions: a name that is neither a buffer nor a constant is never passed, and is there for whoever
  uses it. The alias map is resolved, that is, the buffer an alias stands for is not itself an alias. For
  the values computed (`SplitPreservesMeaning`), a partition that mutates a buffer takes it in or defines
  it.

## Where the code limits what is true

- When several producer ranks are gathered from and their number does not divide the part length, which
  the handshake accepts, the bytes after the last chunk are never read (`GatherIsWhole`,
  `ThreeProducersUneven`).
- A rank whose engine is recorded with another block size than the one it announces, after the rank that
  announced that size failed its checks, is accepted without a local list to read into (`AddRemoteAgent`,
  `ReadBlocksForReq`).
- Ids that share a UUID: a late notification for one request frees another one, unread (`NoEarlyFreeIff`,
  `LateIsHarmlessIff`).
- A consumer that notifies before a request ends has it reported then (`OnlyDelayedIff`), and a request
  scheduled after that is reported twice (`ReportedOnceIff`).
- A NoneLayout buffer that a later partition uses last, or that the graph returns, is promised and never
  handed over (`NoneInputNeverArrives`, `NoneOutputIsLost`); `RunsIff` is the exact condition.
- A produced alias that is a graph output, or is declared for its last use, stays in the residual set
  (`ResidualIff`).
- Token alignment fails for a partial hit whose remote block count is not a multiple of the block-size
  ratio (`TokenAlignment`, `MisalignedExample`).
- With several reads per request, a set-up failure after a started read makes `get_finished` fail its
  assertion later (`MixedSetupCrashes`); `SafeIffOneReadPerRequest` is the exact condition over runs.
- A full prefix hit never leaves `_recving_metadata` (`FullHitsAreNeverReported`).
- An abort leaves `_save_chunk_counter` behind (`ReuseAfterAbort`, `NumberingRestartsIff`).
- A prefill chunk that ends inside a block leaves the host buffer stale (`StagingCompleteIffAligned`).
- A request that ends before it was scheduled is queued for receive without the check that its remote
  parameters are complete, so a later `build_connector_meta` can fail (`AbortedBeforeScheduling`).
- The planning pass accepts some unbalanced lines (`PlannableUnbalanced`).
- The affinity check cannot pass with one worker (`OneWorkerNeverPasses`).

## Model

| member | source | states |
|---|---|---|
| TransferGeometry.RegisterLocalXferHandler | patches/gpu/nixl_connector.py:1758-1783 | the local list holds exactly the K and V parts of every block, region by region, of the caches cut at the remote block size |
| TransferGeometry.SplitLocalDescs | patches/gpu/nixl_connector.py:1905-1921 | one list per producer rank: list i holds chunk i of every local part |
| TransferGeometry.BuildRemoteDescs | patches/gpu/nixl_connector.py:1929-1964 | the remote list holds, for every region and block, exactly the slice of the remote part that this rank reads |
| TransferGeometry.LocalParts | patches/gpu/nixl_connector.py:1679-1682 | with even slots every floor division of the local lengths is exact, and halving and cutting commute |
| TransferGeometry.PeerParts | patches/gpu/nixl_connector.py:2030-2064 | what the handshake assertions give: a remote part is exactly `tp_ratio` local sub-block parts long, or a `abs(tp_ratio)`-th of the local part |
| TransferGeometry.PeerRow | patches/gpu/nixl_connector.py:1931-1964 | the length and rank offset computed per cache are those of this rank's slice of its K and of its V part |
| RemoteRead.OrderIrrelevant | patches/gpu/nixl_connector.py:2860-2873 | copies that never write one address twice leave the same memory in whatever order, and however often, they complete |
| BlockRead.ReadIsCompatible | patches/gpu/nixl_connector.py:2740-2873 | the copies that a READ posts never write one address twice |
| BlockRead.AnyOrder | patches/gpu/nixl_connector.py:2740-2873 | so the bytes of a READ end up the same in whatever order they arrive |
| DescriptorIds.SelectDescIds | patches/gpu/nixl_connector.py:2804-2855 | both id lists number the same selected (region, position) pairs in the same order, so they have equal length |
| DescriptorIds.PairsAreSelected | patches/gpu/nixl_connector.py:2822-2853 | a (region, position) is in the list exactly when it is a region of a layer and within that layer's window |
| DescriptorIds.WindowIs | patches/gpu/nixl_connector.py:2822-2853 | without the slice arithmetic: every position in a region whose layer has no window, or an empty one, and exactly the positions from m - w on in a region whose layer has a window of w blocks |
| DescriptorIds.WindowKeeps | patches/gpu/nixl_connector.py:2832-2834 | a layer with a window of w > 0 blocks reads exactly min(w, m) of the m positions in each of its regions |
| DescriptorIds.LayerwiseIsGlobal | patches/gpu/nixl_connector.py:2808-2853 | when no layer has a window the per-layer ids concatenated are the all-region ids |
| DescriptorIds.NumberingInjective | patches/gpu/nixl_connector.py:2937-2945 | region times block count plus block is in bounds and different for different (region, block) |
| BlockRead.PostedCopiesPairs | patches/gpu/nixl_connector.py:2922-2945 | numbering agrees with construction: indexing both lists with the computed ids copies exactly the selected part pairs, in bounds on both sides |
| BlockRead.PartsDisjoint | patches/gpu/nixl_connector.py:1768-1783 | an address lies in at most one part of one block, K and V halves of the joint layout included |
| BlockRead.ReadIsByteExact | patches/gpu/nixl_connector.py:1931-1964 | D TP >= P TP or replicated caches, any block-size ratio: every byte of every selected local (sub-)block ends up as the byte of this rank's slice of the paired remote block |
| BlockRead.ReadFrame | patches/gpu/nixl_connector.py:2860-2873 | no byte outside the selected local parts changes |
| RankSlices.SlicesPartition | patches/gpu/nixl_connector.py:1942-1946 | every byte of every part of a producer rank is read by exactly one of the consumer ranks that target it |
| RankSlices.JointHalves | patches/gpu/nixl_connector.py:1956-1964 | in the joint layout a block is its K part followed by its V part, with nothing between or after |
| RankSlices.BlocksInOrder | patches/gpu/nixl_connector.py:1768-1783 | the blocks of a tensor follow each other from its base address on, each a K part and then a V part in the joint layout |
| RankSlices.SubBlocksInOrder | patches/gpu/nixl_connector.py:1679-1682 | cut at a smaller block size, the sub-blocks of a block follow each other in it, from its first byte to its last |
| RankSlices.SlicesInOrder | patches/gpu/nixl_connector.py:1942-1946 | the slices of the consumer ranks that share a producer rank follow each other in rank order and fill the part |
| GatherRead.ChunkList | patches/gpu/nixl_connector.py:1905-1921 | the split local list is the list of i-th chunks of all parts |
| GatherRead.ChunksDisjoint | patches/gpu/nixl_connector.py:1908-1916 | the abs(tp_ratio) reads of one request write pairwise disjoint chunks |
| GatherRead.GatherIsCompatible | patches/gpu/nixl_connector.py:2673-2714 | no address is written by two copies of the abs(tp_ratio) reads, so they may complete in any order |
| GatherRead.ChunksCover | patches/gpu/nixl_connector.py:1914-1916 | every byte of the part is in one of the chunks exactly when abs(tp_ratio) divides the part length |
| GatherRead.ChunkWritten | patches/gpu/nixl_connector.py:2673-2714 | whatever order the reads complete in, chunk i holds the bytes of producer i's paired part |
| GatherRead.GatherIsWhole | patches/gpu/nixl_connector.py:2673-2714 | final memory is the rank-ordered assembly of the paired remote blocks: byte x of a selected part is byte x mod chunk of rank x div chunk, for every byte, exactly when abs(tp_ratio) divides the part length; bytes after the last chunk keep their value |
| GatherRead.GatherFrame | patches/gpu/nixl_connector.py:2673-2714 | no byte outside the chunks of the selected local parts changes |
| BlockPairing.MappedAt | patches/gpu/nixl_connector.py:2902-2908 | entry q of the mapped ids is sub-block q mod ratio of block q div ratio |
| BlockPairing.MappedDistinct | patches/gpu/nixl_connector.py:2902-2908 | distinct blocks in bounds have distinct sub-blocks in bounds |
| BlockPairing.SelectionWellFormed | patches/gpu/nixl_connector.py:2741-2798 | when something is read, equally many distinct ids in bounds are paired; exactly when it is only a notification, and exactly when the assertion fails |
| BlockPairing.NotifiesIff | patches/gpu/nixl_connector.py:2773-2775 | nothing is read exactly if there is no local block to fill, or nothing to read from at a smaller remote block size |
| BlockPairing.TokenAlignment | patches/gpu/nixl_connector.py:2741-2798 | blocks are paired at equal token positions exactly when nothing was cached locally or the remote block count is a multiple of the block-size ratio |
| BlockPairing.StartsApart | patches/gpu/nixl_connector.py:2795-2798 | otherwise already the first pair sits at two different token positions |
| BlockPairing.EqualBlockSizesAlign | patches/gpu/nixl_connector.py:2795-2798 | equal block sizes are always aligned |
| BlockPairing.MisalignedExample | patches/gpu/nixl_connector.py:2741-2798 | a concrete partial hit whose blocks are filled from the wrong token position |
| AlignedRead.TokensArriveInPlace | patches/gpu/nixl_connector.py:2741-2853 | selection and copy together: in the aligned cases each uncached token position holds this rank's slice of the remote block of that same position |
| AlignedRead.GatheredTokensArriveInPlace | patches/gpu/nixl_connector.py:2666-2853 | the same when several producer ranks hold this rank's heads: the block at each uncached position is the rank-ordered assembly of their blocks at that position exactly when their number divides the part length |
| Deployments.TwoConsumersOneProducer | patches/gpu/nixl_connector.py:1806-1841 | a deployment with D TP = 2 P TP and half-length producer blocks meets all conditions of the byte-exactness and alignment results |
| Deployments.OneConsumerTwoProducers | patches/gpu/nixl_connector.py:1898-1921 | a deployment with P TP = 2 D TP and K and V sharing a block meets the conditions of the gathering results |
| Deployments.ThreeProducersUneven | patches/gpu/nixl_connector.py:2056-2064 | the handshake accepts three producer ranks for a part of ten bytes |
| TransferWorker.Worker.AddRemoteAgent | patches/gpu/nixl_connector.py:1845-2027 | exactly the peers that pass the checks at the block size of the engine's first rank have their slices prepared, otherwise no list changes; a peer with another layout is refused unless it is HND and permuting is enabled, which then is switched on; the call fails also when the local blocks cannot be cut at the size this rank announced; and the peer can be read exactly if a local list at the recorded size was there or is the one just cut |
| TransferWorker.AcceptsShared | patches/gpu/nixl_connector.py:2030-2054 | a peer with as many ranks or fewer is accepted exactly if sizes, layout and counts agree and each block is as long as `t` slices, or as one if the cache is replicated or MLA |
| TransferWorker.AcceptsSplit | patches/gpu/nixl_connector.py:2030-2069 | a peer with `t` times as many ranks is accepted exactly if it is not replicated, has the same block size unless MLA, and blocks a `t`-th as long |
| TransferWorker.Worker.PrepareLists | patches/gpu/nixl_connector.py:1898-1985 | keeps every prepared list right over any sequence of handshakes, with chunk lists built once per ratio |
| TransferWorker.Worker.PostRead | patches/gpu/nixl_connector.py:2684-2714 | the posted READ satisfies the conditions of the byte-exactness result |
| TransferWorker.Worker.PostChunk | patches/gpu/nixl_connector.py:2684-2714 | the READ posted to rank i fills chunk i of every selected part |
| TransferWorker.Worker.ReadBlocksForReq | patches/gpu/nixl_connector.py:2666-2718 | nothing, one READ from the one target rank, or abs(tp_ratio) READs, one per target rank in order, as the selection and the TP sizes require; fails exactly when a single READ has no local list at the engine's block size; with MLA every other known rank of the engine is notified |
| TransferWorker.Worker.SingleRequestArrives | patches/gpu/nixl_connector.py:2666-2889 | the READ posted for a request, complete in any order: in the aligned cases each uncached position holds this rank's slice of the recorded peer's block at that position |
| TransferWorker.Worker.RequestArrives | patches/gpu/nixl_connector.py:2666-2889 | the several READs posted for a request, complete in any order: each uncached position holds the rank-ordered assembly of the recorded peers' blocks at that position exactly when their number divides the part length |
| ProducerState.EarlyExitIsFullScan | patches/gpu/nixl_connector.py:2437-2455 | on entries in order of expiry, stopping at the first unexpired one releases exactly the due ones and keeps the rest |
| ProducerState.WaitsForEveryReader | patches/gpu/nixl_connector.py:2523-2532 | the count a producer rank waits for is the number of consumer ranks that target it |
| ProducerState.FindUuidIs | patches/gpu/nixl_connector.py:107-109 | the search finds a UUID wherever one stands in the tag, and the first if there are several |
| ProducerState.UuidIs | patches/gpu/nixl_connector.py:107-109 | a UUID is five groups of 8, 4, 4, 4 and 12 lower-case hexadecimal digits joined by hyphens |
| ProducerState.ContainsIs | patches/gpu/nixl_connector.py:2471 | the substring test looks at every position |
| ProducerState.PickIsOldest | patches/gpu/nixl_connector.py:2459-2486 | a notification goes to the live request that it names, else to a live request with its UUID whose timer runs out first, and to none exactly if there is no such request |
| ProducerWorker.Worker.StartLoadKv | patches/gpu/nixl_connector.py:2646-2664 | the three loops leave exactly the state that the protocol's load step gives |
| ProducerWorker.Worker.ResolveFreeNotif | patches/gpu/nixl_connector.py:2459-2486 | an oldest live request with the notification's UUID, or none |
| ProducerWorker.Worker.GetNewNotifs | patches/gpu/nixl_connector.py:2488-2544 | a batch credits each notification to what it resolves to at its turn, and returns exactly the requests released; `ProducerBatch` says which these are |
| ProducerBatch.BatchIsRun | patches/gpu/nixl_connector.py:2488-2544 | the loop over a batch is the protocol delivering its notifications one by one in that order, with the same tables and the same requests released |
| ProducerBatch.GetFinishedIsRun | patches/gpu/nixl_connector.py:2389-2457 | all of `get_finished` is those deliveries and then the protocol's expiry step, so every result about runs holds of it |
| ProducerBatch.BatchReleasesExactly | patches/gpu/nixl_connector.py:2534-2543 | a batch releases exactly the requests still processed whose every reader was credited before or notifies in the batch |
| ProducerWorker.Worker.ReleaseExpired | patches/gpu/nixl_connector.py:2435-2455 | the early-exit loop leaves the state after releasing the due prefix and returns its requests |
| ProducerWorker.Worker.GetFinished | patches/gpu/nixl_connector.py:2389-2457 | what is reported is what the notifications released and then what expired |
| ProducerCore.StepCore | patches/gpu/nixl_connector.py:2437-2664 | every event, in any interleaving of scheduler, worker, clock and notifications and whatever ids share, keeps the expiry entries in order and every unreported request known to the worker or on its way there |
| ProducerSafety.StepSafe | patches/gpu/nixl_connector.py:2488-2544 | if no two ids share a UUID, every event, scheduling again after a notification included, keeps: a count never exceeds the readers counted, a request reported by notifications has all readers counted, and one reported by the clock was due and is dropped for good |
| ProducerOnce.StepKeeps | patches/gpu/nixl_connector.py:2488-2544 | if moreover no request is scheduled again after a notification: counts are exact, reported requests are dropped for good, and a request whose readers are all counted is released |
| ProducerTheorems.DelayedRequestsAreConserved | patches/gpu/nixl_connector.py:984-1023 | over every run, whatever ids share and whenever consumers notify, a request with delayed free is reported or still held by scheduler, queue or worker |
| ProducerTheorems.ReleasedExactlyOnce | patches/gpu/nixl_connector.py:2534-2543 | with ids that share no UUID and no request scheduled again after a notification: none is reported twice, and one is released by notifications exactly when all its readers' were credited to it |
| ProducerLimits.ReportedOnceIff | patches/gpu/nixl_connector.py:2534-2543 | no run reports a request twice exactly when no two ids share a UUID and no request is scheduled again after a consumer notified about it |
| ProducerLimits.OnlyDelayedIff | patches/gpu/nixl_connector.py:2534-2543 | only requests that finished with delayed free are reported, in every run, exactly when consumers notify about no others and no two ids share a UUID |
| ProducerTheorems.ChecksNeverFail | patches/gpu/nixl_connector.py:2452-2454 | in every reachable state, whatever ids share, the `remove` calls find their element and the assertion on aborts holds |
| ProducerTheorems.NoEarlyFree | patches/gpu/nixl_connector.py:2534-2543 | if no two ids share a UUID: in every reachable state a request released by notifications was read by every consumer rank that targets this one, and one released by the clock was due |
| ProducerLimits.NoEarlyFreeIff | patches/gpu/nixl_connector.py:2467-2543 | no run frees a request early exactly when no two ids the deployment ever schedules share a UUID |
| ProducerTheorems.LateNotificationsChangeNothing | patches/gpu/nixl_connector.py:2504-2519 | if no two ids share a UUID, a notification after its request was reported changes neither state nor reports |
| ProducerLimits.LateIsHarmlessIff | patches/gpu/nixl_connector.py:2467-2519 | no late notification changes anything in any run exactly when no two ids share a UUID |
| ProducerTheorems.ExpiryIsExact | patches/gpu/nixl_connector.py:2437-2455 | in every reachable state the early exit releases exactly the requests whose expiry is not after now |
| ProducerTheorems.NothingIsStranded | patches/gpu/nixl_connector.py:2435-2455 | once all entries reached the worker and all timers ran out, one expiry pass reports every delayed request |
| ProducerHistory.TimersRunInFull | patches/gpu/nixl_connector.py:1015-1023 | a request that has not ended by time t is never released by the clock before t + timeout, whatever ids share and whenever consumers notify |
| ProducerHistory.FatesAreFinal | patches/gpu/nixl_connector.py:984-1023 | a request is freed late exactly if it ended length-capped and with blocks, and it then expires the timeout after its end, for good |
| ProducerHistory.AbortsAreFinal | patches/gpu/nixl_connector.py:2646-2664 | once the metadata is consumed the worker no longer processes a request that ended other than length-capped, whatever batch entries were under way |
| ProducerHistory.CountsDieWithTheirRequest | patches/gpu/nixl_connector.py:2442-2541 | a notification count is kept only for a request still processed or ended without delayed free, so both ways of releasing clear it |
| ProducerLimits.ResubmissionIsFreedEarly | patches/gpu/nixl_connector.py:2467-2486 | whenever two ids end in the same UUID some run frees one of them unread |
| ConnectorScheduler.Scheduler.UpdateStateAfterAlloc | patches/gpu/nixl_connector.py:773-853 | a complete remote prefill is queued for receiving with exactly the local blocks if there are external tokens and with none otherwise, once; no other entry changes and no other branch queues anything; which other tables gain the request, and when the assertion fails |
| ConnectorScheduler.AllocateAndBuild | patches/gpu/nixl_connector.py:830-869 | such a request reaches the worker with the next metadata, which then only notifies the producer exactly if no external tokens were promised or no local block is left, for every block-size ratio |
| ConnectorScheduler.Scheduler.BuildConnectorMeta | patches/gpu/nixl_connector.py:856-949 | hands over everything collected, consumer registrations included, exactly once and clears it; fails, changing nothing, exactly when a receive lacks a parameter |
| ConnectorScheduler.Scheduler.HandleConsumerRegistration | patches/gpu/nixl_connector.py:655-661 | a registration waits for the next metadata, after the earlier ones |
| ConnectorScheduler.AbortedBeforeScheduling | patches/gpu/nixl_connector.py:972-982 | a request that ends before it was scheduled makes the next metadata fail exactly when one of its remote parameters is missing |
| ConnectorScheduler.Scheduler.RequestFinished | patches/gpu/nixl_connector.py:951-1034 | the branches on remote prefill, remote decode, status and blocks, the timer, and that at most one transfer is triggered |
| ConnectorScheduler.Scheduler.LabelChunks | patches/gpu/nixl_connector.py:871-912 | chunk indices and last flags for the scheduled requests still to be saved |
| ReceiveWorker.Worker.StartLoadKv | patches/gpu/nixl_connector.py:2608-2644 | accepts all new requests and then drains the ready queue; `ReceiveLoads` says what that is in the protocol |
| ReceiveLoads.StartLoadIsRun | patches/gpu/nixl_connector.py:2608-2644 | any run can go on with it: one Receive step per new request in order, then one Drain step per queued request in order; afterwards nothing is queued, every request that was queued or whose engine is known was dispatched, and every other new one waits, in order, on its own engine's handshake |
| ReceiveLoads.AgentsShookHands | patches/gpu/nixl_connector.py:1513-1526 | an engine is known only after a handshake with it succeeded |
| ReceiveWorker.Worker.BackgroundHandshake | patches/gpu/nixl_connector.py:1497-1546 | joins the engine's pending handshake or submits the only one |
| ReceiveWorker.Worker.HandshakeDone | patches/gpu/nixl_connector.py:1513-1544 | queues every waiting request, or marks its blocks invalid and fails it |
| ReceiveWorker.Worker.ReadBlocks | patches/gpu/nixl_connector.py:2857-2889 | the four ways a set-up ends: notified, started, or failed with or without a handle to release |
| ReceiveWorker.Worker.PopDoneTransfers | patches/gpu/nixl_connector.py:2546-2606 | releases exactly the handles that ended, keeps the running ones in order, marks the blocks of broken transfers |
| ReceiveWorker.Worker.GetFinished | patches/gpu/nixl_connector.py:2397-2416 | what is reported as received and the metadata that is dropped; whether the assertion holds |
| ReceiveWorker.Worker.GetBlockIdsWithLoadErrors | patches/gpu/nixl_connector.py:2990-2999 | hands over the invalid blocks and starts afresh |
| ReceiveWorker.Worker.Close | patches/gpu/nixl_connector.py:3004-3010 | releases every handle still held |
| ReceiveTheorems.DispatchIsExactlyOnce | patches/gpu/nixl_connector.py:2613-2644 | in every interleaving a received request is in exactly one of: waiting on a handshake, queued, dispatched once, failed in its handshake |
| ReceiveTheorems.OneHandshakePerEngine | patches/gpu/nixl_connector.py:1500-1511 | at most one handshake pending per engine and none with a known one; requests wait for their own engine and are read only once it is known |
| ReceiveTheorems.HandlesAreReleasedOnce | patches/gpu/nixl_connector.py:2556-2606 | every handle ever made is held once or was released once, across set-up failure, polling and shutdown |
| ReceiveTheorems.ShutdownReleasesAll | patches/gpu/nixl_connector.py:3004-3010 | after a shutdown every handle was released exactly once |
| ReceiveTheorems.ReportsAreFinal | patches/gpu/nixl_connector.py:2397-2416 | runs without mixed set-ups: no assertion fails, no request is reported twice, and a reported request has no read in progress |
| ReceiveTheorems.ReportedMeansRead | patches/gpu/nixl_connector.py:2583-2591 | a reported request that did not break has had every one of its reads complete |
| ReceiveFailures.StepFailures | patches/gpu/nixl_connector.py:2583-2606 | every event, mixed set-ups included, keeps: a transfer in progress belongs to a request that broke or still has its metadata, and the invalid blocks are those of the broken requests |
| ReceiveTheorems.FailuresInvalidateFirst | patches/gpu/nixl_connector.py:2593-2606 | in every run the blocks marked invalid are exactly those of the requests that broke, marked by the time of the report |
| ReceiveTheorems.NothingIsStranded | patches/gpu/nixl_connector.py:2395-2402 | a settled request is in exactly one of: in transfer, failed and about to be reported, reported, full prefix hit |
| ReceiveTheorems.FullHitsAreNeverReported | patches/gpu/nixl_connector.py:2773-2792 | a full prefix hit is never reported, so its metadata stays: the key sets are contained, not equal |
| ReceiveTheorems.MixedSetupCrashes | patches/gpu/nixl_connector.py:2875-2889 | from any state, a request with one read started and one failed makes the assertion of `get_finished` fail two polls later |
| ReceiveTheorems.SafeIffOneReadPerRequest | patches/gpu/nixl_connector.py:2413-2416 | the assertion never fails in any run exactly when every engine takes one read per request |
| ChunkTheorems.ChunksAreConserved | patches/gpu/nixl_connector.py:2279-2286 | per request and in order, the chunks sent, buffered and still queued are exactly the chunks labelled, each once |
| ChunkTheorems.NothingWaitsOnceRegistered | patches/gpu/nixl_connector.py:2244-2259 | once any consumer is registered the buffer is empty after every step |
| ChunkTheorems.SentChunksAreNumbered | patches/gpu/nixl_connector.py:885-912 | ids not reused: the chunks sent are the first ones, numbered 0, 1, 2, ..., and only the final one is last |
| ChunkTheorems.NumberingRestartsIff | patches/gpu/nixl_connector.py:885-912 | in every run the next chunk is numbered 0 exactly when the id had no chunk yet or its latest was the last |
| ChunkTheorems.ReuseAfterAbort | patches/gpu/nixl_connector.py:984-994 | a run in which an id reused after an abort starts at 1 |
| ChunkTheorems.ChunksMatchItems | patches/gpu/nixl_connector.py:871-912 | a chunk is issued exactly for the scheduled requests still to be saved that got new blocks, with those blocks, the next number, and the last flag |
| ChunkTheorems.RegistrationRoutes | patches/gpu/nixl_connector.py:2261-2277 | a newly registered consumer gets the chunks of the requests it names and of those nobody named; named ones stay with their consumer |
| ChunkTheorems.RegisteringAgainRoutes | patches/gpu/nixl_connector.py:2225-2243 | a consumer that registers again gets the chunks of the requests it names; every other request keeps its consumer |
| ChunkTheorems.ChunksReachTheirConsumer | patches/gpu/nixl_connector.py:2244-2286 | in every run each save, its flush included, sends chunks only to the consumer of their request at that time |
| ChunkProtocol.ResolvesOnceRegistered | patches/gpu/nixl_connector.py:2261-2277 | a consumer resolves for every request exactly when any is registered |
| ChunkWorker.Worker.RegisterConsumers | patches/gpu/nixl_connector.py:2221-2259 | registers each consumer once, skips incomplete or failing registrations, and flushes what can be sent |
| ChunkWorker.Worker.NotifyChunkReady | patches/gpu/nixl_connector.py:2279-2286 | the chunk is sent, or appended to its request's buffer |
| ChunkWorker.Worker.SaveKvToHost | patches/gpu/nixl_connector.py:2098-2165 | registrations first, then per chunk, in order, the copy and only then its notification; afterwards every chunk's blocks agree with the device and no other block of the host buffer changed |
| HostStaging.StagingCompleteIffAligned | patches/gpu/nixl_connector.py:2106-2135 | the host buffer agrees with the device on every block after the last chunk, whatever the values, exactly when every earlier chunk ends on a block boundary |
| HostStaging.AlignedAgrees | patches/gpu/nixl_connector.py:873-910 | after each such chunk the host agrees on all blocks so far, and the last chunk removes the request |
| HostStaging.UnalignedIsIncomplete | patches/gpu/nixl_connector.py:873-910 | a chunk that ends inside a block leaves the rest of that block stale |
| NotificationCodec.FreeRoundTrip | patches/gpu/nixl_connector.py:2504 | every request id, colons included, and every world size are recovered |
| NotificationCodec.FreeDecodesOnlyEncodings | patches/gpu/nixl_connector.py:2504-2523 | only the encoding of a pair reads as that pair, for numbers in canonical form |
| NotificationCodec.ChunkRoundTrip | patches/gpu/nixl_connector.py:2297-2304 | id, index, last flag and block list are recoverable from the blob, delimiters in the id included |
| NotificationCodec.WireFormats | patches/gpu/nixl_connector.py:2289-2304 | the two formats byte by byte, by example |
| NotificationCodec.ChunkEncodingInjective | patches/gpu/nixl_connector.py:2297-2304 | different chunks have different blobs |
| PartitionSignature.Signatures | patches/rdu/vllm_env_override_torch22x.py:464-588 | the reverse pass gives every partition the signature for the names needed after it, and the residual set; every input has a flag, set exactly if some node of the partition uses it last, and every named buffer used last but defined elsewhere is an input |
| PartitionRuns.SignatureIs | patches/rdu/vllm_env_override_torch22x.py:498-572 | each signature in terms of the partition's nodes: called with the named buffers and constants that some node touches or uses last and none defines, by real name and without touched NoneLayout buffers; returns, unless NoneLayout, what it defines that a later partition or the graph needs, and every input that it does not free |
| PartitionRuns.NodesKnownIff | patches/rdu/vllm_env_override_torch22x.py:557-561 | the pass fails exactly if some partition has to return a buffer that has no node |
| PartitionRuns.RunsIff | patches/rdu/vllm_env_override_torch22x.py:464-588 | running the partitions in order by the signatures returned, from allocated buffers, finds every declared input alive and every graph output at the end exactly when the residual names are alive at the start, no partition frees a name needed later, and no NoneLayout buffer is a declared input or a graph output |
| PartitionRuns.UnmetIsNeeded | patches/rdu/vllm_env_override_torch22x.py:584-586 | the backward set is the forward notion: used at some later partition or as a graph output, and not returned before |
| PartitionRuns.Liveness | patches/rdu/vllm_env_override_torch22x.py:498-586 | with mutation aliases and NoneLayout buffers, as long as no produced alias is declared anywhere, the pass is the liveness equation |
| PartitionRuns.HarmlessIff | patches/rdu/vllm_env_override_torch22x.py:516-552 | a partition frees nothing needed later exactly when every buffer it frees that is still used later is defined anew by it, under any alias |
| PartitionRuns.UnmetIsLive | patches/rdu/vllm_env_override_torch22x.py:498-586 | with no produced alias declared, the backward set is liveness: used at some later partition or as a graph output and defined by no partition in between |
| PartitionRuns.RunsIffLive | patches/rdu/vllm_env_override_torch22x.py:464-588 | the same equivalence as RunsIff without the pass's own sets: the partitions run in order exactly when every name live at the start is alive, none frees a live name that it does not define, and no NoneLayout buffer is declared |
| PartitionRuns.ResidualIff | patches/rdu/vllm_env_override_torch22x.py:584-586 | for every resolved alias map, the residual set holds only names no partition produces exactly when every declared input that is produced is produced earlier and no produced alias is declared |
| PartitionRuns.NoneOutputIsLost | patches/rdu/vllm_env_override_torch22x.py:557-561 | a NoneLayout graph output counts as returned but is never handed over |
| PartitionRuns.NoneInputNeverArrives | patches/rdu/vllm_env_override_torch22x.py:516-525 | a NoneLayout buffer that a later partition uses last is declared as its input and never arrives |
| PartitionMeaning.SplitPreservesMeaning | patches/rdu/vllm_env_override_torch22x.py:464-588 | whenever the partitions run at all, running by the signatures returned gives every graph output the value that the unpartitioned program gives it, with mutation aliases and NoneLayout buffers |
| MemoryPlanning.TrimKeepsPrefix | patches/rdu/vllm_env_override_torch22x.py:418-424 | trimming keeps a prefix and drops only planning lines of names that are not outputs |
| MemoryPlanning.TrimKeepsNesting | patches/rdu/vllm_env_override_torch22x.py:418-424 | trimming preserves subgraph nesting, and whether the pass succeeds |
| MemoryPlanning.BalancedSucceeds | patches/rdu/vllm_env_override_torch22x.py:426-438 | for balanced lines the stack is never read empty and the final assertion holds |
| MemoryPlanning.PlannableUnbalanced | patches/rdu/vllm_env_override_torch22x.py:426-438 | lines the pass accepts although an exit has no entry |
| MemoryPlanning.Wrapper.MemoryPlanReuse | patches/rdu/vllm_env_override_torch22x.py:418-438 | succeeds exactly on the plannable lines, and then every planning line is planned with the state of its innermost open subgraph and every other line is unchanged |
| CacheAffinity.Comb | test/e2e_kv_routing.py:123-132 | every floor division is exact and the loop returns n choose k, 0 outside the range |
| CacheAffinity.SfIsAtLeast | test/e2e_kv_routing.py:135-137 | the sum is the probability of at least k successes in n independent trials |
| CacheAffinity.SfIsATail | test/e2e_kv_routing.py:135-137 | 1 at k = 0, within [0, 1], and never rising with k |
| CacheAffinity.CheckCacheAffinity | test/e2e_kv_routing.py:181-207 | hits are the repeats with more than half of their prompt cached, and the check passes exactly if the probability of at least that many by chance is below alpha |
| CacheAffinity.HitsIgnoreOrder | test/e2e_kv_routing.py:181-193 | the order in which the repeats are sent does not change the hits |
| CacheAffinity.VerdictIsMonotone | test/e2e_kv_routing.py:195-207 | more hits never turn a pass into a failure |
| CacheAffinity.CanPassIff | test/e2e_kv_routing.py:195-207 | some number of hits passes exactly when (1 / workers) to the number of prompts is below alpha |
| CacheAffinity.OneWorkerNeverPasses | test/e2e_kv_routing.py:195-207 | with a single worker no number of hits passes |

## Left out

- NIXL, UCX, ZMQ and msgpack: their answers are parameters of the events; nothing is said about them.
- Threads: handshake completion, one `get_finished` and one `start_load_kv` entry are atomic steps; the
  finer interleavings that real threads allow inside them are not modelled.
- That the MLA notification to further producer ranks carries the local request id: the producer results
  are for one notification per reader as `_read_blocks` sends it.
- Tensor-parallel sizes that do not divide each other, which the topology rejects.
- Copying received blocks from the host buffer to the device, and the receive post-processing helpers
  (`kv_postprocess_*`), which are not part of this repository.
- `BlockTable.map_to_kernel_blocks`, which is not part of this repository: block ids are kernel block
  ids.
- `kv_caches_base_addr` as a table of its own: the base addresses are part of each peer's caches.
- Registration of memory with NIXL, the compatibility hash, the listener loop, logging, timing, metrics.
- The planned form of a memory line: planning records only which state was used.
- The cache-affinity arithmetic in floating point, and its printing.
- NotificationCodec.DecodeFree: a size field that is not a plain run of digits counts as an error,
  although Python's int also accepts signs, spaces and underscores.
- PartitionSignature.Signatures: the symbol inputs and the order of the names are not modelled; the sets
  of names, the returned and freed flags and the constants are.
- ReceiveWorker.Worker.GetFinished: the copies from the host buffer to the device and the receive
  post-processing of the blocks reported are not modelled.
- ReceiveWorker.Worker.Close: releases the transfer handles; the prepared lists, the remote agents and
  the registered memory are not part of the model.
- ReceiveTheorems.ReportsAreFinal: stated for runs in which no request mixes started reads with failed
  ones, because it is false otherwise (`MixedSetupCrashes`).
- ChunkTheorems.SentChunksAreNumbered: stated for ids that are not reused, because it is false otherwise
  (`ReuseAfterAbort`).
- The dispatch on environment variables, `should_partition_patched`, the log tools and the live
  end-to-end checks apart from their binomial arithmetic.
