# Verification of tribuchet

Tribuchet moves build inputs and outputs between a hub and its workers as content-defined
chunks. This project models its protocols, its chunk cache, its serializers and its job
bookkeeping in Dafny and proves what they promise, for every size: any path sets, recipes,
channel capacities, numbers of builds, trees, read patterns and interleavings.

`dafny verify dfyconfig.toml` checks the whole project.

| part | files |
|---|---|
| input transfer between hub and worker | Relay, RelaySafety, RelayProgress, RelayAnswers, HubStaging, HubProgress, ServeNeed, WorkerChunks |
| staging by several builds with claims | Claims, ClaimsSafety, ClaimsProgress, ClaimsOnce, Tickets, Parking, ActiveBuilds |
| chunk cache, from bytes up | Bytes, Pack, ChunkStore, ChunkStoreInv, ChunkStoreEvict, ChunkStoreBudget, ChunkStoreEvictLoop, ChunkStoreRoom, ChunkStoreStops, ChunkStoreCrash, ChunkStoreFrames, ChunkStoreOpen, ChunkStoreOps, ChunkStoreRuns, ChunkStoreRestarts, ChunkStoreMoments, ChunkStoreStale, ChunkCache |
| archives and chunking | Nar, NarPack, Chunker, ChunkDedup |
| output delivery | CacheSharing, Delivery, Announced |
| reference order and garbage collection | Graph, TopoOrder, Ordering, Pins |
| jobs, replay and the client | Jobs, Replay, Attach |

The protocols are state machines over values, with one event per handler, and their theorems
range over all runs. Objects the program updates in place are classes: each method is proved
against a function on values, and the properties are proved of those functions. Where the
outside world acts in between (garbage collection, other deliveries using the cache, short
reads, lost subscribers) it is a parameter or an unconstrained choice, so the theorems hold
for everything it may do.

Hashing, compression and FastCDC are parameters. Where a plaintext is recovered from its hash,
no two of the plaintexts in play (those packed, cached, or put into the cache meanwhile) may
have the same hash. A cut is at least one byte and at most the largest
chunk, and looks no further than that many bytes.

## What turned out not to hold

- The worker need not end Ready: it gives up once the store lost more chunks than there are
  resend rounds (`RelayAnswers.OneLossTooMany`). Each round is paid for by an eviction, so with
  no more evictions than rounds it ends Ready (`RelayAnswers.EndsReady`). What the specification
  asks for again at the last end marker is always nothing, because no path waits then
  (`RelayAnswers.AnswersCome`).
- "Each needed chunk ships once": a path packed again sends a chunk as often as it occurs in it
  (`ServeNeed.RepeatShipsTwice`). Nothing is sent twice, whatever is cached, if and only if none
  of the chunks asked for is repeated in the first path that has it (`ServeNeed.ShipsOnceIff`).
- Builds wait on claims "instead of fetching twice". A build that takes over a failed claim does
  not look whether the path became valid meanwhile, so it can fetch it again
  (`ClaimsOnce.TakeoverFetchesAgain`). An import finds its path valid already if and only if it
  was valid when it was claimed (`ClaimsOnce.ImportsAgainIff`). With current answers and no
  cancelled build that does not happen (`ClaimsOnce.ImportedOnce`).
- `recover` is meant to keep every record of a synced prefix. It stops at the first record
  that does not verify, and frames are stored on the worker before they are verified, so one
  bad frame hides the good ones after it (`Pack.BadFrameHidesGood`). It keeps all of a synced
  prefix if and only if all of it verifies (`Pack.RecoveryKeepsAllIff`).
- A reopened store is meant to hold only frames that verify. A sealed pack is taken by its
  index and not looked at, so a bad frame in it is read (`ChunkStoreOpen.SealedBad`). What the
  reopened cache reads for a chunk fails to verify if and only if the chunk's newest record is
  in a sealed pack and is bad (`ChunkStoreOpen.ReopenVerifiesIff`).
- `evict` is meant to stop over budget only after a full round over main freed nothing. It
  counts rounds against the packs left in main, and short packs merge into one as they are
  copied, so it can stop with cold packs never visited (`ChunkStoreStops.StopsEarly`). It
  does what it says when main's packs were filled before they were sealed
  (`ChunkStoreEvictLoop.EvictOrLive`), which holds from an empty directory on
  (`ChunkStoreRuns.NeverOver`) and may fail after a restart, when part-filled packs are loaded.
  Filled packs are not necessary (`ChunkStoreStops.ShortButLive`).
- "A crash never loses a chunk the map claims to have": at every file operation of every run such
  a chunk is in a synced record of a listed pack (`ChunkStoreRestarts.RunSafe`), from the moment
  its copy in use is first synced on (`ChunkStoreMoments.SafeSinceSync`), but the scan on
  reopening finds it only if no frame that does not verify sits before it. It is found whatever
  the crash left if and only if one of its records has an index or only verifying records up to
  it (`ChunkStoreOpen.ReopenFindsIff`).
- After a restart a chunk reads its newest record, which need not be the one in use before: a
  forgotten chunk comes back (`ChunkStoreRestarts.ForgottenReturns`, as the code says), and one
  forgotten and inserted again with another frame can go back to its old one
  (`ChunkStoreStale.OldFrameReturns`). It reads as before if and only if no other record of it
  is later in its pack or in a pack with a higher id (`ChunkStoreRestarts.RestartCurrentIff`).

Where code and specification differ the model says so: the specification releases a build's
claims with the build while the code drops each claim once its import is done, and both are
covered by a switch (`Claims.Config.eager`). The specification negotiates with the store as it
is, while the code's answer may be older than its claims, so a build joins with any part of what
is valid. The code stages failed imports again up to a bound (`Claims.Config.maxRetries`, zero
for the specification). The hub checks requested hashes when it serves
them while the specification checks on receipt, and the model follows the specification.

## Model

| member | source | states |
|---|---|---|
| RelaySafety.InvStep | spec/protocol.qnt:162-320 | every step of hub, worker, eviction and other traffic keeps the inductive invariant, for any path set, recipe, capacities and resend bound |
| RelaySafety.NoDeadlock | spec/protocol.qnt:367-374 | until the worker has decided, some handler other than eviction and foreign traffic can run |
| RelaySafety.Safety | spec/protocol.qnt:362-379 | in every state of every run: no protocol error on either side, Ready means every input is held or imported (`RelayAnswers.ReadyWhole` says what imported means), outstanding Needs are those in flight, queued, or answered by an Eof in flight, the hub's queue stays bounded, and someone can move until the worker decides |
| RelayProgress.OwnStepFalls | spec/protocol.qnt:162-320 | a lexicographic measure falls on every step that is not foreign traffic |
| RelayProgress.RunsEnd | spec/protocol.qnt:339-360 | no run without foreign traffic goes on forever |
| RelayProgress.EventuallyDecided | spec/protocol.qnt:322-374 | an execution that keeps moving until the worker decides does reach a decision |
| RelayProgress.MaximalRunDecides | spec/protocol.qnt:367-374 | a run that can go no further without foreign traffic has the worker in Ready or GaveUp |
| RelayAnswers.ImportedWhole | spec/protocol.qnt:158-187 | each imported path was added at a step at which its manifest had arrived and its whole recipe was in the store |
| RelayAnswers.ReadyWhole | spec/protocol.qnt:162-187 | in Ready every path was held from the start or imported at some step with its whole recipe stored |
| RelayAnswers.AnswersCome | spec/protocol.qnt:208-291 | in every state of every run each awaited chunk is named by a Need in flight, a queued request or an answer in flight, there were no more resend rounds than evictions, GaveUp means one round too many, and at the last end marker no path waits |
| RelayAnswers.EndsReady | spec/protocol.qnt:242-294 | a run that can go no further, with no more evictions than resend rounds, ends Ready with every path held or imported whole |
| RelayAnswers.OneLossTooMany | spec/protocol.qnt:181-184 | a run with one eviction and no rounds that ends in GaveUp |
| HubStaging.AskedSound | crates/tribuchet/src/hub/relay/staging.rs:209-227 | a Need's new paths are computed once each, sent paths and paths under way are not computed again |
| HubStaging.MoveRefines | crates/tribuchet/src/hub/relay/staging.rs:135-238 | each branch of `progress` and each `handle_need` is one step of the protocol's hub, and the hub's own invariant is kept |
| HubStaging.RunRefines | crates/tribuchet/src/hub/relay/staging.rs:135-238 | every run with this hub is a run of the protocol |
| HubStaging.StagingSafe | crates/tribuchet/src/hub/relay/staging.rs:123-166 | over whole runs: the protocol's safety, until the worker has decided some branch of this hub or step of the worker can run, `computing` is the union of tasks and unsent and disjoint from `sent`, and late manifests are on the wire exactly once, in the order they became sent |
| HubProgress.HubRunsEnd | crates/tribuchet/src/hub/relay/staging.rs:123-238 | no schedule of this hub and the worker, evictions included, goes on forever |
| HubProgress.HubEventuallyDecides | crates/tribuchet/src/hub/relay/staging.rs:123-238 | whatever the schedule, an execution with this hub that keeps moving until the worker decides reaches a decision |
| HubProgress.HubMaximalRunDecides | crates/tribuchet/src/hub/relay/staging.rs:123-166 | a run with this hub that only evictions and other traffic could prolong has the worker in Ready or GaveUp |
| HubProgress.HubEndsReady | crates/tribuchet/src/hub/relay/staging.rs:123-238 | with this hub, a transfer that can go no further and lost no more chunks than there are rounds ends Ready, with every path held or imported whole |
| ServeNeed.Serve | crates/tribuchet/src/hub/relay/serve.rs:26-62 | whatever is cached, the answer has exactly the chunks asked for, and fails exactly if one is in no manifest sent |
| ServeNeed.ServeCached | crates/tribuchet/src/hub/relay/serve.rs:122-141 | nothing from the cache unless all is there, each chunk at most once, and the rest is what was not sent |
| ServeNeed.ShipsOnceIff | crates/tribuchet/src/hub/relay/serve.rs:26-62 | no chunk is sent twice, whatever is cached, if and only if none asked for is repeated in the first path that has it |
| ServeNeed.RepeatShipsTwice | crates/tribuchet/src/hub/relay/serve.rs:143-172 | a path with a chunk twice, not cached, sends it twice |
| HubStaging.Staging.SendManifest | crates/tribuchet/src/hub/relay/staging.rs:140-148 | the manifest leaves `unsent` and `computing` and enters `sent` and the wire in one step |
| HubStaging.Staging.Computed | crates/tribuchet/src/hub/relay/staging.rs:149-152 | a finished recipe moves from the tasks to the unsent queue and stays in `computing` |
| HubStaging.Staging.Answered | crates/tribuchet/src/hub/relay/staging.rs:153-158 | the chunks of the request being answered go out with one end marker, and the next request in line is taken up |
| HubStaging.Staging.HandleNeed | crates/tribuchet/src/hub/relay/staging.rs:188-238 | refused exactly if a path was not offered, otherwise paths neither sent nor under way are computed, those sent go out again unless this is the first request, and the chunks come last in line |
| WorkerChunks.ChunkStaging.AwaitMissing | crates/tribuchet/src/worker/build/chunks.rs:62-83 | awaits exactly the chunks the store lacks, asks once each for those nobody awaited, and keeps each path's count equal to the chunks it waits on |
| WorkerChunks.ChunkStaging.AddRecipe | crates/tribuchet/src/worker/build/chunks.rs:42-60 | a manifest awaits and asks for what the protocol's worker does, and the path is ready exactly if it waits on nothing |
| WorkerChunks.ChunkStaging.Ingest | crates/tribuchet/src/worker/build/chunks.rs:103-127 | a frame wakes exactly the paths it was the last missing chunk of, and a waiter without a count never occurs |
| WorkerChunks.ChunkStaging.IngestAll | crates/tribuchet/src/worker/build/chunks.rs:219-249 | an answer taken frame by frame leaves the waits and wakes the paths the protocol's worker has after taking it at once |
| WorkerChunks.ChunkStaging.ReawaitStuck | crates/tribuchet/src/worker/build/chunks.rs:85-101 | after the last end marker exactly the waiting paths ask again, once each, for what the store lacks now, and the complete ones are reported |
| ClaimsSafety.InvStep | spec/staging.qnt:87-195 | every step of every build, restaging and joins with an older validity answer included, keeps the invariant, for any number of builds and any reference graph acyclic apart from self-references |
| ClaimsSafety.ImportAccepted | spec/staging.qnt:113-144 | when an import reaches the daemon all its references are valid, so it is never rejected |
| ClaimsSafety.NoWedge | spec/staging.qnt:209-226 | while a build is staging, some staging build can step without a cancel and without staging anything again |
| ClaimsSafety.Safety | spec/staging.qnt:203-228 | in every state of every run: the store is closed under references, no import rejected, a Ready build's closure is valid, a path is fetched by one build only, and staging does not wedge |
| ClaimsProgress.StepFalls | spec/staging.qnt:87-195 | a lexicographic measure over phases, retries left and per-path stages falls on every step, waits on failed owners ranking above waits on live ones |
| ClaimsProgress.RunsEnd | spec/staging.qnt:68-201 | no run goes on forever |
| ClaimsProgress.EventuallySettled | spec/staging.qnt:197-228 | an execution that keeps stepping settles every build |
| ClaimsProgress.MaximalRunSettles | spec/staging.qnt:209-228 | a run in which only cancels are left has every build Ready or Cancelled |
| ClaimsOnce.ImportsAgainIff | spec/staging.qnt:68-170 | for every import of every run, the path is valid already exactly if it was when the build claimed it, on an answer without it or by taking over a failed claim |
| ClaimsOnce.ImportedOnce | spec/staging.qnt:1-12 | with current answers and no cancels no path is imported twice |
| ClaimsOnce.TakeoverFetchesAgain | crates/tribuchet/src/worker/build.rs:291-312 | three builds and one cancel: a path is imported twice, with current answers |
| ClaimsOnce.SeenNeverFetched | spec/staging.qnt:87-103 | a path a build was told is valid is its input for good and is never fetched by it |
| ActiveBuilds.Registry.constructor | crates/tribuchet/src/worker/build/claims.rs:18-19 | a worker that starts has no claims and is in order with any start of the staging model |
| ActiveBuilds.Registry.ClaimOrWait | crates/tribuchet/src/worker/build/claims.rs:43-68 | the first to ask gets the claim, anyone else the ticket of the claim that stands |
| ActiveBuilds.Registry.SettleClaim | crates/tribuchet/src/worker/build/claims.rs:70-74 | the claim leaves the registry and its ticket takes the final state |
| ActiveBuilds.Registry.SettledState | crates/tribuchet/src/worker/build/claims.rs:77-86 | a ticket reads as settled exactly when its claim is no longer listed |
| ActiveBuilds.ActiveBuild.Claim | crates/tribuchet/src/worker/build.rs:260-277 | a claimed path is pending, a path claimed elsewhere is waited for by its ticket |
| ActiveBuilds.ActiveBuild.Join | crates/tribuchet/src/worker/build.rs:214-222 | the pass over the offer, with an answer that may be older than the claims, is the staging model's negotiation: paths seen valid are inputs, the rest is claimed or waited for |
| ActiveBuilds.ActiveBuild.Woken | crates/tribuchet/src/worker/build.rs:291-312 | a settled wait turns into an input, a wait on the new owner, or a claim of its own, as the staging model resolves it, and then every parked path whose references are all inputs is dispatched |
| ActiveBuilds.ActiveBuild.UnstagedRef | crates/tribuchet/src/worker/build/chunks.rs:273-291 | free exactly if every reference is an input, otherwise a reference under way is named, and one outside the input closure never occurs |
| ActiveBuilds.ActiveBuild.StartFrom | crates/tribuchet/src/worker/build/chunks.rs:253-264 | the queue of complete and parked paths ends, and leaves each of them dispatched or parked with a reference that is not yet an input |
| ActiveBuilds.ActiveBuild.RetryParked | crates/tribuchet/src/worker/build/chunks.rs:266-271 | exactly the complete paths whose references are all inputs are dispatched, and no such path stays parked |
| ActiveBuilds.ActiveBuild.ChunksComplete | crates/tribuchet/src/worker/build/chunks.rs:243-264 | a path whose last chunk came is dispatched at once exactly if its references are all inputs, otherwise parked |
| Parking.StartedByOne | spec/staging.qnt:112-123 | starting several paths together is a run of the staging model that dispatches them one after another |
| ActiveBuilds.ActiveBuild.ImportFinished | crates/tribuchet/src/worker/build.rs:348-375 | a finished import is an input, its claim done, the daemon accepted it, and no path it was the last missing reference of stays parked. A failed one is staged again under its claim exactly if bad chunks are to blame and rounds are left. Either way this build and all others stay in order |
| ActiveBuilds.ActiveBuild.GiveUp | crates/tribuchet/src/worker/build.rs:285-289 | exactly the claims this build holds leave the registry and fail |
| ActiveBuilds.ActiveBuild.TryComplete | crates/tribuchet/src/worker/build.rs:377-389 | ready exactly when the tmp dir is unpacked and the staging model may finish the build |
| ActiveBuilds.ActiveBuild.OthersStayOn | crates/tribuchet/src/worker/build/claims.rs:20-36 | a step that leaves the other builds' parts of the staging state and the holders of tickets alone leaves every other build object on the registry in order, which each of the methods above promises |
| Pack.SlotReads | crates/tribuchet/src/chunkstore/pack.rs:48-60 | the payload offset and length handed out for a record read back exactly its frame |
| Pack.IndexRoundTrip | crates/tribuchet/src/chunkstore/pack.rs:72-97 | loading a written index gives its entries |
| Pack.Recover | crates/tribuchet/src/chunkstore/pack.rs:103-133 | the scan returns the slots of the longest prefix of intact records and keeps exactly their bytes |
| Pack.IntactSound | crates/tribuchet/src/chunkstore/pack.rs:103-133 | everything recovered verifies against its hash and is a prefix of the file |
| Pack.RecoveryKeepsAllIff | crates/tribuchet/src/chunkstore/pack.rs:99-133 | recovery keeps every record of a synced prefix, whatever follows it, if and only if all of them verify |
| Pack.BadFrameHidesGood | crates/tribuchet/src/chunkstore/pack.rs:119-125 | one record that does not verify makes recovery drop good ones after it |
| ChunkStoreInv.AppendInv | crates/tribuchet/src/chunkstore.rs:226-276 | a frame appended reads back, no other entry changes, bytes are accounted, and each pack stays in one place |
| ChunkStoreEvict.RetireOk | crates/tribuchet/src/chunkstore.rs:316-360 | retiring a pack finds it known, drops only cold entries, keeps pinned ones with their frames, and never raises the total |
| ChunkStoreEvictLoop.RoundInv | crates/tribuchet/src/chunkstore.rs:282-300 | a queue with bytes always has a pack to retire, so the exit for want of one is never taken |
| ChunkStoreEvictLoop.EvictKeeps | crates/tribuchet/src/chunkstore.rs:278-311 | eviction ends for every store, keeps the invariant, the pinned chunks and all remaining frames, and stops over budget only with the small queue within its share. What it starts from is in the rows of `ChunkStoreRoom` |
| ChunkStoreEvictLoop.EvictOrLive | crates/tribuchet/src/chunkstore.rs:278-311 | if main's packs were filled before they were sealed, a stop over budget means every record of main is in use and was pinned or hot |
| ChunkStoreRoom.WithinBudget | crates/tribuchet/src/chunkstore.rs:282 | a cache within budget evicts nothing |
| ChunkStoreRoom.EvictByRounds | crates/tribuchet/src/chunkstore.rs:280-311 | eviction is a chain of rounds, each from a store over budget, and over the small queue exactly if that has more than a tenth of the budget |
| ChunkStoreRoom.RoundOldest | crates/tribuchet/src/chunkstore.rs:283-300 | a round unlinks exactly the oldest pack of its queue, and the queues keep their order |
| ChunkStoreRoom.RoundOutcome | crates/tribuchet/src/chunkstore.rs:316-346 | of the oldest pack the chunks neither hit nor pinned leave, the others go to main, one cooler if they were there, and no other chunk changes |
| ChunkStoreRoom.HitCounts | crates/tribuchet/src/chunkstore.rs:182-186 | each hit counts up to three, for that chunk alone |
| ChunkStoreRoom.HitsSurvive | crates/tribuchet/src/chunkstore.rs:313-346 | a chunk hit k times, up to three, outlives k retirements of its pack with its frame |
| ChunkStoreRoom.SealsFull | crates/tribuchet/src/chunkstore.rs:226-258 | a pack is sealed by the append that fills it and by no other |
| ChunkStoreRoom.RoomyInsert | crates/tribuchet/src/chunkstore.rs:211-224 | a chunk for which there is room is there afterwards with its frame, in main exactly if its ghost was known, and no other entry changes |
| ChunkStoreRoom.RoomyRun | crates/tribuchet/src/chunkstore.rs:167-224 | a cache all of whose inserts fit its budget loses nothing over any calls |
| ChunkStoreRoom.GhostsBounded | crates/tribuchet/src/chunkstore.rs:389-395 | after an insert the ghost queue is no longer than the map or 1024 |
| ChunkStoreStops.StopsEarly | crates/tribuchet/src/chunkstore.rs:301-308 | with short packs that promise fails: a directory of three is opened, two chunks pinned, one inserted, and eviction stops over budget with a cold, unvisited pack in main |
| ChunkStoreStops.InsertStops | crates/tribuchet/src/chunkstore.rs:278-311 | the same for every store of three short packs, the first two pinned, whose budget the third exceeds |
| ChunkStoreStops.ShortButLive | crates/tribuchet/src/chunkstore.rs:278-311 | a store with a short pack for which the promise holds, so filled packs are sufficient and not necessary |
| ChunkStoreCrash.EvictSafe | crates/tribuchet/src/chunkstore.rs:351-358 | whenever the map has a chunk that was on disk, after every file operation of an eviction, it is in a synced record of a listed pack |
| ChunkStoreFrames.EvictGood | crates/tribuchet/src/chunkstore.rs:324-345 | whatever holds of every stored record holds of every record in every directory eviction leaves, and every index there is that of its records |
| ChunkStoreOpen.OpenInv | crates/tribuchet/src/chunkstore.rs:130-165 | opening any directory gives a store in order, everything in main with frequency zero and nothing pinned |
| ChunkStoreOpen.OpenHolds | crates/tribuchet/src/chunkstore.rs:143-164 | the opened store knows exactly the hashes found in some pack by index or recovery |
| ChunkStoreOpen.ReopenVerifiesIff | crates/tribuchet/src/chunkstore.rs:143-150 | what the reopened cache reads for a chunk fails to verify if and only if the chunk's newest record is in a sealed pack and is bad |
| ChunkStoreOpen.SealedBad | crates/tribuchet/src/chunkstore.rs:144-148 | a directory of one sealed pack with a bad frame, which the reopened cache reads |
| ChunkStoreOpen.ReadEntries | crates/tribuchet/src/chunkstore.rs:143-150 | the index file decoded, or the scan of an unsealed pack, gives the entries of the loaded pack |
| ChunkStoreOpen.ReopenFindsIff | crates/tribuchet/src/chunkstore.rs:130-165 | a chunk is in the reopened cache whatever bytes the crash left if and only if one of its records has an index or is synced with only verifying records up to it |
| ChunkStoreOpen.ReopenReadsIff | crates/tribuchet/src/chunkstore.rs:151-161 | the reopened cache reads a given record of a chunk if and only if no other record of it is later in the same pack or in one with a higher id |
| ChunkStoreRestarts.RunSafe | crates/tribuchet/src/chunkstore.rs:351-358 | through any calls: as long as the cache has a chunk that was on disk, it is in a synced record of a listed pack after every file operation of append, seal and eviction, with its frame |
| ChunkStoreRestarts.CrashAnywhere | crates/tribuchet/src/chunkstore.rs:211-360 | crash after any file operation of any run, with arbitrary unsynced bytes: such a chunk is found on reopening unless a frame that does not verify hides it |
| ChunkStoreMoments.SafeSinceSync | crates/tribuchet/src/chunkstore.rs:226-360 | from the moment in any call at which the copy in use is synced, be it by a seal, a sync or a promotion, the chunk is in a synced record of a listed pack with that frame after every later file operation while the cache keeps it |
| ChunkStoreMoments.CrashSinceSync | crates/tribuchet/src/chunkstore.rs:211-360 | a crash at any moment from then on: the chunk is found on reopening unless a frame that does not verify hides it |
| ChunkStoreRestarts.VerifiedCrash | crates/tribuchet/src/chunkstore.rs:211-360 | a cache that takes only frames that verify finds such a chunk after any crash, and what it reads verifies |
| ChunkStoreRestarts.OpenedSaves | crates/tribuchet/src/chunkstore.rs:130-165 | everything a reopened cache has is on disk, so the above holds of the next life too |
| ChunkStoreRestarts.LivesGenuine | crates/tribuchet/src/chunkstore.rs:103-224 | through any calls, crashes at any file operation and restarts, a hit is a frame stored at the start, inserted under that hash, or verifying |
| ChunkStoreRestarts.RestartCurrentIff | crates/tribuchet/src/chunkstore.rs:130-178 | after a restart that lost nothing, a chunk's entry is the one before if and only if no other record of it is later in its pack or in a pack with a higher id |
| ChunkStoreRestarts.ForgottenReturns | crates/tribuchet/src/chunkstore.rs:173-178 | a chunk forgotten while its record is in a sealed pack is back after every restart |
| ChunkStoreStale.OldFrameReturns | crates/tribuchet/src/chunkstore.rs:130-178 | a run, for any chunks and sizes that fit, of open, locate, insert, forget and insert again after which the cache reads the new frame and, once restarted, the old one |
| ChunkStoreStale.SomeCase | crates/tribuchet/src/chunkstore.rs:103-112 | there are chunks and sizes that fit, with different frames |
| ChunkStoreOps.InsertAdmits | crates/tribuchet/src/chunkstore.rs:211-224 | after an insert every entry is an old one with its old frame or the new one with the new frame, pinned chunks are all there, and a chunk already present is left alone |
| ChunkStoreOps.InsertBudget | crates/tribuchet/src/chunkstore.rs:211-224 | an insert ends within budget or with only pinned or hot chunks in main, and keeps main's packs filled |
| ChunkStoreOps.RetireSorts | crates/tribuchet/src/chunkstore.rs:313-346 | of a retired pack's chunks exactly the hot and the pinned ones survive, in main and one cooler if they were there before, and a cold one from small leaves a ghost that sends it to main when it comes back |
| ChunkStoreOps.TrimmedOk | crates/tribuchet/src/chunkstore.rs:389-395 | the ghost queue keeps its newest entries up to the cap and the ghost set stays within it |
| ChunkStoreOps.LocatedStays | crates/tribuchet/src/chunkstore.rs:24-36 | a frame located earlier reads the same after any later promotions, evictions and unlinks |
| ChunkStoreOps.PinnedHeld | crates/tribuchet/src/chunkstore.rs:197-208 | pinning adds each hash as often as it is named to the multiset the live guards hold |
| ChunkStoreOps.UnpinnedHeld | crates/tribuchet/src/chunkstore.rs:88-100 | dropping a guard takes off exactly its own pins, duplicates included |
| ChunkStoreRuns.AllGenuine | crates/tribuchet/src/chunkstore.rs:167-224 | after any calls in any order within one life, a hit is a frame held at the start, unchanged, or inserted under that hash since |
| ChunkStoreRuns.CountsGuards | crates/tribuchet/src/chunkstore.rs:195-208 | over any run a chunk's pin count is the number of times live guards name it |
| ChunkStoreRuns.PinsHold | crates/tribuchet/src/chunkstore.rs:83-100 | a chunk stays with its frame through any calls as long as some guard names it and it is not forgotten, also when other guards that name it drop |
| ChunkStoreRuns.NeverOver | crates/tribuchet/src/chunkstore.rs:103-224 | from an empty directory on, every admission ends within budget or with only pinned or hot chunks in main |
| ChunkCache.Cache.constructor | crates/tribuchet/src/chunkstore.rs:103-165 | opening loads every pack in id order, by its decoded index or by scanning it |
| ChunkCache.Cache.AppendFrame | crates/tribuchet/src/chunkstore.rs:226-258 | the object's append is the specified one, refusing frames too long for their length field after the pack is opened |
| ChunkCache.Cache.RetirePack | crates/tribuchet/src/chunkstore.rs:316-360 | the retire loop, sync and unlink give the specified store, and the pack is a known one |
| ChunkCache.Cache.EvictPacks | crates/tribuchet/src/chunkstore.rs:280-311 | the loop ends and gives the specified eviction, and within budget changes nothing |
| ChunkCache.Cache.InsertFrame | crates/tribuchet/src/chunkstore.rs:211-224 | the object's insert is the specified one, failing exactly for a new frame that is too long. If there is room the chunk comes in and nothing goes |
| ChunkCache.Cache.LocateFrame | crates/tribuchet/src/chunkstore.rs:182-193 | a hit returns a place that reads the chunk's frame and adds one to its frequency, up to three, a miss changes nothing |
| ChunkCache.Cache.PeekFrame | crates/tribuchet/src/chunkstore.rs:188-193 | found exactly if present, reading the chunk's frame, without a bump |
| ChunkCache.Cache.PinChunks | crates/tribuchet/src/chunkstore.rs:197-208 | the loop counts each hash |
| ChunkCache.Cache.UnpinChunks | crates/tribuchet/src/chunkstore.rs:88-100 | the loop uncounts each hash and forgets zero counts |
| CacheSharing.SharedCache.Yield | crates/tribuchet/src/hub/chunkcache.rs:38-95 | whatever calls others make in between, this user's pinned chunks stay with their frames, because others only drop their own guards |
| CacheSharing.SharedCache.Fetch | crates/tribuchet/src/hub/chunkcache.rs:84-86 | a located frame is read unchanged although others use the cache, and unlink packs, before the read |
| CacheSharing.SharedCache.Admit | crates/tribuchet/src/hub/chunkcache.rs:122-124 | admitting evicts none of the pinned chunks, and a pinned chunk is there afterwards |
| Announced.VerifySet | crates/tribuchet/src/hub/relay/outputs.rs:33-57 | a result is taken if and only if it names exactly the requested outputs, each once, with acceptable recipes |
| Announced.ParseRecipe | crates/tribuchet/src/chunker.rs:36-53 | accepted exactly if hashes and sizes match up and no chunk nor the whole exceeds its bound |
| Announced.RecipeRoundTrip | crates/tribuchet/src/worker/resume/delivery.rs:160-164 | the recipe a worker announces is the one the hub parses |
| Delivery.SendChunks | crates/tribuchet/src/worker/resume/delivery.rs:313-352 | the worker emits each needed chunk at its first place in recipe order, then an end marker exactly if nothing was asked for outside the recipes |
| Delivery.EmitsOnce | crates/tribuchet/src/worker/resume/delivery.rs:328-341 | no chunk is sent twice |
| Delivery.EmitsAll | crates/tribuchet/src/worker/resume/delivery.rs:328-341 | every needed hash of the recipes is sent |
| Delivery.ChunkSource.Request | crates/tribuchet/src/hub/relay/outputs.rs:146-155 | after the request every chunk is cached or asked for, others using the cache meanwhile, and nothing outside the recipe or cached at the start is asked for |
| Delivery.ChunkSource.Get | crates/tribuchet/src/hub/relay/outputs.rs:84-102 | whatever the worker sends, a frame handed on decodes to the recipe's chunk. While hub and worker are in step it comes from the wire or the cache, decodes to the worker's plaintext, and both stay in step |
| Delivery.ChunkSource.AssembleAll | crates/tribuchet/src/hub/relay/outputs.rs:169-207 | whatever the worker sends, outputs published as complete fit their recipes chunk by chunk, and from a worker in step they decode to what it packed |
| Delivery.Deliver | crates/tribuchet/src/hub/relay/outputs.rs:131-210 | for any outputs, repeats, cache contents and use of the cache by others, delivery over the log-structured cache succeeds up to the end marker, every output decodes to what the worker packed, no chunk cached at the start goes over the wire and none twice, and the guard on its chunks is dropped |
| Nar.ArchiveInverse | crates/tribuchet/src/nar/pack.rs:42-112 | a parser with padding arithmetic of its own inverts the serialization |
| Nar.ArchiveInjective | crates/tribuchet/src/nar/pack.rs:66-112 | trees with equal archives are equal |
| Nar.ParsedIsArchive | crates/tribuchet/src/nar/pack.rs:42-112 | what parses as an archive is, byte for byte, the serialization of the tree it parses to |
| Nar.StrShape | crates/tribuchet/src/nar/pack.rs:169-187 | a string is its length in eight bytes, its bytes, and less than eight zeros up to a multiple of eight |
| Nar.ArchiveAligned | crates/tribuchet/src/nar/pack.rs:42-112 | every archive is a whole number of eight-byte words |
| Nar.EmptyFile | crates/tribuchet/src/nar/pack.rs:42-112 | the archive of an empty file, byte by byte |
| NarPack.SegmentsText | crates/tribuchet/src/nar/pack.rs:114-214 | the segments handed out concatenate to the recursive serialization |
| NarPack.Emitter.StreamBody | crates/tribuchet/src/nar/pack.rs:133-152 | for every pattern of short reads a body comes out in parts that join to its looked-up size, and a file that shrank is an error |
| NarPack.Emitter.WriteFile | crates/tribuchet/src/nar/pack.rs:114-152 | small files are buffered, large ones streamed, both padded, and truncation is reported exactly |
| NarPack.Emitter.WriteNode | crates/tribuchet/src/nar/pack.rs:66-112 | the recursive writer fails exactly on trees that cannot be packed and otherwise leaves the specified output |
| NarPack.Pack | crates/tribuchet/src/nar/pack.rs:40-52 | packing fails exactly on a shrunk file or an unsupported node, and its pieces join to segments that depend on the tree alone |
| Chunker.CutFinal | crates/tribuchet/src/chunker.rs:119-131 | the first cut of a window of the largest chunk size is final whatever follows |
| Chunker.ChunksAreTheArchive | crates/tribuchet/src/chunker.rs:155-178 | the chunks of a tree concatenate to its archive, each within the wire bound |
| Chunker.Chunking.Emit | crates/tribuchet/src/chunker.rs:83-95 | oversized data goes out in pieces of the largest size, in order |
| Chunker.Chunking.PushPart | crates/tribuchet/src/chunker.rs:118-141 | after any part of a body, what is out and what is held make up the cuts of the whole body |
| Chunker.Chunking.Push | crates/tribuchet/src/chunker.rs:105-144 | after any pieces the chunks out are those of the joined segments |
| Chunker.ChunkStorePath | crates/tribuchet/src/chunker.rs:155-178 | the chunk list is the same for every pattern of reads, concatenates to the archive and respects the bound |
| ChunkDedup.WholeBodies | crates/tribuchet/src/nar/pack.rs:13-22 | the bodies handed out whole are exactly those of the tree's files of at least 16 KiB |
| ChunkDedup.FileKeepsChunks | crates/tribuchet/src/chunker.rs:1-4 | such a file, wherever it is in the tree, is cut as it would be on its own and its chunks stand in a row in the chunk list |
| ChunkDedup.FilesShareChunks | crates/tribuchet/src/chunker.rs:1-4 | two trees with a file in common have all its chunks in common |
| ChunkDedup.TailsShareChunks | crates/tribuchet/src/chunker.rs:180-188 | bodies that agree from a chunk boundary of each on have all later chunks in common |
| ChunkDedup.SmallTreeIsOne | crates/tribuchet/src/chunker.rs:97-112 | a tree of small files with an archive below the largest cut is one chunk |
| Ordering.OrderByReferences | crates/tribuchet/src/hub/relay/staging.rs:289-335 | a permutation of the distinct paths: picks first, each the largest that could go, then by name the paths that reach a cycle, and no lookup fails |
| Ordering.ReferencesFirst | crates/tribuchet/src/hub/relay/staging.rs:289-327 | a path that reaches no cycle comes after all its references in the set |
| Ordering.PickNoCycle | crates/tribuchet/src/hub/relay/staging.rs:310-327 | only paths that reach no cycle are picked before the rest |
| Ordering.OrderUnique | crates/tribuchet/src/hub/relay/staging.rs:292-335 | there is one such order, whatever order the hash maps are walked in |
| TopoOrder.Order | crates/tribuchet/src/store.rs:85-112 | ends on every finite graph, emits each node reachable from the roots once, and every node that reaches no cycle after all its references |
| Pins.PlanPins | crates/tribuchet/src/worker/pins.rs:36-73 | the paths to root are the offered ones no other valid offered path refers to |
| Pins.PlanCovers | crates/tribuchet/src/worker/pins.rs:3-10 | rooting those reaches every valid offered path, references being acyclic apart from self-references |
| Pins.CycleUnrooted | crates/tribuchet/src/worker/pins.rs:51-72 | of any cycle within the snapshot the plan would root no member |
| Pins.CheckInputs | crates/tribuchet/src/worker/build.rs:143-213 | with collections at any point, every path taken as an input is valid and held by a temp root when the check returns, also when a collection overtook the snapshot |
| Pins.HeldForever | crates/tribuchet/src/worker/build.rs:161-167 | a held input stays valid through any later collections while the roots live |
| Jobs.ListedInv | crates/tribuchet/src/hub/state/inflight.rs:30-47 | a listing is refused when its key or a path is in flight, and otherwise enters the registry without touching others |
| Jobs.UnlistKeepsOthers | crates/tribuchet/src/hub/state/inflight.rs:50-59 | dropping a listing never removes another job's entries |
| Jobs.InvStep | crates/tribuchet/src/hub/state.rs:268-375 | submit, abandon, queue, take, drop, dispatch, cancel, requeue and settle keep registry, queue and counts in order |
| Jobs.Safety | crates/tribuchet/src/hub.rs:347-392 | over all interleavings: the registry is the union of live listings, which share nothing, a queued job is queued once, each job is finished at most once and dispatched at most four times |
| Jobs.QueueInOrder | crates/tribuchet/src/hub/state.rs:268-316 | queued jobs keep their order: new and requeued ones go to the back, and taking one moves no other |
| Jobs.LostForGood | crates/tribuchet/src/hub.rs:369-376 | a job that lost its worker and is not queued again was dispatched four times |
| Jobs.StepFalls | crates/tribuchet/src/hub.rs:369-376 | every step that does something, submissions aside, brings a job nearer its end |
| Jobs.WorkEnds | crates/tribuchet/src/hub.rs:347-392 | once submissions cease no schedule goes on forever |
| Jobs.EventuallyOver | crates/tribuchet/src/hub.rs:347-392 | an execution that keeps working until every job is over gets there |
| Jobs.MaximalRunOver | crates/tribuchet/src/hub/state.rs:338-341 | a run only a submission could prolong has every job settled or abandoned, the queue empty and nothing listed |
| Jobs.Inflight.List | crates/tribuchet/src/hub/state/inflight.rs:30-47 | refused exactly on a shared path, and so for a key in flight. Otherwise key and paths are listed for this job and the registry stays the disjoint union of live listings |
| Jobs.Inflight.Release | crates/tribuchet/src/hub/state/inflight.rs:50-59 | dropping a listing takes out exactly its key and paths |
| Replay.NoGaps | crates/tribuchet/src/hub/state/replay.rs:46-113 | whenever a subscriber joins, it sees events from the first on without a gap or is refused, and the buffer stays within its cap |
| Replay.FollowsAll | crates/tribuchet/src/hub/state/replay.rs:47-106 | a subscriber that joins a build under way within the cap and keeps up has all that was published, before and since |
| Replay.OverflowsIff | crates/tribuchet/src/hub/state/replay.rs:60-69 | the buffer has overflowed exactly if all that was published exceeds the cap |
| Replay.EventLog.PublishEvent | crates/tribuchet/src/hub/state/replay.rs:47-70 | exactly the lost subscribers leave, the others get the event and nobody else anything, and the buffer overflows exactly if the event does not fit |
| Replay.EventLog.AddSubscriber | crates/tribuchet/src/hub/state/replay.rs:72-106 | a new subscriber gets the whole backlog and follows, is told the buffer overflowed, or that the build is gone if it ended without a verdict |
| Replay.EventLog.Close | crates/tribuchet/src/hub/state/replay.rs:108-113 | all streams end where they are |
| Attach.AttemptBuild | crates/tribuchet/src/attach.rs:201-257 | the event loop is the fold of its events, and a stream without a verdict is retried |
| Attach.GoesOnIff | crates/tribuchet/src/attach.rs:201-257 | a stream goes on exactly while it has no verdict and only expected outputs. Open is then what was begun and neither ended nor restarted, unpacked what was ended and not begun again, added what was announced |
| Attach.DoneIff | crates/tribuchet/src/attach.rs:241-250 | a build is done with a code exactly if that is the first verdict, nothing unexpected came before and every transfer begun was ended or restarted |
| Attach.AbortedCloses | crates/tribuchet/src/hub/state.rs:307-318 | however far an attempt got, the restarts after it leave no output half unpacked |
| Attach.LastAttemptWins | crates/tribuchet/src/attach.rs:298-337 | any number of aborted attempts and then a complete one: the exit code is taken, nothing is left open, and each output is what the last attempt delivered |

## Left out

- Jobs: which worker a job goes to (capabilities, keys held for resumption) is left to the interleaving, so nothing is said about fairness or capacity.
- Attach.LastAttemptWins: does not say what extra paths an aborted attempt may already have announced, since the client keeps them all.
- ChunkStoreEvictLoop.EvictOrLive: goes one way only. With short packs it depends on where in the queue the kept chunks lie and how they merge, and no simpler condition than running the loop was found.
- ActiveBuilds.ActiveBuild.Join: an offer that names a path twice is excluded. The hub sends distinct paths (`Ordering.OrderByReferences`), and with a repeat the build would wait on its own claim.
- ChunkStoreRestarts.CrashAnywhere: a pack and its index are unlinked in one step (an index without a pack is not read), directory entries are durable once written, and a crash while a directory is being opened is not modelled.
- Delivery.Deliver: extra paths are taken like outputs, so an importer that stops reading early is not modelled.
- HubStaging.NeedRefines: manifests re-sent for a path asked for twice are outside the refinement, because the hub awaits that send directly.
- ServeNeed.Serve: frames are named by their chunk. A path packed again is taken to have the chunks of its recipe, and what is compressed or admitted to the cache on the way is not modelled.
- WorkerChunks.ChunkStaging.IngestAll: the protocol's worker imports a complete path at once, while the code hands it to a pool and stages it again if chunks turn out bad. The pool and restaging are in the staging model, not in the transfer protocol.
- Pins.CheckInputs: parsing of store paths and the macOS check of existing outputs are not modelled.
- I/O errors other than those named (oversized frame, shrunk file, unsupported file type) do not occur in the model.
- Integer widths: counters and byte totals are unbounded, and only the fields of the file formats have a width.
- The per-session set of paths a worker is known to have only chooses which manifests travel with the assignment, and the model lets that choice be any.
- The hub cache's memory of first sightings and its recipe queue decide only what is worth caching and are not modelled. Metrics, slots and lookahead are not either.
- Early stops of the packer and the chunker when the consumer gives up.
- Name stripping for case-insensitive file systems. Directory listings are taken sorted.
- Sandboxes, namespaces, gRPC, TLS, configuration and service glue.
