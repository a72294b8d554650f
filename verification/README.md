# Verified model of mini-llmcache

mini-llmcache keeps chunks of a language model's KV cache outside the GPU: a
server holds them in one pinned buffer (L1) and mirrors them to slower adapters
(L2), and a connector inside vLLM decides what to look up, load back and store.
This project models the server's storage engine, the hash chain behind its keys,
the connector's bookkeeping, the GPU transfer pipeline and the RPC layer, and
proves what they promise each other.

`dafny verify dfyconfig.toml` checks everything.

## How it is laid out

| files | what they hold |
|---|---|
| `Types`, `Memory`, `Eviction`, `LockProtocol`, `Sessions`, `SecondTier` | the parts of the storage engine: one function per critical section, what each does, and the objects (`PoolAllocator`, `LRUPolicy`, `PrefetchController`, `MockAdapter`) whose methods are proved equal to those functions |
| `Manager`, `EvictionRound`, `Duplicates` | the `L1Manager` object, one round of the evictor, and exactly when a reservation keeps the pool's books |
| `Cache` | the server as a step machine: STORE handlers, the prefetch worker, the write-back worker, the evictor, RETRIEVE, FREE and END_SESSION interleave freely, one critical section or one byte copy at a time; a copy may be seen half done |
| `CacheInv`, `CacheBooks`, `CacheStore`, `CachePrefetch`, `CacheKeeper`, `CacheCalls` | the invariant of that machine and its preservation, actor by actor |
| `CacheFrames`, `CacheSafety`, `CacheHolds`, `CacheFlags`, `CacheFates`, `CacheReads`, `CacheLive`, `CacheSessions` | what each kind of step leaves alone, and what follows for whole runs: bytes, holds, the temporary flag, the end of a STORE, what a RETRIEVE sends |
| `CacheLoads`, `CacheReplies`, `CacheEnds`, `CacheQueues` | the course of a lookup, of a RETRIEVE or FREE and of a session's end through whole runs, and the order of the two queues |
| `CacheWitness`, `CacheLatePromote`, `CacheOvertake`, `CacheLoadWitness` | runs that end badly, why a chunk nobody holds can always be overtaken, and a run that loads from an adapter |
| `Hasher`, `Server`, `Partition`, `RankReads`, `Advertised` | the hash chain, rank-interleaved keys, how one session's locks are divided, and what that means on the step machine while everything else runs |
| `Connector`, `RequestLife` | the request tracker over scheduler runs, and what is told, loaded, freed and stored, read off the events alone |
| `Transfer`, `KVTransfer`, `Pipeline`, `Loading` | chunk bytes, the transfer loops in place, the two-stream pipeline, and what a load leaves in the tensors |
| `MessageQueue` | the send queue with its wakeup pipe, and the matching of replies |

Hold accounting is the centre. A *claim* is a read hold or a write lock, and its
owner is a session, the prefetch worker, the write-back worker or one request
handler. In every reachable state `read_count` is the number of owners that claim
to read the key and a write lock has exactly one owner. Everything else (no
chunk freed under a holder, no bytes nobody stored, no lookup that misses, no
deadlock) is read off that.

Where the code does less than its comments say:

* `end_session` releases and then forgets in two critical sections. A lookup that
  resolves between them leaves holds nobody will drop, and the chunk stays pinned
  for ever. Equality of `read_count` and live holders is therefore false in
  general: `CacheWitness.LeakHappens` is a run, `CacheHolds.HoldAccounting` gives
  the inequality for all runs and the exact condition for equality, and
  `CacheHolds.LeakNeedsGap` shows there is no other way to lose a hold. A client
  that ends a session only after QUERY has answered for it is safe:
  `CacheHolds.ExactAfterAnswers`.
* RETRIEVE sends chunks straight out of the pool, and the comment above it says
  that the read locks are still held while it does. Nothing makes END_SESSION wait
  for that: `CacheWitness.WrongBytesHappen` is a run in which the session ends, the
  chunk is evicted and the reply carries another chunk's bytes.
  `CacheReads.RetrieveReturnsStored` proves the reply right, chunk by chunk, when no
  release of the session takes the chunk before it is sent.
  `CacheOvertake.UnlockedCanGoWrong` shows that, from any reachable state, a chunk
  still to be sent that nobody holds any more can go wrong. The connector's own FREE
  and the RETRIEVEs of all ranks never do that to each other:
  `Advertised.RanksLoadTheirChunks`.
* `promote` runs after the reply. When the session was ended meanwhile and another
  lookup is reloading the chunk, it makes an entry resident that is still being
  written: `CacheLatePromote.LatePromoteHappens` is a run. What the worker writes is
  temporary if and only if no RETRIEVE naming the key was promoted since the worker
  reserved it (`CacheFlags.WorkerWritesTemporaryIff`); otherwise the chunk, once
  published, stays until it is evicted (`CacheFlags.LatePromoteStays`).
* A STORE whose message has no blob for a key, or one of the wrong size, is not
  undone. `CacheFates.StoreFate` decides its end from the message and what it took,
  both ways, `CacheFates.BadBlobLocksForEver` is the damage, and
  `CacheFates.StrandingHappens` a run.
* `reserve_write` given the same missing key twice takes two slices and loses one.
  `Duplicates.ReserveWriteSafeIff` is the exact condition. `Server.OpKeysDistinct`
  discharges it for STORE's keys, the only longer list the server reserves, and
  `Server.LookupKeysDistinct` does the same for the keys a lookup holds.
* A chunk hash does not identify its prefix outright, since no function into 32
  bytes can; `Hasher.ExtractFindsCollision` turns any wrong match into a collision
  of the hash function itself.
* File names of the filesystem adapter identify keys only up to `/` in the model
  name: `SecondTier.FileNameCollides`.

## Model

| member | source | states |
|---|---|---|
| Memory.AllocateBound | mini_llmcache/l1/memory.py:40-57 | a request succeeds exactly when it fits the freed slices of that size plus the whole ones left in the tail; a refused request leaves used bytes and that capacity as they were |
| Memory.AllocateReuses | mini_llmcache/l1/memory.py:46-51 | freed slices of the size asked for are reused before any byte is carved, and those of other sizes are left alone |
| Memory.AllocateKeepsPool | mini_llmcache/l1/memory.py:46-57 | both outcomes keep live and free slices an exact tiling of the carved part; granted slices are distinct, of the asked size and disjoint from all live ones |
| Memory.ReleaseKeepsPool | mini_llmcache/l1/memory.py:59-62 | returning a live slice keeps the tiling and the byte count |
| Memory.NoLeak | mini_llmcache/l1/memory.py:40-62 | the carved bytes are the used ones plus those on the free lists |
| Memory.PoolAllocator.constructor | mini_llmcache/l1/memory.py:33-38 | an empty pool satisfies the tiling |
| Memory.PoolAllocator.Allocate | mini_llmcache/l1/memory.py:40-57 | the two collecting loops and the give-back on failure compute the specified outcome and pool |
| Memory.ReleaseAllKeepsPool | mini_llmcache/l1/memory.py:59-62 | freeing distinct live slices keeps the tiling and leaves exactly the other ones counted |
| Memory.PoolAllocator.Free | mini_llmcache/l1/memory.py:59-62 | the loop gives each slice back to the list of its size, one after the other |
| Eviction.VictimsExact | mini_llmcache/l1/eviction.py:36-46 | victims are exactly the oldest min(target, eligible) eligible keys: whenever one is chosen every older eligible one is |
| Eviction.TargetIs | mini_llmcache/l1/eviction.py:39 | the target is the largest whole number not above the ratio's share of the ranked chunks, and at least one |
| Eviction.TouchRanks | mini_llmcache/l1/eviction.py:23-29 | touching keeps the order free of repeats and ranks exactly the old and the touched keys |
| Eviction.TouchFreshens | mini_llmcache/l1/eviction.py:23-29 | touching puts the batch behind all other keys, its first key last, and leaves the order of the others as it was |
| Eviction.TouchKeepsDeepFirst | mini_llmcache/l1/eviction.py:23-29 | touching a slice of a prefix chain keeps deeper chunks older if and only if no resident chunk of the chain lies in front of the slice, so batches that are prefixes always do |
| Eviction.FreshenedKeepsDeepFirst | mini_llmcache/l1/eviction.py:23-29 | whatever made a slice of a prefix chain the most recent, deeper chunks stay older if and only if not both a chunk of the slice and one in front of it are resident |
| Eviction.EvictionIsSuffixFirst | mini_llmcache/l1/eviction.py:31-46 | with deeper chunks older and evictable whenever shallower ones are, removing the victims leaves the resident chunks of a chain prefix-closed |
| Eviction.LRUPolicy.OnCreated | mini_llmcache/l1/eviction.py:23-27 | the reversed loop yields the touched order |
| Eviction.LRUPolicy.OnRemoved | mini_llmcache/l1/eviction.py:31-34 | exactly the given keys leave the order |
| Eviction.LRUPolicy.GetVictims | mini_llmcache/l1/eviction.py:36-46 | the scan returns the specified victims |
| EvictionRound.EvictOnce | mini_llmcache/l1/eviction.py:58-65 | one round of the evictor on the manager object: nothing happens with less than four fifths of the bytes in use, otherwise the coldest chunks go as RoundEvictsColdest says |
| EvictionRound.RoundEvictsColdest | mini_llmcache/l1/eviction.py:58-65 | with less than four fifths of the bytes in use a round changes nothing; otherwise it removes exactly the oldest min(max(1, n / 5), unused ones) unused chunks, n being the number of ranked ones, and no other entry, keeping the manager's invariant |
| LockProtocol.ReserveWriteEffect | mini_llmcache/l1/manager.py:63-83 | all missing keys get fresh, write-locked slices of their own, or none does, according to the pool's capacity; present keys are left alone |
| LockProtocol.FinishWriteKeepsInv | mini_llmcache/l1/manager.py:85-91 | publishing makes exactly the listed chunks readable in addition and keeps slices, locks and ranking consistent |
| LockProtocol.FinishWriteAndHoldKeepsInv | mini_llmcache/l1/manager.py:93-100 | loaded chunks become readable together with exactly one hold each, so a readable temporary entry is never without one |
| LockProtocol.PublishFreshens | mini_llmcache/l1/manager.py:85-100 | both ways of publishing put the batch behind every other resident key, its first key last, the others keeping their relative order |
| LockProtocol.ReserveReadEffect | mini_llmcache/l1/manager.py:102-113 | exactly the readable ones among the keys get one hold each and are answered with their slice, the others with none |
| LockProtocol.ReserveReadPrefixEffect | mini_llmcache/l1/manager.py:115-129 | exactly the longest readable prefix gets one hold each |
| LockProtocol.PromoteKeepsInv | mini_llmcache/l1/manager.py:158-170 | exactly the listed entries lose their temporary flag, nothing else about any entry changes, and slices, locks and ranking stay consistent |
| LockProtocol.FinishReadEffect | mini_llmcache/l1/manager.py:140-156 | over held keys no lookup misses, each key loses one hold, and exactly the temporary entries whose last hold this was are freed |
| LockProtocol.FinishReadFreshens | mini_llmcache/l1/manager.py:140-156 | a read makes what it leaves in the pool the most recent, its first key last and the others as they were, and takes what it frees out of the order |
| LockProtocol.SectionsKeepDeepFirst | mini_llmcache/l1/manager.py:85-156 | over publishing, publishing with holds and finishing a read of a slice of a prefix chain, deeper chunks stay older if and only if the slice and what lies in front of it are not both resident |
| LockProtocol.PromoteMakesResident | mini_llmcache/l1/manager.py:158-170 | keys promoted before their last holds are dropped all stay, readable and no longer temporary, and every other entry is as it was |
| LockProtocol.DeleteEffect | mini_llmcache/l1/manager.py:176-192 | exactly the listed entries nobody uses (all listed ones when forced) go, and the others are untouched |
| LockProtocol.DeleteKeepsOrder | mini_llmcache/l1/manager.py:176-192 | deleting leaves the relative order of all that stays as it was |
| Duplicates.ReserveWriteSafeIff | mini_llmcache/l1/manager.py:72-83 | a reservation keeps entries and live slices in step if and only if its missing keys are distinct or the pool refuses it |
| Duplicates.DuplicateLeaks | mini_llmcache/l1/manager.py:74-82 | a granted reservation with a repeated missing key leaves the pool counting bytes that no entry owns |
| Manager.StoreController.OnWriteFinished | mini_llmcache/l1/store_controller.py:20-21 | the batch joins the end of the queue |
| Manager.L1Manager.constructor | mini_llmcache/storage_manager.py:13-18 | an empty manager satisfies the invariant, with a write-back queue exactly when there are adapters |
| Manager.L1Manager.ReserveWrite | mini_llmcache/l1/manager.py:63-83 | the loop over missing keys realises the reservation section |
| Manager.L1Manager.FinishWrite | mini_llmcache/l1/manager.py:85-91 | realises the section, and queues the batch for write-back when a store controller listens |
| Manager.L1Manager.FinishWriteAndReserveRead | mini_llmcache/l1/manager.py:93-100 | realises the section |
| Manager.L1Manager.ReserveRead | mini_llmcache/l1/manager.py:102-113 | realises the section and its result |
| Manager.L1Manager.ReserveReadPrefix | mini_llmcache/l1/manager.py:115-129 | both loops realise the section and return the prefix length |
| Manager.L1Manager.Read | mini_llmcache/l1/manager.py:131-138 | the slices of the keys, in order |
| Manager.L1Manager.FinishRead | mini_llmcache/l1/manager.py:140-156 | the loop with its frees and the two notifications realise the section |
| Manager.L1Manager.Promote | mini_llmcache/l1/manager.py:158-170 | realises the section |
| Manager.L1Manager.Delete | mini_llmcache/l1/manager.py:176-192 | realises the section and counts what went |
| Sessions.PrefetchController.TakeReleased | mini_llmcache/l1/prefetch_controller.py:127-135 | the loop removes from the session exactly the asked keys it holds and returns them in order |
| Sessions.TakesAll | mini_llmcache/l1/prefetch_controller.py:127-135 | a release without a key list leaves its session nothing |
| SecondTier.LoadFills | mini_llmcache/l2/mock.py:26-34 | the slots of the longest stored prefix hold exactly its records, later slots and all other bytes are as before |
| SecondTier.MockAdapter.Store | mini_llmcache/l2/mock.py:14-16 | each key gets the bytes of its slice, of a repeated key those of the last one, and every other record stays |
| SecondTier.MockAdapter.Lookup | mini_llmcache/l2/mock.py:18-24 | the length of the stored prefix |
| SecondTier.MockAdapter.Load | mini_llmcache/l2/mock.py:26-34 | the copying loop yields the specified pool bytes and count |
| SecondTier.FileNameCollides | mini_llmcache/l2/fs.py:17-18 | two keys share a file name if and only if rank and hash agree and the models agree once slashes are dashes |
| SecondTier.StoreFirstKeeps | mini_llmcache/l2/fs.py:28-35 | a file once written is never overwritten by a later store |
| CacheStore.StoreReserveKeeps | mini_llmcache/server.py:148-158 | the reservation of a STORE keeps the machine's invariant: what it took is write-locked for this handler alone |
| CacheStore.StoreCopyKeeps | mini_llmcache/server.py:159-160 | copying a blob, half done or complete, keeps the invariant: it disturbs only the handler's own locked slice |
| CacheStore.StoreRaiseKeeps | mini_llmcache/server.py:159-160 | a STORE stopped by a blob of the wrong size keeps the invariant, its locks staying claimed |
| CacheStore.StoreFinishKeeps | mini_llmcache/server.py:161 | publishing keeps the invariant: the chunks hold supplied bytes and are due for every adapter |
| CachePrefetch.StartLookupKeeps | mini_llmcache/l1/prefetch_controller.py:114-120 | starting a session keeps the invariant |
| CachePrefetch.JobPrefixKeeps | mini_llmcache/l1/prefetch_controller.py:41-42 | holding the L1 prefix keeps the invariant |
| CachePrefetch.JobReserveKeeps | mini_llmcache/l1/prefetch_controller.py:67-78 | each temporary slot, or the refusal that ends the loop, keeps the invariant |
| CachePrefetch.JobLoadKeeps | mini_llmcache/l1/prefetch_controller.py:80-93 | each record copied from an adapter, half done or complete, keeps the invariant; that copies are made, and how many, is CacheLoads.LoadFillsAll |
| CachePrefetch.JobPublishKeeps | mini_llmcache/l1/prefetch_controller.py:55 | publishing what was loaded keeps the invariant |
| CachePrefetch.JobTrimKeeps | mini_llmcache/l1/prefetch_controller.py:56 | giving back the slots that stayed empty keeps the invariant |
| CachePrefetch.JobResolveKeeps | mini_llmcache/l1/prefetch_controller.py:106-111 | handing the worker's holds to the session keeps the invariant, whether the session still exists or not |
| CachePrefetch.JobReturnKeeps | mini_llmcache/l1/prefetch_controller.py:112 | dropping the holds of a vanished session keeps the invariant |
| CacheKeeper.MirrorReserveKeeps | mini_llmcache/l1/store_controller.py:25-30 | write-back's holds keep the invariant, keys already evicted being skipped |
| CacheKeeper.MirrorCopyKeeps | mini_llmcache/l1/store_controller.py:31-32 | each chunk copied into an adapter keeps the invariant |
| CacheKeeper.MirrorFinishKeeps | mini_llmcache/l1/store_controller.py:33 | ending a batch keeps the invariant: nothing that was due is forgotten |
| CacheKeeper.EvictDeleteKeeps | mini_llmcache/l1/eviction.py:65 | however stale the chosen victims, deleting the unused ones among them keeps the invariant |
| CacheCalls.RetrieveKeeps | mini_llmcache/server.py:172-184 | looking up the slices of a RETRIEVE keeps the invariant, whether or not its session holds the keys |
| CacheCalls.RetrieveCopyKeeps | mini_llmcache/server.py:188-194 | sending a chunk straight out of the pool keeps the invariant, whoever owns the slice by then |
| CacheCalls.RetrievePromoteKeeps | mini_llmcache/server.py:190-193 | promoting after the reply keeps the invariant, even when the session is gone and an entry is under construction again |
| CacheCalls.TakeKeeps | mini_llmcache/l1/prefetch_controller.py:129-135 | release's first section keeps the invariant at any moment, a RETRIEVE in progress or not: each key leaves its session once and is claimed by the handler instead |
| CacheCalls.ReleaseFinishKeeps | mini_llmcache/l1/prefetch_controller.py:136 | release's second section keeps the invariant: it drops exactly the holds taken out |
| CacheCalls.EndSecondKeeps | mini_llmcache/l1/prefetch_controller.py:147-149 | forgetting a session keeps the invariant, holds that appeared meanwhile being recorded as lost; that the session is then gone is CacheEnds.EndedForGood |
| CacheSafety.StepKeeps | mini_llmcache/l1/manager.py:63-192 | every step of every actor keeps the invariant and disturbs the bytes of at most one chunk, which its actor has write-locked |
| CacheSafety.RunKeepsInv | mini_llmcache/storage_manager.py:13-18 | the invariant holds in every reachable state |
| CacheSafety.NoOutOfThinAir | mini_llmcache/server.py:148-202 | in every reachable state a readable entry and every adapter record under key k hold bytes that an earlier STORE sent under k, or an adapter had from the start |
| CacheReads.RetrieveReturnsStored | mini_llmcache/server.py:172-202 | whatever runs around a RETRIEVE, each chunk whose key its session holds at the start and no release of the session takes before it is sent is the blob stored under that key, the one its entry shows from the start on; while none is taken the chunks are one snapshot |
| CacheReplies.RetrieveRunsItsCourse | mini_llmcache/server.py:172-193 | whatever the server does meanwhile, a RETRIEVE is still sending, or has sent one blob per key before its promote and then taken out of its session exactly what that still held of its keys, and dropped one hold on each |
| CacheReplies.FreeRunsItsCourse | mini_llmcache/l1/prefetch_controller.py:127-142 | a FREE of n keys releases the first n its session holds, or all if it holds fewer: it takes what is still held of them by then and drops one hold on each |
| CacheReplies.EndRunsItsCourse | mini_llmcache/l1/prefetch_controller.py:127-149 | an END_SESSION takes all its session holds, drops one hold on each of these keys and then forgets the session, in that order |
| CacheLoads.LoadFillsAll | mini_llmcache/l1/prefetch_controller.py:67-93 | the worker leaves the load only with every slot it reserved filled; there are as many as the best adapter's answer, or as many as there were before a refused one |
| CacheLoads.LookupFinds | mini_llmcache/l1/prefetch_controller.py:37-112 | the published (l1, l2): l1 keys were readable in front when the worker held the prefix, l2 is the best answer of the adapters for the rest, each asked after that; l2 is less only if the slot for the next key was refused, the key being taken or the pool full |
| CacheLoads.QuietLookupFindsBest | mini_llmcache/l1/prefetch_controller.py:37-112 | with the L1 and the adapters otherwise left alone, the keys to load not in the L1 and room for them, l1 + l2 is the readable prefix plus the longest prefix of the rest that some adapter has |
| CacheLoadWitness.LoadHappens | mini_llmcache/l1/prefetch_controller.py:37-112 | there is a run that answers (0, 1) for a chunk evicted from the L1 and loaded back from an adapter, bytes and hold included |
| CacheQueues.LookupsInOrder | mini_llmcache/l1/prefetch_controller.py:33-35 | the lookups started are those the worker has begun with, in that order, and then those still queued |
| CacheQueues.BatchesInOrder | mini_llmcache/l1/store_controller.py:20-25 | with an adapter, the batches STOREs wrote are those write-back has begun with, in that order, and then those still pending |
| CacheOvertake.UnlockedCanGoWrong | mini_llmcache/mq.py:161-166 | from every reachable state in which a chunk still to be sent is in its slice but held by nobody, with the evictor between two rounds, some continuation sends for it the bytes of another key |
| CacheSafety.ReadableIsStable | mini_llmcache/l1/manager.py:6-8 | an entry readable throughout a stretch of a run keeps its slice and its bytes, whoever writes what |
| CacheSafety.PoolNeverLeaks | mini_llmcache/l1/memory.py:40-62 | in every reachable state live and free slices tile the carved bytes, entries own exactly the live ones, none overlap and no byte is lost |
| CacheSafety.WriteLockIsExclusive | mini_llmcache/l1/manager.py:6-8 | a write-locked entry has no reader and exactly one writer: the prefetch worker, or a STORE if the entry is not temporary |
| CacheSafety.TemporariesAreHeld | mini_llmcache/l1/manager.py:10-12 | a readable temporary entry is held, hence never evictable; the recency order lists exactly the readable entries |
| CacheFlags.TemporaryIff | mini_llmcache/l1/manager.py:10-12 | in every reachable state an entry is temporary if and only if the prefetch worker reserved it and no RETRIEVE that named its key was promoted since |
| CacheFlags.WorkerWritesTemporaryIff | mini_llmcache/l1/manager.py:158-170 | what the worker is writing is write-locked, and temporary if and only if no such promote came since the worker reserved it |
| CacheFlags.ResidentUntilEvicted | mini_llmcache/l1/manager.py:140-170 | a readable entry that is not temporary stays so, whoever drops holds on it, until the evictor takes it unused |
| CacheFlags.LatePromoteStays | mini_llmcache/l1/manager.py:93-170 | a loaded chunk is published with one hold and its flag; one promoted while it was loaded outlives that hold and goes only by eviction |
| CacheSafety.LastCopySurvives | mini_llmcache/l1/store_controller.py:20-33 | every readable entry is in all adapters or due there if a STORE made it, and in some adapter otherwise; with nothing waiting for write-back, in some adapter at least |
| CacheSafety.RecordsStay | mini_llmcache/l2/mock.py:14-16 | no run removes a key from an adapter |
| CacheHolds.HoldAccounting | mini_llmcache/l1/prefetch_controller.py:95-149 | read_count is the number of live holders plus that of lost ones: at least the live holders, and equal to them exactly when no lost one claims the key |
| CacheHolds.HeldIsPinned | mini_llmcache/l1/manager.py:8-9 | what any session or actor holds is present, readable, counted and not evictable |
| CacheHolds.LostIffLeaked | mini_llmcache/l1/prefetch_controller.py:144-149 | a lost hold exists if and only if some END_SESSION found keys still held in its second section |
| CacheHolds.ExactWithoutLeak | mini_llmcache/l1/prefetch_controller.py:144-149 | in runs without such an END_SESSION read_count is exactly the number of live holders |
| CacheHolds.LeakNeedsGap | mini_llmcache/l1/prefetch_controller.py:106-111 | that happens only when the session's lookup resolves between the two sections of that same END_SESSION |
| CacheHolds.AnsweredEndsClean | mini_llmcache/l1/prefetch_controller.py:122-149 | an END_SESSION begun once QUERY can answer leaves its session without holds for the rest of the run |
| CacheHolds.ExactAfterAnswers | mini_llmcache/l1/prefetch_controller.py:122-149 | when every END_SESSION comes after the answer, no hold is ever lost and read_count is exactly the number of live holders |
| CacheEnds.EndedForGood | mini_llmcache/l1/prefetch_controller.py:144-149 | from an END_SESSION's second section on QUERY has nothing for the session and the session holds nothing, whether or not its lookup is still on its way |
| CacheEnds.OpenUntilEnded | mini_llmcache/l1/prefetch_controller.py:114-149 | a session that was started is known to QUERY if and only if no END_SESSION of it has come to its second section |
| CacheEnds.EndedLookupIsReturned | mini_llmcache/l1/prefetch_controller.py:106-112 | a lookup that resolves after that publishes nothing: the worker keeps all its hits, its next own step drops one hold on each, and then neither it nor the session has any |
| CacheHolds.LostPinsForEver | mini_llmcache/l1/prefetch_controller.py:147-149 | a lost hold keeps its chunks in the pool for the rest of the run |
| CacheHolds.DeadLocksForEver | mini_llmcache/server.py:154-161 | the keys a dead STORE handler keeps stay write-locked for the rest of the run |
| CacheFates.StoreFate | mini_llmcache/server.py:148-161 | once a STORE's handler is through it is dead if and only if it took a key the message had no blob for or one of the wrong size, with exactly the keys said; otherwise it is gone and every key it took is readable with the blob sent for it |
| CacheFates.BadBlobLocksForEver | mini_llmcache/server.py:148-161 | a key taken without a good blob is write-locked in every later state of the run |
| CacheFates.StrandingHappens | mini_llmcache/server.py:148-161 | there is a run in which a STORE of one missing key and no blob finishes and leaves the key locked |
| CacheWitness.LeakHappens | mini_llmcache/l1/prefetch_controller.py:144-149 | there is a run, of a lookup as the server issues it, after which an entry counts one reader and nobody holds it |
| CacheWitness.WrongBytesHappen | mini_llmcache/mq.py:161-166 | there is a run in which an END_SESSION overtakes a RETRIEVE and the reply carries bytes no STORE ever sent under the key asked for |
| CacheLatePromote.LatePromoteHappens | mini_llmcache/server.py:188-193 | there is a run in which the promote of a RETRIEVE whose session has ended makes resident what the worker is writing |
| CacheLive.NoLookupMisses | mini_llmcache/l1/manager.py:88-148 | in every reachable state each pending finish_read and finish_write finds its keys, held and locked as it expects |
| CacheLive.StoreHasStep | mini_llmcache/server.py:154-161 | a STORE in progress can always copy, raise or finish |
| CacheLive.CallHasStep | mini_llmcache/mq.py:161-166 | a RETRIEVE, a release and an END_SESSION in progress can go on from wherever they are |
| CacheLive.RequestsCanStart | mini_llmcache/server.py:117-161 | in every state a STORE of distinct keys of one size, the first LOOKUP of a session, a FREE and an END_SESSION can begin |
| CacheLive.MirrorHasStep | mini_llmcache/l1/store_controller.py:23-33 | write-back with work queued or in hand can always go on |
| CacheLive.EvictorHasStep | mini_llmcache/l1/eviction.py:58-65 | the evictor can always pick its victims and then delete them |
| CacheLive.WorkerHasStep | mini_llmcache/l1/prefetch_controller.py:33-58 | the prefetch worker is never stuck on a lookup, adapters included; where its steps lead is CacheLoads.LookupFinds |
| CacheLive.OrderIsBestFirst | mini_llmcache/l1/prefetch_controller.py:87 | the stable order of adapters by falling hit count exists for all answers |
| CacheSessions.ResolveHoldsPrefix | mini_llmcache/l1/prefetch_controller.py:106-111 | a published session holds exactly the first l1 + l2 keys it asked for, in order |
| CacheSessions.AdvertisedIsHeld | mini_llmcache/l1/prefetch_controller.py:106-142 | each of those keys stays held and readable until a release of that session takes it |
| CacheSessions.WellSentNeverStrands | mini_llmcache/server.py:154-161 | when every STORE carries one blob of the chunk size per key, none raises and every write lock belongs to a STORE that can finish or to the worker |
| Hasher.ChunkHashes | mini_llmcache/utils/hasher.py:27-38 | the loop computes the chain hash of every whole chunk and ignores a partial tail |
| Hasher.PrefixDecides | mini_llmcache/utils/hasher.py:16-38 | equal prefixes have equal chain inputs whatever follows them |
| Hasher.CutHashes | mini_llmcache/utils/hasher.py:27-38 | hashing a cut list gives the first hashes of the whole list |
| Hasher.PackInjective | mini_llmcache/utils/hasher.py:19 | different token lists are packed into different bytes |
| Hasher.InputIs | mini_llmcache/utils/hasher.py:16-38 | what is hashed for a chunk is the 32 bytes of the hash in front of it, of the seed for the first, and then its own tokens, four bytes each, most significant first |
| Hasher.ExtractFindsCollision | mini_llmcache/utils/hasher.py:16-38 | for any hash function, equal chain hashes mean the same position and the same tokens, or the extracted pair of inputs is a collision |
| Hasher.SeedIsShort | mini_llmcache/utils/hasher.py:24 | the seed input has 12 bytes and every chunk input at least 36, which ends the search |
| Hasher.HashesDistinct | mini_llmcache/utils/hasher.py:27-38 | the hashes of one list are pairwise different, or a collision is returned |
| Server.KeyAt | mini_llmcache/server.py:105-108 | chunk c of the r-th rank is at index c * world size + r |
| Server.OpKeysAreSlice | mini_llmcache/server.py:110-115 | a rank's op over a chunk-aligned range covers exactly that rank's looked-up keys of those chunks, in order |
| Server.AnswerFits | mini_llmcache/server.py:131-136 | QUERY never answers more tokens than were looked up |
| Server.AnswerIsLargest | mini_llmcache/server.py:131-136 | over distinct keys, all ranks have all their keys of the first e tokens among the hits if and only if e does not exceed the answer |
| Server.OpWithinHits | mini_llmcache/server.py:110-136 | every rank's op ending at the answered boundary stays within the hits |
| Server.LookupKeysDistinct | mini_llmcache/server.py:117-128 | the keys of one lookup are distinct, or a collision of the hash is returned |
| Server.OpKeysDistinct | mini_llmcache/server.py:110-115 | the keys of one STORE or RETRIEVE, whatever its range, are distinct, or a collision of the hash is returned |
| Partition.ActReleasesItsPart | mini_llmcache/l1/prefetch_controller.py:127-142 | whatever was released before, FREE and each rank's RETRIEVE release their own part of the held keys in full |
| Partition.LocksPartition | mini_llmcache/server.py:138-193 | in any order, with FREE's two sections apart, each act drops exactly its part; once all messages that are sent are handled (no FREE without chunks to free, no RETRIEVE without chunks to load) exactly the keys after the last whole chunk are held |
| Partition.PartsApart | mini_llmcache/server.py:138-193 | the parts and the leftover are pairwise disjoint |
| RankReads.TakerIsOwnRank | mini_llmcache/server.py:138-193 | in any run that has a request's one FREE and one RETRIEVE per rank in it, whoever takes a key of a rank's part is that rank's own RETRIEVE, after its reply |
| RankReads.RankCanRetrieve | mini_llmcache/server.py:172-184 | however late a rank sends its RETRIEVE, all its keys are held and readable and the call can start |
| RankReads.RankRetrievesStored | mini_llmcache/server.py:172-202 | so every chunk a rank's RETRIEVE has sent is the blob stored under its key, and all of them are one snapshot |
| Advertised.AdvertisedIsRetrievable | mini_llmcache/server.py:110-136 | in every reachable state, each key of every rank's op ending at the answered boundary is held and readable unless a release of the session took it |
| Advertised.AnswerWithinLookup | mini_llmcache/server.py:131-136 | in every reachable state QUERY's answer for a session does not exceed the tokens it looked up |
| Advertised.RetrieveCanStart | mini_llmcache/server.py:172-184 | with nothing of it released, the RETRIEVE of every rank can start |
| Advertised.RetrieveTakesItsPart | mini_llmcache/integration/vllm_connector.py:200-210 | after a FREE of f chunks, a rank's RETRIEVE from there to the answer is exactly its part of the partition |
| Advertised.RanksLoadTheirChunks | mini_llmcache/server.py:110-202 | from a lookup's resolve on, with the op of the request's own tracker: each rank's RETRIEVE asks for one key per chunk of the load, the looked-up keys of those chunks and that rank in order, and returns the blobs stored under them, whatever else the server does, until the session is ended |
| Connector.RequestTracker.GenerateRetrieveOp | mini_llmcache/integration/vllm_connector.py:106-119 | with something to load the op fits the gap (the tokens up to the cached hits, whole chunks of the own table, the skip leading to the first token not computed locally), and there is no second one |
| Connector.RequestTracker.GenerateStoreOp | mini_llmcache/integration/vllm_connector.py:121-139 | from an aligned waterline the op covers computed whole chunks with their own blocks, starts at the waterline and moves it to its own end; floor division after a preemption |
| Connector.RequestTracker.UpdateStateAfterAlloc | mini_llmcache/integration/vllm_connector.py:187-210 | a table extending the tracker's is adopted whole; locks are freed at the first allocation only, and never beyond the cached hits |
| Connector.StoresTile | mini_llmcache/integration/vllm_connector.py:121-139 | over any scheduler run after the lookup resolves the STORE ranges are chunk-aligned, consecutive and cover exactly the waterline's way; each op stays within computed tokens and carries its own blocks |
| Connector.StoreSendsOneBlobPerKey | mini_llmcache/integration/vllm_connector.py:300-315 | a STORE's blocks fill whole chunks, as many as the server derives keys from the op |
| Connector.OneLoadOneFree | mini_llmcache/integration/vllm_connector.py:106-210 | a request sends at most one RETRIEVE and at most one FREE in its life |
| Connector.FreeMeetsLoad | mini_llmcache/integration/vllm_connector.py:198-210 | the chunks unlocked are exactly those in front of the loaded range, or all advertised ones when nothing is loaded |
| Connector.LoadNeedsFreeIff | mini_llmcache/integration/vllm_connector.py:187-210 | a request that loads sends a FREE if and only if its lookup was answered at its first allocation and the loaded range does not start at 0 |
| Connector.RetrieveOpFits | mini_llmcache/integration/vllm_connector.py:106-119 | the op of a load names the tokens up to the cached hits, covers whole chunks of the request's own block table, and its skip ends inside the first chunk, at the first token not computed locally |
| RequestLife.AskTells | mini_llmcache/integration/vllm_connector.py:143-185 | the scheduler is told to wait until the first final reply, by that reply exactly the cached tokens it has not computed, asynchronously if there are any, and zero ever after |
| RequestLife.LoadSentIff | mini_llmcache/integration/vllm_connector.py:106-119 | a RETRIEVE is sent exactly by the first build after an allocation that follows the answer with no other ask between, when the cache has more than is computed; it covers what the scheduler was told |
| RequestLife.FreeSentIff | mini_llmcache/integration/vllm_connector.py:187-210 | a FREE is sent exactly by the first allocation, if it comes after the answer and leaves whole chunks unneeded, and of those chunks: the ones in front of the load it grants, all cached ones if it grants none |
| RequestLife.TrackerKnows | mini_llmcache/integration/vllm_connector.py:212-245 | with a scheduler that tells the truth the tracker always has its tokens, its block table and its count of computed tokens, through growth and preemption |
| RequestLife.StoresFollowHits | mini_llmcache/integration/vllm_connector.py:121-139 | after an answer of whole chunks the STORE ranges tile what lies between the answered hits and the waterline: nothing cached is stored again, nothing in between is left out |
| RequestLife.StoresAll | mini_llmcache/integration/vllm_connector.py:121-139 | every scheduled step leaves no whole chunk unstored that is computed, in tokens and in blocks |
| Transfer.GatherLayout | mini_llmcache/l0/transfer.py:78-106 | a gathered chunk has the registered size and holds block j of layer l where the layout says |
| Transfer.ScatterAllEffect | mini_llmcache/l0/transfer.py:148-193 | scattering chunks of any bytes to distinct blocks puts each listed block from the skip on to its piece of its chunk and leaves every other block alone |
| Transfer.RoundTrip | mini_llmcache/l0/transfer.py:109-193 | chunks read from blocks a and scattered to distinct blocks b make each b[x] equal the old a[x] from the skip on and leave every other block alone |
| KVTransfer.IndexSelect | mini_llmcache/l0/transfer.py:131-134 | one layer's blocks land in their part of the buffer, the rest of it untouched |
| KVTransfer.GatherChunk | mini_llmcache/l0/transfer.py:124-134 | the staging buffer ends up holding the gathered chunk |
| KVTransfer.ToHost | mini_llmcache/l0/transfer.py:109-145 | the loop returns the chunk of every group of blocks, in order |
| KVTransfer.IndexCopy | mini_llmcache/l0/transfer.py:182-185 | the listed blocks of one layer take the chunk's bytes, nothing else changes |
| KVTransfer.ScatterChunk | mini_llmcache/l0/transfer.py:182-185 | all layers take the chunk |
| KVTransfer.FromHost | mini_llmcache/l0/transfer.py:148-187 | the loop leaves the tensors as the chunk-by-chunk scatter, block lists longer than the chunks included |
| Pipeline.PipelineRefinesLoop | mini_llmcache/l0/transfer.py:121-192 | under every interleaving of host, copy stream and kernel stream the call ends with the chunks, or the tensors, of the plain loop |
| Pipeline.NoSlotOverwritten | mini_llmcache/l0/transfer.py:137-181 | no staging slot or host buffer is overwritten while a stream or the host is still reading it |
| Pipeline.NeverStuck | mini_llmcache/l0/transfer.py:121-192 | until the call returns, the host or a stream can act |
| Pipeline.EveryActionCounts | mini_llmcache/l0/transfer.py:121-192 | every whole action leaves less to do, so every schedule ends |
| Pipeline.PipelinedRoundTrip | mini_llmcache/l0/transfer.py:109-193 | a pipelined save followed by a pipelined load restores every block from the skip on and changes nothing else |
| Loading.LoadTouchesOnlyTheGap | mini_llmcache/integration/vllm_connector.py:330-343 | scattering the chunks of a RETRIEVE op changes, in every layer, exactly the blocks of tokens [local hits, cached hits), each getting its own block of its own chunk, whatever the bytes |
| Loading.LoadNamesItsChunks | mini_llmcache/server.py:110-115 | the keys the server derives from the fields of a RETRIEVE op are one per chunk of the load and the rank's looked-up keys of those chunks, in order |
| Loading.PipelinedLoadTouchesOnlyTheGap | mini_llmcache/l0/transfer.py:148-193 | so does the pipelined transfer under every interleaving of host and streams |
| Loading.LoadRestoresPrefix | mini_llmcache/l0/transfer.py:109-193 | when the chunks were read out of another request's blocks, each loaded block equals that request's block at the same place in the prefix |
| MessageQueue.NoLostWakeup | mini_llmcache/mq.py:53-86 | with frames queued and the I/O thread in poll, a wake byte is in the pipe or a sender is still to write it |
| MessageQueue.CloseIsNoticed | mini_llmcache/mq.py:69-78 | after close the thread does not sit in poll on an empty pipe |
| MessageQueue.IoNeverStuck | mini_llmcache/mq.py:77-89 | outside poll the thread can always go on and leaves the drain loop only past an empty queue |
| MessageQueue.FramesLeaveInOrder | mini_llmcache/mq.py:53-86 | queued frames leave in the order they were put, each once, and what is sent directly leaves in its own order |
| MessageQueue.SocketIsServed | mini_llmcache/mq.py:53-86 | once poll has reported the socket, the thread is on its way to take the message and does not poll again before it has |
| MessageQueue.RepliesReachTheirFutures | mini_llmcache/mq.py:106-132 | whatever replies arrive, a future is completed exactly by the first reply with its number since its submission, with its value if that is marked ok and raising it otherwise, and never twice |
| MessageQueue.AnswersMatchRequests | mini_llmcache/mq.py:106-132 | if replies carry the answers to the requests of their numbers, each future gets the answer to its own request |

## Left out

- RetrieveKeeps: covers distinct keys, which Server.OpKeysDistinct gives; a RETRIEVE of a missing key raises, changes nothing and is no step.
- RetrieveCopyKeeps: a chunk is sent in one step; bytes changing in the middle of a send could be seen only where RetrieveReturnsStored promises nothing anyway.
- RanksLoadTheirChunks: speaks of the time before END_SESSION; an END_SESSION sent while a RETRIEVE is on its way is CacheWitness.WrongBytesHappen.
- ReserveWriteEffect: distinct keys; what repeated ones do is Duplicates.ReserveWriteSafeIff, and the server passes none (Server.OpKeysDistinct).
- ReserveReadEffect: distinct keys, as the batches of write-back are.
- ReserveReadPrefixEffect: distinct keys, as those of a lookup are (Server.LookupKeysDistinct).
- FinishReadEffect: distinct keys, as the held keys of a session and the batches of write-back are.
- FinishWriteKeepsInv: entries that are not temporary; the section is called by STORE alone, and a STORE never takes a temporary entry.
- TakeReleased: distinct keys, as those of an op (Server.OpKeysDistinct) and of a session's own list are.
- UnlockedCanGoWrong: the evictor is between two rounds; a round already under way may free other slices first.
- StoreReserveKeeps: covers distinct keys and one chunk size per model, as the key type carries neither size nor world size; a repeated key is covered exactly by Duplicates.ReserveWriteSafeIff.
- StartLookupKeeps: a request id starts one session; reusing it while its old lookup is outstanding is not modelled.
- EvictDeleteKeeps: the victims are arbitrary, since the policy reads entries without the manager's lock; the exact choice of an undisturbed round is EvictionRound.RoundEvictsColdest.
- EvictOnce: ratios are real numbers rather than binary floating point, and a pool of no bytes, on which the source divides by zero, is not served.
- Entries of the manager are values in a map field; that the source mutates shared `Entry` objects in place is not captured.
- The handlers of the server and the bodies of the worker threads appear as steps of the machine, not as methods; each critical section they enter is a method of `L1Manager` or `PrefetchController`.
- An adapter exception would end the prefetch or write-back thread; adapters are assumed to return, with records of the registered size.
- The filesystem adapter's file operations, crashes and short reads; only its key encoding and its keep-first rule are modelled, and the step machine uses the in-memory adapter.
- A RETRIEVE of no chunks, whose empty reply takes another path through the RPC layer.
- Engine registration beyond a fixed chunk size per model, start-up, argument parsing, log lines and throughput figures.
- BLAKE3 is an arbitrary function with 32-byte results; tokens outside 32 bits, which the packing rejects, are excluded by type.
- torch, device streams and events are replaced by byte sequences, queues and counters; data types and tensor layouts detected in kv_format are not part of this model.
- Host buffers receive blobs of exactly the chunk size; the assignment that would raise on another size is not modelled.
- vLLM's scheduler is an environment supplying block lists, computed counts and scheduled tokens; that local hits are whole blocks, and that it allocates distinct blocks for all tokens to be loaded, is the condition Connector.CanLoad.
- The other hooks of the tracker and of the prefetch controller are straight-line methods tied to the functions the lemmas speak of; they have no rows.
- Reporting of finished transfers to vLLM and the worker threads that wait for replies, which would only add easy members.
- ZeroMQ sockets, pickling and socket buffers; the RPC layer is a step model of the queue, the pipe and the request numbers, and a submission is one step because no reply can precede its request.
