# The deduplication engine, modelled and proved in Dafny

This project models the block store behind a FUSE file system that keeps every distinct
4096-byte block once. Files are maps from logical blocks to MasterInfo objects; a
MasterInfo names a slot of one master file and counts its holders; a second table finds
it by the hash of its content. Writes run in passes (decide HIT or MISS, allocate slots,
flush, consolidate or roll back) and drop their locks in between. Reads look slots up
under the read lock and fetch them without it. Unmounting writes the index to five
metadata files and mounting rebuilds it, shared objects included.

The engine is modelled twice over one vocabulary of actions.

* As a step relation (`Protocol.dfy`): any number of threads, each at its own place in a
  write, an unlink, a truncate or a rollback, with the reader-writer lock and the
  free-list mutex as guards. `Invariant.dfy` states who owns each slot and who holds each
  MasterInfo; `Preservation`, `Moves`, `Actions`, `Commits` and `Publication` show that
  every action keeps it; `Safety`, `Refinement`, `MasterLength` and `Sizes` say what that
  means for whole runs, `Locks`, `Twins` and `Atomicity` what the locks give, `Progress`
  that they never block all threads, `Stranding` what overlapping requests on one file do,
  and `LostRace`, `Overlap`, `StaleRead` and `Collisions` where the guarantees end. Runs start from any number of idle threads on
  any valid volume, an empty one or one that was mounted, and `Sessions` strings runs,
  unmounts and mounts together.
* As requests that run alone (`Requests.dfy`), proved from the step relation by running
  it with a single thread (`Solo`, `Writes`, `Aborts`, `Removals`), with their meaning in
  `Deduplication`, `FlushPlan`, `Quiescence`, `FileSystem`, `Storage` and `CounterLength`;
  and as the class
  `DedupEngine` (`Engine.dfy`), whose loops over arrays are proved to compute them.
  `Placement` says which slot each block gets and what a flush returns and leaves,
  `Recycling` in which order slots come back.

`PairSort` and `BatchedRead` hold the read path, `ByteStream`, `Codec`, `Tables`,
`SharedTables` and `Persistence` the metadata files, `Layout` their format byte by byte, `Mount` and `Remount` the round trip
through them. `MasterFile` and `Volumes` hold bytes, slots and the state. MasterInfo
objects live in an explicit heap with addresses that are never reused, so that a
reference to a freed object can be expressed and its absence proved.

The hash is an arbitrary function from blocks to 64 bytes. Theorems about contents either
assume that the blocks in use do not collide (`CollisionFree`) or say exactly what a
collision does (`Clashes`).

## Where the code does not do what one would expect

* **Lost publication race.** When Pass 3 finds its hash already indexed, it frees the
  pending MasterInfo and redirects the MISS entry only (src/dedup.c:604-614). A HIT of the
  same request may still hold the freed object. The code is kept as it is.
  `LostRace.PublishSafeIff` shows that a publication breaks the invariant exactly if it
  loses the race with a hash that its request repeats, and `LostRace.DanglingReached`
  gives a run. The theorems over whole runs are about runs without such a step
  (`SafeRun`): `Twins.SafeRunIff` says so in terms of the requests, and every run whose
  requests repeat no hash is one (`Twins.DistinctRunIsSafe`). A writer that runs alone
  cannot lose the race (`Writes.PublishPhase`).
* **Counter recomputed at mount.** The append counter is not saved; it is recomputed from
  the length of the master file (src/passthrough.c:113), but a failed write leaves its
  appended slots on the free list and not in the file. `Remount.RemountValidIff` gives the
  exact condition, `Remount.RemountAfterRun` shows that runs without a failed pwrite meet
  it, and `Remount.FailedWriteBreaksRemount` shows a slot handed out twice otherwise.
* **Colliding hashes.** `Deduplication.WriteIsFaithful` says exactly when a write stores
  what it was given, and `Collisions.SomeWriteIsUnfaithful` that for every hash function of
  64 bytes some request is not.
* **Slots read after they were recycled.** A read fetches slots without a lock.
  `Refinement.LockFreeRead` holds as long as no slot is handed out for a new block before
  it is read; `StaleRead.RecycledSlotIsRead` is a run in which one is.
* **Short metadata writes.** A flush of the stream buffer loses nothing even if it is
  short (`ByteStream.BufferedIO.Flush`), but buffered_write goes on as if the buffer were
  empty (src/persistence.c:82-85). `ByteStream.BufferedIO.Write` says exactly when that
  is harmless, for every device: each flush must take at least as many bytes as are copied
  next. `ByteStream.ShortFlushOverruns` and `ByteStream.OneFlushStaysIff` are inputs at
  which it is not.
* **Overlapping requests on one file.** Unlink and truncate act on a size they read under
  an earlier lock. `Stranding.RunAccountsIff` says exactly when that leaves a block above
  the recorded size of its file: if and only if a write maps a block above the size that
  the unlink or truncate will record, after the old size was read and before the new one
  is recorded, and nothing removes it in between. `Overlap.OverlapBreaksSizes` is such a
  run. Writes to one file may overlap each other freely (`Sizes.RunSizes`).

## Model

| member | source | states |
|---|---|---|
| `Safety.StepKeeps` | src/dedup.c:461-683 | every action of every pass, of rollback and of removal keeps the invariant on slots, objects, counts and contents, whatever the other threads are doing, unless it loses the race with an object that its request shares |
| `Safety.SlotPartition` | src/dedup.c:292-322 | in every state of every run from a good state each slot below the append counter is in exactly one place: the free list, a published object, one thread's taken slots, one thread's unpublished MISS, or one thread's list of slots to give back; no list repeats a slot, so none is handed out twice and concurrent append ranges are disjoint |
| `Safety.ReferenceCounts` | src/dedup.c:518-537 | in every state of every run from a good state a reference count is the number of file blocks mapped to the object plus the plan entries in flight that hold it; an object exists exactly while that is positive, it is indexed by hash exactly when it is no longer pending, and no table or plan leads to a freed one |
| `Refinement.SlotImmutable` | src/dedup.c:348-385 | no action changes the bytes of a slot that a published object owns |
| `Refinement.BlockImmutable` | src/dedup.c:570-584 | the same in terms of the indexed object |
| `Refinement.ContentStays` | src/dedup.c:93-112 | a slot keeps its bytes, mapped or not, over any stretch of any run in which it is not handed out for a new block |
| `Refinement.LockFreeRead` | src/dedup.c:93-112 | blocks are read with the contents they had at the lookup, each at its own later moment, if no slot is handed out for a new block before it is read |
| `Refinement.MappedNotRewritten` | src/dedup.c:93-112 | a slot that stays mapped is not handed out, so blocks that stay mapped until their pread are read correctly |
| `StaleRead.RecycledSlotIsRead` | src/dedup.c:106-112 | a run in which a file is unlinked and its slot rewritten for another file between the lookup and the pread, which then finds the other file's bytes |
| `Refinement.StepView` | src/dedup.c:595-676 | each action is, to a user, the write of one block, the removal of one block, or nothing |
| `Refinement.RunRefinesMap` | src/dedup.c:461-683 | every interleaving, from any good state, refines a plain map from (path, block) to 4096 bytes: the files are those at the start, changed by the actions taken, in order |
| `Locks.RunLocks` | src/dedup.c:504-539 | in every state of every run at most one thread holds the metadata lock for writing, and then none for reading; at most one holds the free-list mutex in a loop |
| `Locks.FreeListIsHeld` | src/dedup.c:445-454 | while a rollback gives its slots back one by one, no action of another thread touches the free list |
| `Locks.RollbackStaysTogether` | src/dedup.c:445-454 | over any run, from taking the mutex to releasing it the free list is the slots returned so far, last first, in front of the list as it was |
| `Progress.OnlyLocksBlock` | includes/metaindex.h:38-44 | in every good state a thread with a request can go on with it, unless it is about to take the write lock while someone holds the lock, or the mutex while someone holds that |
| `Progress.NoDeadlock` | includes/metaindex.h:38-44 | as long as some request is in flight, some thread can go on with its own |
| `Atomicity.RequestsAreAtomic` | src/dedup.c:595-668 | whenever nobody holds the write lock, the files are what whole writes and whole range removals made of the files at the start, in the order in which they held it |
| `Atomicity.RequestsLinearise` | src/passthrough.c:290-298 | with unlink and truncate alone on their file, and writes interleaved at will, the same with whole writes, unlinks and truncates of a plain map |
| `Atomicity.RemovalIsRequestIff` | src/passthrough.c:280-298 | however requests overlap, what a remover commits is the unlink or truncate of its file if and only if the file then has no block above the size the remover has read |
| `Twins.RunTwins` | src/dedup.c:504-539 | because Pass 1 holds the read lock, blocks of one request with the hash of a pending MISS hold its object from Pass 1 until publication, in every interleaving |
| `Twins.TwinIsRepeat` | src/dedup.c:597-619 | at publication another entry of the plan shares the pending object if and only if the request repeats the hash |
| `Twins.SafeRunIff` | src/dedup.c:597-619 | a run has no unsafe publication if and only if no writer loses the race with a hash that its request repeats |
| `Twins.DistinctRunIsSafe` | src/dedup.c:461-683 | every interleaving of requests none of which contains two blocks of one hash is a safe run |
| `LostRace.PublishSafeIff` | src/dedup.c:597-619 | a publication keeps the invariant, and leaves no reference to a freed object, if and only if it does not find its hash indexed while its request repeats that hash |
| `LostRace.GoodIsSafe` | src/dedup.c:597-655 | under the invariant no plan entry and no file block refers to a freed object |
| `LostRace.DanglingReached` | src/dedup.c:604-614 | two writers of one content, one of them twice, reach a state in which a file block is mapped to a freed object |
| `MasterLength.RunCovers` | src/dedup.c:314-321 | without a failed pwrite, from any good state in which it holds, free and returning slots lie inside the master file and nothing lies past the counter, at every step |
| `MasterLength.MasterLengthIsCounter` | src/passthrough.c:108-113 | without a failed pwrite, whenever all threads are idle the master file is exactly as many blocks long as the append counter says |
| `MasterLength.StartCovers` | src/passthrough.c:108-113 | a session on a valid volume starts so if the master file is as long as the counter says |
| `Sizes.RunSizes` | src/dedup.c:657-666 | with unlink and truncate alone on their file, and writes to one file overlapping at will, every mapped block lies below its file's recorded, block-aligned size or belongs to a write about to record it, in every interleaving |
| `Sizes.RemovedExactly` | src/passthrough.c:280-298 | when unlink or truncate is about to record the new size, no block at or above it is mapped |
| `Sizes.IdleSizesFit` | src/passthrough.c:398-426 | so with all threads idle every mapped block lies below its file's size |
| `Sizes.StepSizesAre` | src/dedup.c:657-666 | of all actions of all threads only two change a size: the end of a write records the larger of the old size and the end of the write, and the end of a removal forgets the size, or lowers it to the new one and never raises it |
| `Protocol.RoundUpIsLeast` | src/passthrough.c:284-287 | the blocks up to which a removal goes are the fewest that hold the size |
| `Stranding.StepAccountsIff` | src/passthrough.c:294-298 | with no assumption about overlap, an action leaves a mapped block above its file's size if and only if it is an unlink or truncate recording a size below a mapped block |
| `Stranding.LeftBehindIff` | src/passthrough.c:280-298 | when an unlink or truncate records its size, a block above it is mapped if and only if a write mapped it after the old size was read and nothing has removed it since |
| `Stranding.RunAccountsIff` | src/passthrough.c:398-426 | over whole runs, every block is accounted for in every state if and only if no write overtakes an unlink or truncate of its file in that way |
| `Stranding.NothingOvertakesFits` | src/passthrough.c:398-426 | then, with all threads idle, every mapped block lies below its file's block-aligned size |
| `Stranding.SerialisedOvertakesNothing` | src/passthrough.c:280-298 | nothing overtakes if unlink and truncate are alone on their file |
| `Overlap.OverlapBreaksSizes` | src/passthrough.c:280-298 | from a valid volume, an unlink that has read the size of a file and a write of its next block, overlapping, leave that block mapped and the file without a size |
| `Solo.SoloStep` | src/dedup.c:461-683 | an action of a thread that runs alone keeps the invariant and the contents of everything published before the request |
| `Writes.DecideFits` | src/dedup.c:503-539 | Pass 1 marks a block MISS if and only if its hash is neither indexed nor that of an earlier block of the request; entries of one hash share one object |
| `Writes.PublishPhase` | src/dedup.c:597-619 | alone, a writer never loses the race: nothing is redirected and no slot given back |
| `Writes.WriteStores` | src/dedup.c:461-683 | a successful write changes its own blocks and no others, to what the index or the request has under their hashes |
| `Deduplication.WriteIsFaithful` | src/dedup.c:461-683 | a successful write makes the files the old ones overwritten with the request if and only if no block of it collides with a different one |
| `Collisions.EveryHashCollides` | includes/metaindex.h:11-25 | two different blocks have the same 64-byte hash, whatever the hash function |
| `Collisions.SomeWriteIsUnfaithful` | src/dedup.c:505-523 | for every hash function some successful write of two blocks does not store what it was given |
| `Deduplication.NoCollisionNoClash` | src/dedup.c:511-516 | blocks without collisions never clash |
| `Deduplication.PendingCount` | src/dedup.c:518-537 | after Pass 1 a pending object is counted once for each block of the request with its hash |
| `Aborts.WriteAborts` | src/dedup.c:403-455 | a write whose flush fails after any runs or part of one leaves both tables, all objects with their counts, the sizes and all file contents as before; the free list is the slots of its misses, last first, in front of what the allocator left, none twice |
| `FlushPlan.AllocatorIsStorageFirst` | src/dedup.c:292-322 | with any requests in flight, the batch is the head of the free list then new slots; its slots are distinct and not free any more, none belongs to a published object or to any thread, and the master grows by what was missing only |
| `FlushPlan.AllocatorAfterPassOne` | src/dedup.c:544-553 | in particular in the state after Pass 1, in which it is called |
| `FlushPlan.FlushIsWriteEach` | src/dedup.c:348-385 | flushing by runs leaves the bytes that one pwrite per MISS in plan order would, and writes nothing for a HIT |
| `FlushPlan.RunsAreMaximal` | src/dedup.c:358-370 | the runs cannot be extended at either end, and are in order and disjoint |
| `FlushPlan.RunsCoverMisses` | src/dedup.c:350-383 | an entry is in some run if and only if it is a MISS |
| `Placement.PlannedSlot` | src/dedup.c:556-563 | the MISS with m misses before it gets the m-th slot of the free list, and past its end the slot m - |free| behind the append counter |
| `Placement.NewBlocksInOrder` | src/dedup.c:292-322 | with an empty free list, new and distinct blocks get consecutive slots from the counter on, in the order of the request |
| `Placement.NewBlocksAppend` | src/dedup.c:363-376 | such a request is one run, so one pwrite, and a master that ends at the counter becomes itself followed by the request |
| `Placement.FlushResult` | src/dedup.c:376-385 | a flush of any plan on any device: it returns 0 if every pwrite is complete, else the errno of the first that is not, or -EIO if that one was short; the master has every run before it, and of that run the bytes that were taken |
| `Placement.WriteResult` | src/dedup.c:570-584 | a write returns the size of the request, or the code of its first incomplete pwrite |
| `Recycling.CollectsInFront` | src/dedup.c:645-654 | in every action of every thread, a slot collected for release goes in front of those collected before, giving back puts them in front of the free list, and the allocator takes from the front |
| `Recycling.WriteFreesInFront` | src/dedup.c:639-676 | after a successful write the free list is what the batch left of it, with exactly the slots whose last block the write overwrote in front, the last first |
| `Recycling.AbortReturnsBatch` | src/dedup.c:445-454 | after a failed write the slots of the batch stand in front of what the batch left of the free list, the last of the batch first |
| `Removals.BatchIsLoop` | src/dedup.c:221-256 | batch removal of a range gives exactly the state of removing its blocks one at a time, free-list order included, for any volume |
| `Recycling.RemovalFreesInFront` | src/dedup.c:221-256 | removing a range puts exactly the slots that no block outside the range shares in front of the free list, the last freed first, in one batch or block by block |
| `Recycling.LastFreedFirstUsed` | src/dedup.c:283-291 | so the slot freed last is the first that the next write uses |
| `Removals.UnlinkForgets` | src/passthrough.c:280-298 | unlink leaves no block of the file, no size, and every other file as it was |
| `Removals.TruncateKeepsPrefix` | src/passthrough.c:398-426 | truncate keeps exactly the blocks below the new size and touches no other file |
| `Quiescence.ValidIsSettled` | src/dedup.c:639-676 | between requests: all objects published, each count the number of blocks mapped to it and positive, each slot free once or owned by one object |
| `Quiescence.SettledIsValid` | src/dedup.c:639-676 | and the converse: that description is the whole invariant between requests |
| `Quiescence.QuiescentIsValid` | src/dedup.c:461-683 | whenever all threads of a run are idle, the invariant between requests holds |
| `Quiescence.ValidIsGood` | src/passthrough.c:101-113 | conversely any number of idle threads on a valid volume is a good state, so runs may start on what was mounted |
| `Quiescence.SlotAccounting` | src/dedup.c:292-322 | the append counter is the length of the free list plus the number of objects |
| `Quiescence.StorageIsDistinctContents` | src/dedup.c:639-655 | published objects correspond one to one to the distinct block contents of all files, so the counter is the free slots plus the distinct contents |
| `FileSystem.DoKeeps` | src/dedup.c:461-683 | each request, whatever it returns and even if hashes collide, keeps the invariant and the size bound |
| `FileSystem.DoRefines` | src/dedup.c:461-683 | each request means to the contents and the sizes of the files what it means to two plain maps, given its return code |
| `FileSystem.WriteSizes` | src/dedup.c:657-666 | a successful write sets the size of its file to the larger of the old one, or 0, and the end of the write, and no other size |
| `FileSystem.DoReturns` | src/dedup.c:463-475 | a write returns 0 exactly if it is empty, -EOPNOTSUPP if it is not whole blocks, and else its size or an error; unlink returns 0; truncate returns -EOPNOTSUPP exactly for a negative or unaligned size and else 0; what is refused changes nothing |
| `FileSystem.FilesReadBack` | src/dedup.c:461-683 | over every sequence of writes, failed writes, unlinks and truncates the files have the contents and the sizes that the same sequence makes of plain maps |
| `FileSystem.UnlinkAll` | src/passthrough.c:280-298 | unlinking every file leaves both tables and all sizes empty and the free list a permutation of all slots |
| `Storage.MissesAreNew` | src/dedup.c:503-539 | the misses of a write are the distinct blocks that no file contains yet |
| `Storage.DoNext` | src/dedup.c:292-322 | a request raises the append counter to what it needs at once and no further |
| `Storage.MasterIsPeakDemand` | src/dedup.c:292-322 | from empty, the append counter is exactly the peak over all writes of the distinct live contents before it plus its misses |
| `CounterLength.AppendedArePlanned` | src/dedup.c:544-563 | every slot that a write appends is the slot of one of its misses |
| `CounterLength.WriteCounts` | src/dedup.c:461-683 | a successful write leaves the master file as long as the append counter says if it found it so |
| `CounterLength.DoCounts` | src/passthrough.c:108-113 | so does every request that is not a failed write |
| `MasterFile.ChopFlatten` | src/dedup.c:505-507 | the blocks of a request laid end to end are its buffer, so every byte of it is in exactly one block |
| `Engine.DedupEngine.DropRef` | src/dedup.c:192-205 | the loops' shared step: the last reference frees the object, unindexes its hash and puts its slot first in the list to give back |
| `Engine.DedupEngine.DecideBlocks` | src/dedup.c:503-539 | Pass 1 over the plan array, with the table of pending hashes and the miss count |
| `Engine.DedupEngine.AllocateBatchStorageFirst` | src/dedup.c:292-322 | the two allocation loops fill the output array with the slots of `Allocate` |
| `Engine.DedupEngine.AssignSlots` | src/dedup.c:556-563 | the loop computes the assignment of the batch to the misses, of which `Placement.PlannedSlot` says which slot each gets |
| `Engine.DedupEngine.NextMiss` | src/dedup.c:352-354 | the first MISS at or after a position |
| `Engine.DedupEngine.EndOfRun` | src/dedup.c:363-370 | the end of the maximal run |
| `Engine.DedupEngine.FlushPlan` | src/dedup.c:348-385 | one pwrite per run straight out of the caller's buffer; stops at the first error or short write with the file as far as it got |
| `Engine.DedupEngine.RollbackAllocations` | src/dedup.c:403-455 | drops the HITs, gives their slots back, then frees the MISSes and their slots |
| `Engine.DedupEngine.PublishPending` | src/dedup.c:597-619 | the first loop of Pass 3, lost races included |
| `Engine.DedupEngine.MapBlocks` | src/dedup.c:639-655 | the second loop of Pass 3 |
| `Engine.DedupEngine.ConsolidateWrite` | src/dedup.c:593-676 | Pass 3 with the slots given back; the size it records is that of `FileSystem.WriteSizes` |
| `Engine.DedupEngine.WriteDedup` | src/dedup.c:461-683 | keeps the invariant; returns 0 exactly for an empty request and -EOPNOTSUPP for one that is not whole blocks, changing nothing; a failed write changes no file and no size; a successful one returns the size of the request, records the larger of the old size and its own end, keeps the length of the master equal to the counter and, without a clash, overwrites exactly its blocks |
| `Engine.DedupEngine.RemoveBlockDedup` | src/dedup.c:180-206 | removes one block and gives its slot back at once if it was the last holder |
| `Engine.DedupEngine.RemoveBlocksDedupBatch` | src/dedup.c:221-256 | the batch loop, equal both to its function and to the single-block loop |
| `Engine.DedupEngine.XmpUnlink` | src/passthrough.c:280-298 | keeps the invariant, leaves nothing of the file in the index and every other size as it was |
| `Engine.DedupEngine.XmpTruncate` | src/passthrough.c:398-426 | returns -EOPNOTSUPP exactly for negative and unaligned sizes, changing nothing, and 0 otherwise; then exactly the prefix is kept, and the size is lowered to the new one or left |
| `Engine.DedupEngine.XmpGetattrSize` | src/passthrough.c:184-196 | reports exactly the recorded size, below which every mapped block of the file lies |
| `Engine.DedupEngine.XmpRead` | src/passthrough.c:530-534 | between writes a read returns the mapped prefix with the bytes of the plain map and leaves the rest of the buffer alone |
| `Engine.DedupEngine.UnmountAndMount` | src/metaindex.c:146-203 | whatever the devices do, unless a buffer overruns, what comes back is part of what was there; over devices that take every flush and answer every pread the index comes back up to object addresses with all files, and the invariant holds again if and only if the counter was the length of the master in blocks |
| `PairSort.InsertionSortedSorts` | includes/dedup.h:15-33 | insertion sort gives a sorted permutation and keeps the order of blocks that share a slot |
| `PairSort.InsertInPlace` | includes/dedup.h:23-31 | the shifting loop inserts one element into the sorted front of the array and touches nothing behind it |
| `PairSort.InsertionSort` | includes/dedup.h:15-33 | the in-place loops compute that sort on the first n elements and leave the others alone |
| `BatchedRead.Delivered` | src/dedup.c:150-156 | a pread of several slots is complete if and only if each of them is in the file and readable |
| `BatchedRead.Lookup` | src/dedup.c:96-105 | the slots of the maximal mapped prefix |
| `BatchedRead.LookupBlocks` | src/dedup.c:93-106 | the lookup loop pairs each block of that prefix with its slot |
| `BatchedRead.SortPairs` | src/dedup.c:115-119 | the pairs end up sorted by slot and permuted, for any library sort |
| `BatchedRead.ReadGroup` | src/dedup.c:137-164 | one pread fills every block of a group of consecutive slots, all indices within the scratch buffer, if and only if each slot of the group is readable when it comes; otherwise a single block has the bytes that did come and a larger group nothing |
| `BatchedRead.ReadGroups` | src/dedup.c:127-167 | succeeds if and only if each slot is readable when the pread of its group comes, and then every pair is copied to its block; neighbours are in one group exactly if their slots are consecutive, so repeated slots start new groups |
| `BatchedRead.SamePreadIff` | src/dedup.c:127-135 | two blocks of the sorted list share a pread exactly if the slots from one to the other have no gap and no repetition; preads are numbered in order |
| `BatchedRead.ReadDedup` | src/dedup.c:77-171 | refuses empty and unaligned sizes; otherwise returns the mapped prefix, each block with the bytes that its own pread found, if and only if every slot is readable at that pread, and an I/O error else; the rest of the buffer is untouched |
| `BatchedRead.BatchedIsPlain` | src/dedup.c:77-171 | on an unchanging master the batched read fails exactly when one pread per block would, and otherwise leaves the same buffer |
| `BatchedRead.ReadsView` | src/dedup.c:77-171 | between requests it returns the files' contents |
| `BatchedRead.ConcurrentReadsView` | src/dedup.c:93-112 | amid other threads it returns the contents as of its lookup, if no slot is handed out for a new block before the pread that fetches it; the preads may happen at different moments |
| `ByteStream.BufferedIO.Flush` | src/persistence.c:45-62 | a complete, short or failed pwrite loses, repeats and reorders no byte; the buffer empties exactly when it is complete |
| `ByteStream.BufferedIO.Write` | src/persistence.c:78-93 | for every buffer size and every device, what is written is appended to all that was written before if and only if each flush makes room for the piece copied next; otherwise the overrun is reported |
| `ByteStream.FullFlushesStay` | src/persistence.c:80-92 | a device that takes every flush in full never causes an overrun |
| `ByteStream.ShortFlushOverruns` | src/persistence.c:81-88 | with a full buffer, one flush that takes less than is copied next is an overrun |
| `ByteStream.OneFlushStaysIff` | src/persistence.c:80-92 | a write that needs one flush is transparent if and only if that flush takes as many bytes as are left over |
| `ByteStream.BufferedIO.Refill` | src/persistence.c:65-75 | for every short or failed pread, the unread bytes stay the same, and it fails exactly at the end of the file or when the pread does |
| `ByteStream.BufferedIO.Read` | src/persistence.c:96-115 | returns the next n bytes if and only if that many are left and none of its preads fails, for every buffer size and pattern of short reads |
| `Codec.NumberRoundTrip` | src/persistence.c:137-148 | numbers that fit their bytes decode to themselves |
| `Codec.LEAt` | src/persistence.c:151-155 | byte i of a number is its digit of 256 to the power of i, so the least significant byte comes first |
| `Codec.FromLEIsSum` | src/persistence.c:157-161 | the number that bytes are read as is the sum of byte i times 256 to the power of i |
| `Codec.IntIsSigned` | src/persistence.c:514-519 | a count is read as the number of the signed 32-bit range that its bytes stand for |
| `Codec.CStringIff` | src/metaindex.c:100-110 | bytes are read as a path exactly if they begin with it and a terminator follows |
| `Codec.ElemRoundTrip` | src/persistence.c:151-172 | an element is read back whole, whatever follows it |
| `Codec.ElemTruncated` | src/persistence.c:157-172 | an element cut short is not read at all |
| `Codec.InfoRoundTrip` | src/metaindex.c:16-27 | MasterInfo decodes to what was encoded |
| `Codec.KeyRoundTrip` | src/metaindex.c:40-76 | the nested path and block number decode to what was encoded |
| `Codec.WordRoundTrip` | src/metaindex.c:78-98 | slots and sizes decode to what was encoded |
| `Codec.StrRoundTrip` | src/metaindex.c:100-110 | paths decode to what was encoded |
| `Tables.PairFaithful` | src/persistence.c:203-215 | a key with its value is read back whole, whatever follows, and not at all when cut anywhere |
| `Tables.CutFileLoadsPrefix` | src/persistence.c:345-354 | a saved file cut at any byte loads as exactly the entries that lie in it whole; uncut, as all of them in order |
| `Tables.MapOfEntries` | src/persistence.c:347-353 | inserting any first entries of a table, in any iteration order, gives that part of the table |
| `Tables.LastEntryWins` | src/persistence.c:347-353 | of several entries with one key the last is loaded |
| `SharedTables.Collect` | src/persistence.c:217-233 | the saved objects are the distinct values of both tables, each once |
| `SharedTables.FirstBindings` | src/persistence.c:444-472 | a table rebuilt from some first entries, with only some of the objects, has only bindings that were saved; with nothing missing it has all |
| `Layout.InfoLayout` | includes/metaindex.h:24-29 | MasterInfo is 80 bytes: the hash at 0, the slot at 64, the count at 72, padding at 76 |
| `Layout.KeyLayout` | src/metaindex.c:40-56 | a block of a file is the length of the path with its terminator in 4 bytes, the path, the terminator and the block number in 8 bytes |
| `Layout.EntryAt` | src/persistence.c:203-215 | entries lie one behind the other after the 4 bytes of the count |
| `Layout.FilesLayout` | src/metaindex.c:181-203 | every byte of the five files in terms of the volume: counts, element lengths, objects, hashes and blocks with the number of their object in the object file, sizes and free slots in list order |
| `Layout.CollectedInOrder` | src/persistence.c:217-233 | objects are numbered in the order in which they are first met |
| `Layout.ValidObjectsFollowHashes` | src/persistence.c:217-233 | on a valid volume object number i is that of the i-th hash, as the hash table is collected first |
| `Layout.InfoIff` | src/metaindex.c:20-27 | exactly the strings of 80 bytes decode to an object, with those fields, whatever the padding holds |
| `Layout.WordIff` | src/metaindex.c:82-89 | exactly the strings of 8 bytes decode to a slot, the number that they spell |
| `Layout.FreeListLoaded` | src/persistence.c:514-527 | from any file whatever the free list is loaded as its first n records of 8 bytes, n being the signed count, up to the first place where there is no such record |
| `Layout.ObjectsLoaded` | src/persistence.c:287-299 | the same for objects, records of 80 bytes |
| `Persistence.WriteElem` | src/persistence.c:151-155 | appends the length and the bytes, or reports an overrun of the buffer |
| `Persistence.ReadElem` | src/persistence.c:158-172 | takes the next element off the stream, or none if it is not there whole |
| `Persistence.GslistSave` | src/persistence.c:480-501 | writes the count and the elements in list order; unless the buffer overruns the file is a beginning of that, and all of it if the device takes every flush |
| `Persistence.GslistLoad` | src/persistence.c:503-532 | loads first elements in that order, all up to the first that cannot be read unless a pread fails |
| `Persistence.GhashSave` | src/persistence.c:306-329 | the same for the table in the order of iteration |
| `Persistence.GhashLoad` | src/persistence.c:331-359 | inserts first entries, all up to the first that cannot be read unless a pread fails |
| `Persistence.GetOrCreateValueIndex` | src/persistence.c:217-227 | numbers an object once, by its place in the array |
| `Persistence.SaveIndexedEntries` | src/persistence.c:235-248 | writes each key with the number of its object, or reports an overrun |
| `Persistence.GhashSaveIndexedPair` | src/persistence.c:361-423 | the three files: both tables with numbers, and the objects in the order first met, each a beginning of that unless a buffer overruns |
| `Persistence.AttachValues` | src/persistence.c:448-459 | replaces numbers by loaded objects in any order and drops those without one |
| `Persistence.GhashLoadIndexedPair` | src/persistence.c:425-478 | the objects and both tables, sharing them by number, from first entries of each file, and from all of them if every pread delivers something |
| `Mount.IndexDestroy` | src/metaindex.c:181-203 | unless a buffer overruns, each of the five files is a beginning of what `Save` says, and all of it over devices that take every flush |
| `Mount.XmpInit` | src/passthrough.c:105-113 | mounts some first entries of each file, and all of `Load` if every pread delivers something, with the counter taken from the length of the master |
| `Mount.CutFilesParse` | src/persistence.c:345-354 | files of which any tails are missing parse as first entries of what was saved, whole files as all of them |
| `Mount.FirstPartsMount` | src/persistence.c:436-472 | mounting first entries gives only saved bindings, with the saved sharing |
| `Mount.CutFilesLoadPart` | src/persistence.c:425-478 | with any tails of the five files missing and any preads failing, every loaded key has the object content it was saved with, two keys of the same or of different tables share an object exactly if they did, every size is as saved and the free list is a prefix |
| `Mount.RemountSame` | src/metaindex.c:146-203 | unmount and mount give equal tables, sizes and free-list order, and the same sharing, for all iteration orders |
| `Remount.RemountView` | src/metaindex.c:146-203 | every file reads as before |
| `Remount.RemountValidIff` | src/passthrough.c:108-113 | a mount re-establishes the invariant if and only if the counter was the length of the master in blocks |
| `Remount.RemountAfterRun` | src/passthrough.c:108-113 | which holds after every run without a failed pwrite that started on such a volume, once all threads are idle, so it can be applied again |
| `Sessions.FreshIsMountable` | src/passthrough.c:107-113 | an empty volume is one that can be unmounted and mounted without loss, so histories can start from nothing |
| `Sessions.HistoryIsSound` | src/metaindex.c:146-203 | over any number of mounts, concurrent runs without a failed pwrite, and unmounts, every mount finds the invariant and a master file as long as the counter says, and every state in between is good |
| `Sessions.HistoryRefinesMap` | src/metaindex.c:146-203 | and what is mounted after the last session is what was there at the beginning, changed by the block writes and removals of all sessions in order |
| `Sessions.HistorySizesFit` | src/metaindex.c:146-203 | and every mapped block lies below its file's size at every mount if in no session a write overtook an unlink or truncate of its file |
| `Sessions.SerialSessionIsInOrder` | src/passthrough.c:280-298 | which is so if unlink and truncate were alone on their file |
| `Remount.FailedWriteBreaksRemount` | src/dedup.c:440-450 | after a failed first write and a remount, a batch of two blocks gets slot 0 twice |

## Left out

- SHA-512 and the hash tables of glib: the hash is a parameter, a table is a finite map with an arbitrary iteration order.
- The system-call wrappers among the FUSE callbacks (directories, attributes, rename, link, extended attributes, open and release, debug logging): they do not touch the index. Of unlink and truncate the part that acts on the index is modelled, not the call to the underlying file system.
- The kernel tracing programs under bpf_programs and the benchmarks: no engine logic.
- Memory orderings: each atomic operation is one atomic step, each locked region excludes conflicting ones.
- Integer widths of counters: reference counts, slots and block numbers are unbounded in memory; that they fit their fields is a precondition of the metadata round trip (`Mount.Fits`), and sizes of elements of 2^31 bytes or more are not considered.
- Failure of malloc and of opening a file.
- The unbuffered write_elem and read_elem (src/persistence.c:174-201), which repeat the buffered format; save_values_array and load_values_array, which repeat gslist_save and gslist_load, are not modelled separately.
- Metadata bytes that no encoder wrote: decode_block_indice, decode_size and decode_str do not check their input and have no defined result there; the model refuses such elements. The padding of MasterInfo is written as zeros.
- ByteStream.BufferedIO.Write: after an overrun of the buffer, which it reports, nothing is stated, as the program has no defined behaviour there.
- BatchedRead.SortPairs: qsort for more than 32 blocks is a parameter known only to sort and permute; blocks of one slot may come out in any order.
- Safety.StepKeeps: leaves out the step that loses the publication race with a duplicate in its request, because the invariant is false after it (LostRace.PublishSafeByObject, LostRace.PublishSafeIff).
- Sizes.RunSizes, Atomicity.RequestsLinearise: for unlink and truncate that are alone on their file; what happens otherwise is Stranding.RunAccountsIff and Atomicity.RemovalIsRequestIff.
- Offsets of reads and writes are rounded down to a block, as in the program, which checks the size only.
- Freed addresses are never reused, so a new object cannot take the place of a freed one; the invariant shows that no one looks.
