# A verified model of a Silo-style transaction engine

The engine commits transactions optimistically over locked, multi-version tuples. A
global ticker divides time into epochs. Read-copy-update (RCU) reclamation, snapshot
reads, the garbage collection of old versions and the epoch log all rest on that
ticker. This project models these parts and proves what they guarantee, for every
input and for every interleaving of their steps.

Concurrent parts are state machines: a `State`, a `Step` with its guard `Enabled`, and
`Apply`. A `Run` is any sequence of enabled steps from the initial state, with any
number of transactions, cores or threads, and the theorems hold in every state of
every run. Code that changes memory in place on behalf of one thread is imperative: classes
with fields, loops and invariants.

| files | part of the system |
|---|---|
| `Tids` | transaction ids, read-only epochs, generation of commit ids |
| `CommitModel`, `CommitStructure`, `CommitOrder`, `CommitValues`, `CommitSnapshots`, `CommitSteps`, `CommitWalks`, `CommitCleaner`, `CommitTheorems`, `CommitHistory`, `CommitExample` | the commit protocol with snapshots and the cleaner: the machine, its invariant in layers, the step lemmas, snapshot walks and the cleaner under way, the theorems, the same told by the steps of a run, a run that is not serializable |
| `WriteSets` | the sorted write set, lock groups, installing and unlocking |
| `Ticker`, `Rcu` | epochs, guards, delete queues |
| `Tuples`, `Seqlock`, `VersionGc`, `VersionGcHistory` | version chains in the heap, optimistic reads of one tuple, reclamation of versions |
| `Logger`, `LoggerTheorems`, `LoggerHistory`, `LoggerRing`, `LoggerExamples`, `Assignments` | the epoch log, its statistics ring, the assignment of cores to loggers |
| `CircBuf`, `PxQueue` | the lock-free ring and the queue of groups |
| `ArenaLists`, `Arenas`, `Allocators` | free lists threaded through memory |

`Basics` and `Arith` hold an option type and facts about division.

The serialization order of the commit machine is the order of lock points: the moment
`commit` holds every write lock and reads the epoch, or begins to validate if it has
written nothing. The machine records that order as history, and `Replay` runs the
committed transactions of the order one at a time against a map. `Serializable`,
`TreeIsReplay` and `SnapshotIsPrefix` compare what the concurrent machine did with
this replay.

The machines keep sets of what was read, looked up in vain, freed or claimed. What a
caller gets is stated on the steps of the run and not on those sets. `CommitHistory` says
of each read, failed lookup, put, lock point and snapshot search what it comes to;
`Rcu.GracePeriod`, `CircBuf.Fifo`, `Seqlock.NoTornRead`, `VersionGcHistory` and
`LoggerHistory` do so for frees, enqueues, optimistic reads, tuples and log entries.

A snapshot read is a search of the tree followed by one step for each tuple of the
version chain, and any step of a writer or of the cleaner may come in between.
`SnapshotIsPrefix` is about what such a walk returns, `WalkIsPrefix` about one that is
still under way, and `CommitCleaner.WalkIsSafe` says that it meets no version the cleaner
has dropped.

Some promises do not hold as the code, its assertions or its comments state them. Each
has a concrete run that breaks it and the condition under which it holds.

- The commit protocol is not serializable in all runs. The cleaner locks a deleted tuple
  without write intent, takes its key out of the tree, and only then clears the tuple's
  latest flag; validation looks at the write intent and that flag. A reader of the
  deleted record can so commit after a transaction that inserted the key again, and read
  what else that transaction wrote (`CommitExample.NotSerializable`). In every run, every
  read is right that was not validated on such a tuple while another had its key
  (`CommitTheorems.AbsentIsRight` is the case of a key not in the tree). One that was is
  right exactly if the key has not been revived: the last transaction to write it before
  the reader's lock point, if it comes after the deletion, does not leave a value
  (`CommitTheorems.Serializable`, `CommitTheorems.SerializableExact`). Runs in which no
  validation passes on a tuple whose key has another are serializable
  (`CommitTheorems.StrictIsSerializable`).
- The idle-core shortcut of the persister can publish an epoch that the core has not
  written. It looks only at the queue between a core and its logger, not at the buffer
  being filled (`LoggerExamples.UncleanBypass`). And its test of the queue is two loads,
  of the tail and of the slot there; a dequeue in between makes a queue with buffers look
  empty (`LoggerExamples.HiddenBuffer`). Advancing a core is right exactly if its oldest
  buffer that has not been written, in the queue or being filled, is of a later epoch
  (`Logger.BypassExact`). A run in which every core is advanced so is called clean.
  Published epochs are durable throughout a run exactly if the run is clean
  (`LoggerTheorems.DurableExact`).
- `system_sync_epoch_` can go back, although the code asserts that it does not: a
  logger compares with a value it loaded before the persister bypassed the core. It can
  store an epoch below the system epoch (`LoggerExamples.SyncCanGoBack`), or one below
  the minimum that the persister has found but not stored yet
  (`LoggerExamples.SyncCanGoBackLater`). A publish keeps every core at or above what
  the persister relies on exactly if it does not store an epoch between the one it
  loaded and that floor: the minimum of the scan under way for a core already scanned,
  and else the system epoch (`LoggerTheorems.StoreExact`). In clean runs whose publishes
  all meet this condition the system epoch never goes back
  (`LoggerTheorems.SyncIsMonotone`); in any run it never does exactly if each round that
  finishes has met the assertion (`LoggerTheorems.SyncExact`). Durability needs only that
  the run is clean.
- The statistics ring relies on that assertion. Where it fails, a transaction above the
  system epoch can be counted as persisted (`LoggerExamples.CountCanBeWrong`), and a
  logger and the persister can use one slot for two epochs
  (`LoggerExamples.SlotCanBeShared`). In clean runs in which the assertion holds neither
  happens (`LoggerRing.CountedOnce`, `LoggerRing.NoSlotShared`). A round that violates
  it leaves the count right exactly if no transaction lies between the two epochs
  (`LoggerRing.LateRound`). A slot is shared exactly if the first epoch after the system
  epoch that has the slot of the logger's next buffer is among those to be harvested
  (`LoggerRing.SharesExact`); in a clean run that needs a buffer beyond the current lap,
  which a logger reaches only with an old system epoch (`LoggerRing.LapIsSafe`).
- Superseded and deleted tuples are meant to be reclaimed. One that was inserted with no
  value, by a removal of a key that is not there, is deleted from its birth and never
  queued; nothing reclaims it, not even after it has been replaced
  (`VersionGcHistory.LeakedTuple`). Every other tuple is queued, waiting or reclaimed
  once it is deleted or superseded (`VersionGcHistory.NoLeak`).
- Two enqueuers of the ring can claim one slot when the ring wraps during one `enq`
  (`CircBuf.SlotClaimedTwice`). A run is safe exactly if each compare-and-swap that
  succeeds takes a slot that is neither full nor claimed (`CircBuf.NoOverwrite`), which
  holds in runs without a lap and in all runs with one enqueuer
  (`CircBuf.LaplessIsSafe`, `CircBuf.SingleEnqueuer`).
- A read can be torn when the 27-bit version number of a tuple wraps during it
  (`Seqlock.TornAfterWrap`). With fewer changes of the number it cannot
  (`Seqlock.NoTornRead`).
- A commit id has its epoch and exceeds what it must exactly if no id in its way has
  used up the 24-bit number of that epoch (`Tids.ThreadContext.GenCommitTid`); the code
  does not check, and the number would run into the epoch.
- `ticker.h` says that a scan of all cores yields at least the exclusive last tick. A
  tick that completes during the scan can overtake it (`Ticker.ScanCanBeLate`). The scan
  is above every tick that was complete when it began (`Ticker.ScanIsRecent`). At its end
  it is above every completed tick exactly if none completed meanwhile, or one did and
  each core was loaded after it had moved on from that tick (`Ticker.ScanAtEnd`).

## Model

| member | source | states |
|---|---|---|
| CommitTheorems.Serializable | txn_impl.h:278-452 | in every reachable state every read of a committed transaction, found or not, is what the committed transactions before its lock point leave when run one at a time; a read validated on a tuple out of the tree while another had its key is so if and only if the key has not been revived in between |
| CommitTheorems.SerializableExact | txn_impl.h:336-384 | all reads of a committed transaction are right if and only if no read of it that was validated on a superseded tuple is of a revived key |
| CommitTheorems.StrictIsSerializable | txn_impl.h:278-452 | in runs in which no validation passes on a tuple out of the tree whose key has another tuple, all reads of all committed transactions are right |
| CommitTheorems.StaleExact | txn_proto2_impl.cc:675-680 | a read of a deletion is what the replay holds at a later position if and only if the last writer in between, if any, deletes too |
| CommitTheorems.AbsentIsRight | tuple.h:777-795 | a read that passes on a tuple out of the tree while no other has its key is right: the replay holds nothing for the key at the lock point |
| CommitExample.NotSerializable | txn_proto2_impl.cc:619-680 | a run in which a committed reader sees one write of an earlier transaction and misses another |
| CommitTheorems.TreeIsReplay | txn_impl.h:386-480 | an unlocked key holds exactly what the serial replay of all committed transactions leaves: every install of a commit, nothing of an abort |
| CommitTheorems.ReplayGet | txn_impl.h:336-384 | a value whose writer is the last one before a position is what the serial replay holds there |
| CommitTheorems.ReplayLast | txn_impl.h:392-441 | the replay holds for a key what the last committed transaction to write it wrote |
| CommitTheorems.ReplayNone | txn_impl.h:392-441 | and nothing for a key that no committed transaction wrote |
| CommitTheorems.AllOrNothing | txn_impl.h:392-480 | no version of an uncommitted transaction is in the tree; a finished commit has installed every key it wrote |
| CommitTheorems.AbortUndoes | txn_impl.h:49-104 | each release on the abort path takes out of the tree exactly the marker the transaction put there, leaves every record as it was and frees the lock |
| CommitTheorems.ReleaseUndoes | txn_impl.h:466-480 | the same for one release step from any state with the structural invariant |
| CommitTheorems.CommitInstalls | txn_impl.h:392-441 | a finished commit has reached, in each key it wrote, at least its own position |
| CommitTheorems.SnapshotIsPrefix | tuple.h:633-739 | what a snapshot's search and walk, tuple by tuple and racing with writers and cleaner, returns is the serial replay of the transactions with a read-only epoch below its bound, and these are a prefix of the serialization order |
| CommitTheorems.WalkIsPrefix | tuple.h:633-739 | a walk still under way will end with what that prefix leaves, also from a tuple replaced or unlinked since |
| CommitTheorems.PrefixExact | txn_proto2_impl.h:972-986 | epochs never decrease along the order, so the prefix holds an entry if and only if its epoch is below the bound |
| CommitTheorems.SnapshotIsInstalled | txn_proto2_impl.h:733-737 | every transaction a snapshot may see has finished: decided, installed, unlocked |
| CommitTheorems.SnapshotIsStable | txn_proto2_impl.h:733-737 | the prefix a snapshot reads is the same in all later states of the run |
| CommitTheorems.SnapshotReadsAgree | tuple.h:633-739 | two snapshot reads of a key return the same value, whatever runs between them or during them |
| CommitTheorems.RunExtends | txn_impl.h:324-457 | the serialization order only grows, decided entries never change, and new entries have epochs not below the current tick |
| CommitTheorems.CommitTids | txn_proto2_impl.h:972-1042 | commit ids are unique, carry core and lock-point epoch, strictly increase along the writers of a key; epochs never decrease along the order |
| CommitTheorems.LockPointReady | txn_proto2_impl.h:980-1034 | what the id generator asserts holds at every lock point: no id it read, overwrites or issued is from a later epoch |
| CommitTheorems.LocksAreOwned | txn_impl.h:194-229 | a tuple is locked with write intent if and only if one transaction counts it among its locks; finished transactions hold none; a marker in the tree is locked by an unfinished inserter |
| CommitTheorems.NoDeadlock | txn_impl.h:293-323 | no chain of waiting transactions closes, insert locks and optimistic readers included |
| CommitTheorems.WaitsClimb | txn_impl.h:205-227 | the holder of a lock someone waits for waits, if at all, at a higher address |
| CommitTheorems.HolderRuns | txn_impl.h:293-323 | whoever waits, some lock holder up the chain is past reading and does not wait |
| CommitTheorems.SomeoneRuns | txn_proto2_impl.cc:615-681 | whoever is blocked, by a transaction or by the cleaner's lock, the cleaner can go on or some lock holder is not blocked |
| CommitHistory.ReadIsRight | txn_impl.h:567-622 | for every Read step of a transaction that commits later: the value its tuple had at that step, none for a marker, is what the replay holds at the lock point, if and only if no CheckRead step of it passed while the cleaner was between removing the key and clearing the flag, another tuple had the key, and the key has been revived |
| CommitHistory.StrictRead | txn_impl.h:567-622 | in runs without such a pass the value every Read step saw is the one at the lock point |
| CommitHistory.MissingIsRight | txn_impl.h:626-640 | for every search of a transaction that commits later and found no key: the key is absent at the lock point |
| CommitHistory.SeenFrom | txn_impl.h:567-622 | nothing is in the read set but the contents of tuples at Read steps of the transaction |
| CommitHistory.NodeFrom | txn_impl.h:626-640 | a leaf in the absent set has the version the leaf had after a failed search or an insert of the transaction there |
| CommitHistory.CommitsLastPut | txn.h:313-320 | the entry of a transaction in the order holds under each key the value of its last put or insert step under that key |
| CommitHistory.CommitsOnlyPuts | txn.h:313-320 | and no key without such a step |
| CommitHistory.LockPoint | txn_impl.h:324-335 | a transaction is placed in the order when it takes its id, with that id and the tick current at that step |
| CommitHistory.LockPointOf | txn_impl.h:324-335 | every entry of the order is there by such a step, at the place the order had reached |
| CommitHistory.CommitIsDecide | txn_impl.h:384-392 | an entry counts as committed if and only if its transaction has passed validation |
| CommitHistory.AbortExact | txn_impl.h:192-384 | a step aborts its transaction if and only if it is the user's abort, meets a leaf with another version than noted, wants to lock a marker or a tuple not latest, or checks a read whose tuple is out of date, has become a marker, has a later id or is being written by another |
| CommitHistory.AcquireLocks | txn_impl.h:205-227 | acquiring takes the free lock of the tuple waited for |
| CommitHistory.UnlockFrees | txn_impl.h:442-457 | unlocking frees a lock the transaction held |
| CommitHistory.UnlinkRemoves | txn_proto2_impl.cc:675-678 | the cleaner takes exactly the key of a deleted tuple out of the tree |
| CommitHistory.ClearedFails | txn_proto2_impl.cc:679-680 | once the latest flag is cleared every validation of a read of the tuple fails |
| CommitHistory.CutDrops | txn_proto2_impl.cc:595-614 | the cleaner drops exactly the versions from the given place on |
| CommitHistory.SnapshotBound | txn_proto2_impl.h:733-737 | a snapshot's bound is, from then on, the read-only epoch of the exclusive last tick when it began |
| CommitHistory.SnapshotAnswer | txn_proto2_impl.h:733-737 | every search of a snapshot that has ended has an answer, and it is what the transactions leave whose read-only epoch is below that of the exclusive last tick at the snapshot's begin |
| CommitSteps.StepInv | txn_impl.h:232-496 | every step keeps the invariant of locks, order, values, chains and snapshots, a hop if its walk has the right end, an unlink or a validation if what the cleaner locked has expired |
| CommitWalks.StepWalks | tuple.h:633-739 | every step keeps the right end of every walk under way, the order of every chain, and a later write in front of every dropped version |
| CommitCleaner.StepClean | txn_proto2_impl.cc:615-681 | every step keeps the cleaner's invariant: what it locked is deleted for every snapshot, what it unlinked is out of the tree, and a read validated on a superseded tuple is of a deletion before the lock point |
| CommitCleaner.StaleRead | tuple.h:777-795 | a read that passes on a tuple out of the tree saw a deletion committed before the reader's lock point |
| CommitCleaner.RunInv | txn_impl.h:232-496 | all three invariants hold in every state of every run |
| CommitCleaner.WalkIsSafe | txn_proto2_impl.cc:595-614 | the tuple a snapshot's walk reads next holds no version that the cleaner has dropped |
| CommitWalks.PutSnap | tuple.h:853-956 | an install in place or by replacement changes the end of no walk |
| CommitWalks.CutSnap | txn_proto2_impl.cc:595-614 | nor does dropping old versions |
| CommitSnapshots.ChainRefines | tuple.h:853-956 | after a write every read-only bound sees the new version if it is old enough and otherwise what it saw before |
| CommitSnapshots.FindCut | txn_proto2_impl.cc:595-614 | dropping the versions behind one that every snapshot sees changes no snapshot read |
| CommitSnapshots.FetchOk | txn_proto2_impl.h:733-737 | where a search begins, the walk it begins ends with the last committed write below the bound; a key not in the tree was last deleted below it |
| CommitSnapshots.HopAnswer | tuple.h:644-675 | one hop along the chain does not change what the walk ends with, and the last one returns that |
| CommitSnapshots.PendingIsRecent | txn_proto2_impl.h:972-986 | a writer with an install outstanding has an epoch that no snapshot reads |
| CommitValues.ReadValidated | tuple.h:771-795 | a read that passes validation on a tuple in the tree is, by value and writer, the state at the lock point |
| CommitValues.MissingValidated | txn_impl.h:370-383 | a lookup that found nothing and whose leaf has not changed is absent at the lock point |
| CommitValues.AbortFree | txn_impl.h:466-480 | no undecided or committed writer is pending on a tuple that an aborting transaction still holds |
| CommitValues.InsertOwnValues | txn_impl.h:498-562 | an insert that moves a leaf the transaction depends on keeps its absent reads right, or aborts it |
| Tids.Unpack | txn_proto2_impl.h:392-465 | the three fields of a packed id are those it was made of |
| Tids.Repack | txn_proto2_impl.h:392-465 | every id is the packing of its fields |
| Tids.TidOrder | txn_proto2_impl.h:385-408 | ids compare by epoch, then number, then core |
| Tids.ReadOnlyTid | txn_proto2_impl.h:429-440 | an id is at most the snapshot id of a tick if and only if its read-only epoch is below the tick's |
| Tids.OverwriteHidden | txn_proto2_impl.h:752-770 | a record may be overwritten if and only if it has no id yet or no snapshot can tell the two ids apart |
| Tids.ThreadContext.GenCommitTid | txn_proto2_impl.h:972-1042 | the new id has the core; it has the epoch and exceeds every id read, overwritten or issued before if and only if none of them has used up that epoch's numbers, and its number is then the least that does |
| WriteSets.Sort | txn_impl.h:256-293 | the write vector is sorted by tuple, insert first, then program order, and a permutation |
| WriteSets.Contains | txn.h:591-602 | the binary search finds a tuple if and only if it is in the sorted vector |
| WriteSets.SortedLists | txn_impl.h:259-293 | the sorted vector lists every write of the transaction once |
| WriteSets.LastIsLatest | txn.h:313-320 | an entry ends its group if and only if it is the last write to its tuple in program order |
| WriteSets.InstallsMeaning | txn_impl.h:299-318 | exactly the creating write and the last write of a tuple are installed |
| WriteSets.OneCarrier | txn_impl.h:194-229 | two entries of one tuple never both carry its lock |
| WriteSets.SomeCarrier | txn_impl.h:194-229 | some entry of every tuple carries its lock |
| WriteSets.Commit.Prepare | txn_impl.h:256-293 | the vector lists all writes in sorted order |
| WriteSets.Commit.HandleLast | txn_impl.h:192-229 | closes a group: fails if and only if a foreign tuple is a marker or superseded, and takes the lock exactly in the second case and on success |
| WriteSets.Commit.LockGroups | txn_impl.h:295-323 | succeeds if and only if no group is blocked; locks are taken in strictly increasing order; the flags name the locks held on success and on failure |
| WriteSets.BlockedMeaning | txn_impl.h:205-225 | a pass is blocked if and only if some written, not created tuple is a marker or superseded |
| WriteSets.AcquiredMeaning | txn_impl.h:299-323 | a successful pass acquires exactly the locks of the tuples the transaction wrote and did not create |
| WriteSets.HeldMeaning | txn_impl.h:466-480 | whenever the pass stops, each lock held is named by exactly one flagged entry |
| WriteSets.LockedMeaning | txn_impl.h:299-329 | after a successful pass every written tuple is locked by one entry, and the writes flagged are the creating and the last ones |
| WriteSets.LastWritesMeaning | txn_impl.h:394-396 | what is to be left in the tuples: a tuple has an entry if and only if it is written, and the entry is the value of the write to it that no other follows |
| WriteSets.InstallAll | txn_impl.h:392-441 | installing the flagged writes in program order leaves a value in exactly the tuples written, that of the last write to each |
| WriteSets.UnlockAll | txn_impl.h:442-480 | the unlock loop drops every lock held exactly once |
| WriteSets.CommitWrites | txn_impl.h:256-480 | sort, lock, validate, install and unlock together: succeeds if and only if validation does and no foreign tuple is a marker or superseded; then exactly the tuples written have values, each that of the last write to it, and otherwise none has; every lock held or taken is dropped once and none is left |
| Ticker.EpochInvariant | ticker.h:86-131 | every core is at the current tick or one behind, a guard's tick is not complete and does not move, and at most one tick completes while it lasts |
| Ticker.GuardTick | ticker.h:89-111 | the tick of a guard is the one that was current at its load |
| Ticker.OneTickPerGuard | ticker.h:89-131 | from a guard's load of the current tick to its end at most one tick completes, never the guard's own, and the current one moves by at most one |
| Ticker.DepthCounts | ticker.h:89-131 | a core is in a guarded section if and only if it has entered more often than left, and the depth is the difference |
| Ticker.ClockRefinement | ticker.h:180-218 | the ticker bumps only after the last tick completed, and completes a tick only when every open guard is at the current one |
| Ticker.StepKeeps | ticker.h:86-218 | every load, store, lock and unlock of guards and ticker keeps the epoch invariant |
| Ticker.RunInv | ticker.h:86-218 | the epoch invariant holds in every state of every run, for any number of cores |
| Ticker.LastGrows | ticker.h:216-216 | neither the current nor the last tick ever goes back |
| Ticker.ScanIsRecent | ticker.h:46-54 | a scan of all cores that races with the ticker yields more than every tick complete when it began |
| Ticker.ScanAtEnd | ticker.h:46-54 | the scan is above the last tick at its end if and only if that did not move during it, or moved by one and every core was loaded past it |
| Ticker.ScanCanBeLate | ticker.h:46-54 | a run in which the scan yields 1 while the exclusive last tick is 2 |
| Rcu.GracePeriod | rcu.cc:200-283 | the deleter of the k-th free of a core is its k-th call, on the pointer freed, and every region open at the free has left in between, for any multiplier |
| Rcu.Grace | rcu.cc:255-283 | although both ticks are rounded down, an entry freed at a tick is drained only after the next tick completed |
| Rcu.InOrderOnce | rcu.cc:200-283 | at all times the pointers a core has freed are, in order, those its deleters have run on followed by those drained and still queued: in order, once each, none lost |
| Rcu.DrainExact | rcu.cc:200-237 | a drain takes from the queue exactly the entries whose tick is at most the clean tick, in order, and leaves the rest |
| Rcu.LoadedTick | rcu.cc:200-212 | the tick a drain goes by is the exclusive last tick at its load |
| Rcu.AcceptedExact | rcu.cc:224-224 | on a queue sorted by tick an entry is accepted if and only if its tick is at most the clean tick |
| Rcu.ReapedGrows | rcu.cc:203-212 | the clean tick is monotone in the last tick |
| Rcu.DrainedEnded | rcu.h:250-278 | an entry whose tick is below the exclusive clean tick has no open region left |
| Rcu.StepKeeps | rcu.cc:200-283 | frees, drains, deleters, guards and the ticker keep the grace-period invariant |
| Rcu.RunInv | rcu.cc:200-283 | that invariant holds in every state of every run |
| Tuples.WrittenRefines | tuple.h:853-956 | after a write each snapshot id reads the new record if it is at most that id and otherwise what it read before |
| Tuples.WrittenExact | txn_proto2_impl.h:752-770 | at an arbitrary id the same holds if and only if no record that the id could still tell apart was overwritten in place |
| Tuples.WrittenOrdered | tuple.h:843-856 | chain ids stay non-increasing and the new record is at the head |
| Tuples.ReadIsNewest | tuple.h:633-675 | on an ordered chain the walk returns the newest record at or below the id |
| Tuples.ReadAbsent | tuple.h:668-669 | if every record of the chain is above the id the read is empty, with the least id |
| Tuples.ReadIsFirst | tuple.h:633-739 | the read is the first record at or below the id, and empty with the least id if and only if there is none |
| Tuples.DbTuple.AllocFirst | tuple.h:177-214 | a new tuple is a latest marker that holds its tentative value |
| Tuples.DbTuple.AllocSpill | tuple.h:216-249 | a spill copy has the record and the rest of the chain of its base |
| Tuples.DbTuple.AllocHead | tuple.h:251-289 | a replacement head has the new record in front of the whole old chain |
| Tuples.DbTuple.Publish | txn_impl.h:402-405 | committing an insert turns the marker into a record at the commit id with the tentative value |
| Tuples.DbTuple.Overwrite | tuple.h:879-887 | an overwrite in place replaces the head record and nothing behind it |
| Tuples.DbTuple.WriteRecordAt | tuple.h:853-956 | over all four branches: the resulting chain, which tuple is latest, which one holds the old record, and whether the spill was forced |
| Tuples.DbTuple.RecordAt | tuple.h:633-739 | the walk returns the first record of the chain not after the id, and is empty with the least id for a marker and where there is no such record |
| Seqlock.NoTornRead | tuple.h:679-739 | the answer to a read is right at one instant during it: empty only where the tuple was a marker, a value and id only those of the complete record held and not after the id asked for, and the next tuple only where the record was later and that was its link |
| Seqlock.SnapshotInstant | tuple.h:508-564 | what a reader holds past its version load is what the tuple held at that load, as long as the check passes |
| Seqlock.ValidationIsAtomic | tuple.h:777-795 | a validation that succeeds holds all at once at one instant since it began: latest flag set, id not newer, no lock with write intent; a lock without intent may be held |
| Seqlock.ValidationFails | tuple.h:777-795 | a validation that fails saw a lock with write intent, a tuple not latest or a later id, or the header changed under it |
| Seqlock.StepKeeps | tuple.h:343-460 | every single load and store of writers and readers keeps the seqlock invariant |
| Seqlock.RunInv | tuple.h:343-564 | that invariant holds in every state of every run |
| Seqlock.TornAfterWrap | tuple.h:99-127 | a run of more than 2^27 version changes during one read that returns an id and a value never held together |
| VersionGc.NoReclaimedAccess | txn_proto2_impl.h:1141-1162 | no open region holds a reclaimed tuple, a snapshot's next link leads to none although links dangle, and the tree holds none |
| VersionGc.WalkIsSafe | tuple.h:633-675 | the tuple a snapshot reader is about to walk to is not reclaimed nor waiting to be, and a queued one has a tick not below the reader's |
| VersionGc.WriterIsRecent | txn_proto2_impl.h:1044-1082 | every open snapshot's bound is at most one read-only epoch behind any writer that still queues spills |
| VersionGc.SpillUnheld | txn_proto2_impl.cc:598-614 | a spilled tuple past the threshold is held by no open region, so it may be freed without a grace period |
| VersionGc.ReclaimedOnce | txn_proto2_impl.cc:595-681 | a tuple that a step releases was not released before, is not latest, not in the tree, and not queued or waiting any more; the step releases nothing else |
| VersionGc.AtMostOnce | txn_proto2_impl.cc:595-681 | no tuple is released by two steps of a run |
| VersionGc.QueuedOnce | txn_proto2_impl.h:1055-1065 | nothing is queued that was reclaimed or waits for its grace period |
| VersionGcHistory.PointerIsSafe | txn_proto2_impl.h:1141-1162 | a tuple that a region has found in the tree or by a link is not reclaimed until the region closes or walks on from it |
| VersionGcHistory.BoundIs | txn_proto2_impl.h:733-737 | a snapshot region's bound is the read-only epoch of the exclusive last tick when it opened |
| VersionGcHistory.EpochIs | txn_proto2_impl.h:972-986 | a writer's epoch is the tick current when it took it |
| VersionGcHistory.InPlaceWrites | tuple.h:879-887 | an overwrite within the read-only epoch changes the head's epoch and nothing behind it; a deletion queues it |
| VersionGcHistory.SpillWrites | tuple.h:925-942 | a spill puts a copy of the old record, queued for the writer's epoch, directly behind the head, which stays in the tree |
| VersionGcHistory.ReplaceWrites | tuple.h:896-956 | a replacement becomes the tuple in the tree and links to the old one, which is queued unless it was deleted |
| VersionGcHistory.CleanerIs | txn_proto2_impl.cc:588-681 | the cleaner reclaims a spill, queues a deleted and replaced tuple again, and takes any other deleted tuple out of the tree to wait for exactly the regions open then |
| VersionGcHistory.NoLeak | txn_proto2_impl.h:1044-1139 | a tuple deleted or superseded is queued, waiting or reclaimed if and only if it was not inserted with no value |
| VersionGcHistory.LeakedTuple | base_txn_btree.h:351-361 | a run after which a superseded tuple is in the care of nobody |
| VersionGc.StepKeeps | txn_proto2_impl.cc:588-681 | writes, spills, deletes, re-inserts, requeues, unlinks and reads keep the reclamation invariant |
| VersionGc.RunInv | txn_proto2_impl.cc:588-681 | that invariant holds in every state of every run |
| Logger.BypassExact | txn_proto2_impl.cc:162-188 | publishing an epoch for an idle core is durable if and only if its oldest buffer not written, queued or being filled, is of a later epoch |
| Logger.HeadEpoch | txn_proto2_impl.h:701-707 | the buffer being filled holds a single epoch |
| Logger.StepKeeps | txn_proto2_impl.cc:147-405 | workers, loggers and persister keep the durability invariant, step by step |
| Logger.RunInv | txn_proto2_impl.cc:147-405 | that invariant holds in every state of every clean run |
| LoggerTheorems.DurableExact | txn_proto2_impl.cc:162-188 | in any run, every transaction up to the epoch published for its core is written at all times if and only if every core advanced by the shortcut was clean |
| LoggerTheorems.DurableEpoch | txn_proto2_impl.cc:264-405 | in every clean run, every transaction logged with an epoch up to the published one of its core, or up to the system epoch, has been written |
| LoggerTheorems.NoLateEntries | txn_proto2_impl.h:862-887 | in every clean run, no core ever logs a transaction of an epoch that the system epoch had already covered |
| LoggerHistory.LogIs | txn_proto2_impl.h:862-887 | a transaction that logs is in its core's log from then on, with the tick current when it took its epoch |
| LoggerHistory.LogFrom | txn_proto2_impl.h:862-887 | every entry of the log is there by a log step of its core, in order |
| LoggerHistory.WrittenFrom | txn_proto2_impl.cc:300-375 | an entry counts as written only by a write of its core's logger, in a buffer scheduled by then |
| LoggerHistory.PublishIs | txn_proto2_impl.cc:376-382 | a publish stores the logger's mark of the core if that is above the epoch it loaded |
| LoggerHistory.MarkFrom | txn_proto2_impl.cc:318-329 | that mark is one below the epoch of the last buffer of the core scheduled in the mark's turn |
| LoggerHistory.MinFrom | txn_proto2_impl.cc:158-194 | the minimum of a round is an epoch the persister loaded or stored for a core in that round |
| LoggerHistory.MinBelow | txn_proto2_impl.cc:158-194 | and no more than any of them |
| LoggerHistory.BestFrom | txn_proto2_impl.cc:151-156 | the epoch the shortcut publishes is the one before that current when the round began |
| LoggerHistory.SyncIs | txn_proto2_impl.cc:220-220 | the system epoch changes only at the end of a round, to its minimum |
| LoggerTheorems.StoreExact | txn_proto2_impl.cc:376-382 | a publish keeps every core at or above the system epoch, and every scanned core at or above the minimum of the scan, if and only if it does not store an epoch above the one it loaded and below that floor |
| LoggerTheorems.SyncIsMonotone | txn_proto2_impl.cc:190-220 | in every clean run whose publishes meet that condition the system epoch never goes back |
| LoggerTheorems.SyncExact | txn_proto2_impl.cc:196-220 | in any run the system epoch never goes back if and only if each round that finishes found a minimum not below it |
| LoggerTheorems.RunOrder | txn_proto2_impl.cc:158-221 | in such runs no core's published epoch is below the system epoch, nor a scanned one's below the minimum |
| LoggerTheorems.AtomicIsHarmless | txn_proto2_impl.cc:376-382 | publishes that never lower a core's epoch all meet that condition |
| LoggerTheorems.HarmlessIsAsserted | txn_proto2_impl.cc:196-200 | where publishes meet it the persister's assertion holds in every round |
| LoggerRing.SlotsDistinct | txn_proto2_impl.cc:264-290 | within one lap of 128, two epochs with the same slot are equal |
| LoggerRing.ScheduleRing | txn_proto2_impl.cc:318-329 | counting a buffer adds its transactions to its own epoch's slot only |
| LoggerRing.HarvestRing | txn_proto2_impl.cc:202-218 | harvesting an epoch moves its count and nothing else to the total |
| LoggerRing.AdvanceRing | txn_proto2_impl.cc:202-220 | once all epochs up to a point are harvested the lap may move there |
| LoggerRing.RunRing | txn_proto2_impl.cc:202-329 | the ring invariant holds in every state of every clean run in which the persister's assertion holds |
| LoggerRing.CountedOnce | txn_proto2_impl.cc:202-220 | in such runs, between rounds, the persisted count of a core is the number of its transactions up to the system epoch |
| LoggerRing.CountIsSize | txn_proto2_impl.cc:202-220 | that number is the size of the set of entries at or below the epoch |
| LoggerRing.LateRound | txn_proto2_impl.cc:196-220 | a round against the assertion leaves the count right if and only if the core has no transaction between the minimum and the system epoch |
| LoggerRing.NoSlotShared | txn_proto2_impl.cc:264-290 | in such runs, a slot a logger may count into is never the slot of an epoch the persister has yet to harvest |
| LoggerRing.SharesExact | txn_proto2_impl.cc:202-217 | the next buffer of a core shares a slot with an epoch to be harvested if and only if the first epoch after the system epoch with that slot is not above the minimum |
| LoggerRing.LapIsSafe | txn_proto2_impl.cc:264-290 | in every clean run a buffer within 128 epochs of the system epoch shares no slot |
| LoggerExamples.UncleanBypass | txn_proto2_impl.cc:162-188 | a run that publishes an epoch for a core whose transaction of that epoch is not written |
| LoggerExamples.HiddenBuffer | circbuf.h:68-72 | a run in which a dequeue between the two loads of the persister's test hides a queued buffer, and an epoch is published that is not written |
| LoggerExamples.SyncCanGoBack | txn_proto2_impl.cc:190-220 | a run with clean bypasses that takes the system epoch from 4 to 2 |
| LoggerExamples.SyncCanGoBackLater | txn_proto2_impl.cc:190-220 | the same in a clean run without a publish between what it loaded and the system epoch |
| LoggerExamples.CountCanBeWrong | txn_proto2_impl.cc:202-220 | a clean run after which a transaction of epoch 3 is counted while the system epoch is 2 |
| LoggerExamples.SlotCanBeShared | txn_proto2_impl.cc:264-290 | a clean run in which a logger may count epoch 131 into the slot being harvested for epoch 3 |
| Assignments.AssignmentsValid | txn_proto2_impl.h:159-179 | accepts if and only if there are no more lists than files and every worker is in exactly one list once |
| Assignments.DefaultAssignments | txn_proto2_impl.cc:93-110 | the computed assignment is valid: one worker a logger if there are files for all, and otherwise consecutive slices, one a file, of the quotient and with the remainder in the last |
| Assignments.CoversEachCore | txn_proto2_impl.cc:271-274 | under a valid assignment every core is visited for exactly one worker, and that one is assigned once |
| Assignments.SeenAll | txn_proto2_impl.h:170-178 | without repeats or strangers, seeing as many workers as there are means seeing each |
| Assignments.Rejects | txn_proto2_impl.h:171-176 | a repeat or a stranger spoils every completion of the assignment |
| CircBuf.Fifo | circbuf.h:31-89 | in every run whose successful compare-and-swaps take free slots, the items dequeued so far are, in order, the first of those enqueued in the order of the successful swaps, and peekall returns the next of them |
| CircBuf.Returned | circbuf.h:56-66 | what a dequeue returns is the last of the items dequeued so far, and never null |
| CircBuf.NoOverwrite | circbuf.h:37-53 | throughout a run every claimed slot is empty and has one claimer, if and only if each successful compare-and-swap takes a slot neither full nor claimed |
| CircBuf.CasExact | circbuf.h:45-53 | one compare-and-swap keeps the ring invariant, and what the code asserts after it, if and only if it fails or takes a free slot |
| CircBuf.LaplessIsSafe | circbuf.h:37-53 | in runs without a full lap during one enqueue each successful compare-and-swap takes a free slot |
| CircBuf.SingleEnqueuer | circbuf.h:31-54 | so it does in every run with one enqueuer |
| CircBuf.PeekElsewhere | circbuf.h:68-72 | a peek by another thread during which the tail does not move sees the first item, or nothing if and only if that is not stored yet |
| CircBuf.StepKeeps | circbuf.h:31-89 | every load and store, and every compare-and-swap that fails or takes a free slot, keeps the ring invariant |
| CircBuf.RunInv | circbuf.h:31-89 | that invariant holds in every state of every run whose successful compare-and-swaps take free slots |
| CircBuf.SlotClaimedTwice | circbuf.h:37-53 | a run in which two enqueuers hold the same slot |
| PxQueue.Queue.constructor | pxqueue.h:50-55 | a new queue is valid and empty, with no spare groups |
| PxQueue.Queue.IsEmpty | pxqueue.h:202-206 | answers true if and only if the queue has no entries |
| PxQueue.Queue.Enqueue | pxqueue.h:150-190 | appends one entry at its tick and at most one group; groups stay non-empty, bounded, sorted and linked |
| PxQueue.Queue.EnsureFreelist | pxqueue.h:192-200 | leaves a spare group, new or one that was there |
| PxQueue.Queue.AllocFreelist | pxqueue.h:314-325 | puts n new groups in front of the spare ones |
| PxQueue.Queue.EmptyAcceptFrom | pxqueue.h:243-269 | splits the source exactly into the entries up to the tick, which move, and the rest, which stay; no group is lost or shared |
| PxQueue.Queue.TransferAll | pxqueue.h:271-282 | all spare groups move to the front of the other queue's, in order |
| PxQueue.Queue.TransferSome | pxqueue.h:283-298 | the first n spare groups move, one by one and so reversed; the rest stay |
| PxQueue.Queue.Clear | pxqueue.h:301-312 | all live groups become spare groups |
| PxQueue.Queue.Collect | pxqueue.h:117-126 | the iterator visits exactly the entries, in order |
| PxQueue.AcceptContents | pxqueue.h:243-269 | cutting a sorted chain of groups at a tick cuts its entries at that tick |
| PxQueue.ContentsJoin | pxqueue.h:117-126 | the entries of two chains joined are the entries of one followed by those of the other |
| PxQueue.NoRepeat | pxqueue.h:208-238 | no group occurs twice on a chain that ends |
| ArenaLists.PopKeeps | allocator.cc:266-293 | taking the first block off a list leaves all lists linked and the block on none |
| ArenaLists.PushKeeps | rcu.cc:140-163 | putting a block in front of a list keeps all lists linked and disjoint |
| ArenaLists.JoinKeeps | allocator.cc:296-306 | splicing one list in front of another keeps all lists linked, each with its own blocks |
| Arenas.ArenaSizeFits | allocator.h:45-51 | a request has an arena if and only if it is between 1 byte and 512; its block fits with less than one alignment unit to spare |
| Arenas.InitializePage | allocator.cc:154-188 | the page is carved into all aligned blocks that fit, linked in order; other memory is untouched |
| Arenas.PointerCpu | allocator.h:64-76 | the CPU computed from a pointer is the one its block was carved for |
| Arenas.CarveBlocks | allocator.cc:221-264 | blocks of a new page are new, aligned and inside their region below the bump pointer |
| Arenas.CarveDisjoint | allocator.cc:154-188 | no two blocks ever carved overlap |
| Allocators.Allocator.constructor | allocator.cc:78-139 | all lists and regions are empty and the regions aligned |
| Allocators.Allocator.PointerToCpu | allocator.h:64-76 | returns the CPU of the block |
| Allocators.Allocator.AllocateArenas | allocator.cc:190-211 | hands the CPU's whole list to the thread if it is not empty, and only else a new page; fails if and only if the list is empty and the region used up; no other block moves |
| Allocators.Allocator.EnsureArena | rcu.h:165-172 | succeeds if and only if the thread, the CPU or the region can supply a block, and asks them in that order |
| Allocators.Allocator.Alloc | rcu.cc:103-126 | returns a block large enough that was not handed out, if and only if one can be supplied: the first of the thread's list, or of the CPU's if that is empty; no handed-out block changes |
| Allocators.Allocator.Dealloc | rcu.cc:140-163 | the block goes to the thread's list of its class and no other block moves |
| Allocators.Allocator.CollectAll | allocator.cc:269-295 | every block of the thread moves to the list collected for its own CPU, and the tails are right |
| Allocators.Allocator.SpliceAll | allocator.cc:296-307 | every collected list goes back to its CPU's list of the same class |
| Allocators.Allocator.ReleaseArenas | allocator.cc:266-308 | every block of the thread is back on the list of its own CPU and size class, and no other block moves |

## Left out

- Memory model: all machines assume sequential consistency; fences and memory orders are not modelled.
- Tree: a map from keys to tuples with a version number per leaf that inserts bump and removals may bump. Leaves are fixed, so splits, range scans and the rest of Masstree are not modelled.
- Reads of own writes: excluded from the commit machine, because they return the first write-set entry and not the latest (txn.h:779-790).
- Writers: whole records only. Field-mask and delta writers depend on record encoders outside this model; sizes are not limited to 16 bits.
- CommitSteps.StepInv: an install is one step, although it stores the record, clears the old tuple's latest flag and stores the replacement in the tree one after the other, all under the tuple's lock; so are the removal of a marker with its unlock, where the marker's own version fails every validation in between, and the cleaner's clearing of the latest flag with its unlock. The commit machine installs the last write of a tuple once; that an insert followed by an overwrite amounts to this is `WriteSets.CommitWrites`.
- CommitTheorems.SnapshotIsPrefix: a read of one tuple is one step, which `Seqlock.NoTornRead` justifies; a snapshot searches one key at a time, and tuples of the commit machine are never given back, which is `VersionGc.NoReclaimedAccess`.
- can_read_tid: always true in this protocol, so it has no branch in the model.
- Snapshots and GC switched off: `PROTO2_CAN_DISABLE_SNAPSHOTS` and `PROTO2_CAN_DISABLE_GC` builds are not modelled. The read-only multiplier is 25, its release value.
- Bit masks: ids are packed by multiplication and unpacked by division; epochs are unbounded.
- Rcu.InOrderOnce: does not model the truncation of `last_reaped_epoch_` to 32 bits.
- Seqlock.NoTornRead: holds for reads during which the version number changes fewer than 2^27 times.
- VersionGc.RunInv: tuple names are never reused after reclamation, and a tuple inserted with no value is never queued, as in the source.
- VersionGc.StepKeeps: locks are per key; the cleaner waits for the key's writer instead of taking the tuple's lock bit, and its removal of the key, the clearing of the latest flag and the RCU free are one step.
- VersionGc.NoReclaimedAccess: tuples of aborted inserts, which go straight to RCU, and tuples inserted but not committed are not in this machine.
- PurgeThreadOutstandingGCTasks: uses another threshold than the post-transaction cleaner, and the safety argument does not cover it.
- Logger.StepKeeps: the first of the persister's two tests for an empty queue, which only saves it an attempt to lock, is left out.
- Logger: LZ4 compression, the horizon buffer, buffer sizes, file writes and fsync, latency statistics and the worker's wait for a free buffer are not modelled; a logger may stop gathering at any point, which covers its limit of one `writev`.
- Allocators.Allocator.Alloc: returns `None` where the source falls back to `malloc` or stops for lack of memory.
- Allocators.Allocator.ReleaseArenas: one thread's call runs without interleaving; region locks are not modelled. `mmap`, NUMA, page faulting, `MEMCHECK_MAGIC` and the release threshold are left out.
- Ticker: the sleep between ticks and `start_us` are left out; a guard's completed ticks are counted from its load of the current tick.
- Small containers, varint, event counters, the stats server, benchmarks and follower replay: easy, instrumentation, or resting on code outside this model.
