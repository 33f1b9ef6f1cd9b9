# Mooncache in Dafny

Mooncache is a write-once response cache in front of a model vendor. A *master* keeps object metadata, tenant quotas,
leases and bump allocation; *store nodes* keep bytes in a DRAM arena with checksums, backed by encrypted SSD files;
*gateways* fingerprint requests, look responses up, and on a miss reserve, write and commit (or revoke) them, coalescing
concurrent misses behind one leader. This project models those parts and proves what they guarantee, alone and together.

## How the modules fit

| part | modules |
|---|---|
| allocation, objects, quotas, leases | `Segments`, `Objects` |
| the master as functions on its state, what each call does, its invariant, its runs | `Master`, `Eviction`, `MasterRuns`, `MasterOutcomes`, `MasterTheorems`, `Placement` |
| the master as an object updated in place, its snapshot, the service around it | `MasterState`, `Snapshots`, `MasterApp` |
| what a reloaded master does to the bytes stored before | `ReloadedSpace` |
| the store as functions and as an arena object | `Store`, `MemoryStore` |
| master + store + gateways + readers + administrator, interleaved | `Cluster`, `ClusterSafety`, `ClusterVisibility`, `ClusterRemoval`, `ClusterWriters` |
| the simple cache the cluster refines | `WriteOnce`, `ClusterRefinement` |
| coalescing of misses | `Singleflight` |
| canonical JSON, its text, a reader by the grammar of RFC 8259 | `Json`, `JsonText`, `JsonReader`, `JsonReading`, `JsonCompact` |
| what parsing keeps of stored JSON; the fingerprint | `JsonCodec`, `Fingerprint` |
| event streams and their stored form | `Sse`, `Streaming` |
| requests through one gateway, their outcomes, and its view of the cluster | `Gateway`, `GatewayOutcomes`, `GatewayCache` |
| calls, shared flights and the cluster in one run | `EndToEnd`, `EndToEndOutcomes`, `EndToEndProgress` |
| the two-tier store node | `Ssd`, `StoreNode` |

State-changing code is a class (`SegmentAllocator`, `LeaseTracker`, `MasterState`, `MemoryStore`, `SingleflightGroup`,
`StoreNode`) whose methods are proved equal to a function of the old state; the theorems are about those functions and
about sequences of steps of any length. Clocks, table iteration orders, lost messages, vendor replies and failures are
inputs of the steps. The digest and the cipher are arbitrary functions: results about digests end in "the right bytes, or
two different strings with the same digest". `u64` is an integer bounded by 2^64 - 1, with checked and saturating
operations written out; `usize` is taken to be 64 bits wide.

## What turned out false, and exactly when it holds

- *Visible implies readable* fails when an administrator removes a key at the wrong moment: its writer goes on to commit a
  later reservation whose region nobody has written. After any quiet run, a removal can lead to this, without further
  removals, if and only if the segment has room and a writer of that key is under way that has stored its bytes or has
  room for them in the arena (`RemovalBreaksIffDisturbing`). In every interleaving without such a removal visible objects
  and handles are readable and commits touch only their own reservation (`VisibleIsReadable`, `HandlesStayReadable`,
  `CommitsTouchOnlyTheirOwn`). `PendingRemovalRun` is a failing run from an empty cluster.
- *A revoke touches only its own reservation* fails under a weaker condition: room, and any writer of that key under way
  (`RevokeStraysIffDisturbing`); without such removals it holds (`RevokesTouchOnlyTheirOwn`).
- Forbidding only the removal of pending reservations is not enough: in `LostReplyRun` a writer whose commit reply was lost
  revokes a second writer's reservation, the revoked entry is removed, and the second writer commits a third one's region.
- *Acknowledged commits survive failover*: where no save of a replaced leader lands, an acknowledged commit is on the master
  that reloads the register if and only if the snapshot that landed last was taken after its `put_end`
  (`FoundOnReloadIff`), and all of them stay covered if and only if each landing snapshot was taken after every commit
  acknowledged before it lands (`CoveredIffNoStaleLanding`), as it is when snapshots land in the order they were taken
  (`OrderedLandingsAreNotStale`). Late saves are decided by what the landing snapshot contains (`LandingsCoverIff`): a commit
  acknowledged by a late save can be lost even when snapshots land in order (`LateSaveLosesCommit`).
  `StaleSaveLosesCommit` is a failing run under one leader. Both start from a freshly started service.
- *A hit returns its own key's bytes* does not outlive a failover: the reloaded master allocates from offset 0 again.
  Whatever it then grants, and in whatever order its grants are written, an old handle returns another write's bytes
  exactly where one began at its offset with its length; it returns its own where none came near, in particular above all
  that was granted; else it fails unless digests collide (`OldHandlesAfterReload`). In `MisreadRun`, from a fresh service, a
  key listed after a failover reads as another key's bytes.
- *Regions are disjoint* holds in every continuation that mounts nothing more if and only if no node has two segments of
  positive length (`DisjointForeverIffSolo`).
- *A new quota counts exactly the tenant's bytes* holds if and only if those bytes fit in 64 bits (`SetQuotaExactIff`);
  `TenantBeyond64Bits` is a run in which they do not.
- *A plain body reads back unchanged*, up to key order, if and only if it is not tagged as a stream object, nests no deeper
  than the parser reads, and has only numbers that the parser prints back as they stand (`PlainBodiesReplay`); the numbers
  of a stream's final body and its depth matter in the same way, its events do not (`StoredStreamsReplay`). Any other body,
  once cached, is not what the next such call is answered with (`MisreadBodyRun`).
- *Cache-only requests never reach the vendor* holds exactly for eligible requests (`CacheOnlyReachesVendorIffIneligible`).
- *A read returns the last completed write* fails on a store node exactly while a later write stands in DRAM whose file
  could not be written: until a restart, or the next completed write, its bytes are returned (`ReadsReturnLastWrite`,
  `TornWriteRun`).
- *Parsing undoes rendering of events* holds if and only if every name and data line has no newline, no leading white
  space and no trailing carriage return (`RoundTripIffRenderable`).
- *A lease protects for 5000 ms* holds if and only if those end within 64-bit time, because the expiry saturates
  (`LeaseCoversTtlIff`); up to the saturated expiry it always protects (`LookupProtectsFromEviction`).

## Model

| member | source | states |
|---|---|---|
| `Segments.FirstFitLength` | crates/master/src/allocator.rs:41-53 | first fit finds as many segments as fit, capped by the replica count |
| `Segments.FirstFitSkipsNone` | crates/master/src/allocator.rs:41-53 | a fitting segment is chosen or lies after all chosen ones |
| `Segments.AllocateOutcome` | crates/master/src/allocator.rs:30-53 | an allocation succeeds if and only if length and count are positive and enough segments fit, and each error has its exact cause |
| `Segments.AllocateEffect` | crates/master/src/allocator.rs:54-67 | each replica starts at its segment's bump pointer, which moves past it without saturating; other segments stay |
| `Segments.AllocateTotals` | crates/master/src/allocator.rs:54-67 | capacity is conserved, pointers stay in bounds, and the allocated total grows by at least the object's length |
| `Segments.SegmentAllocator.MountSegment` | crates/master/src/allocator.rs:16-22 | mounting appends a segment that starts at offset 0 and changes nothing else |
| `Segments.SegmentAllocator.AllocateReplicas` | crates/master/src/allocator.rs:24-67 | the in-place loop over chosen segments yields the segments and replicas of the specification, or an error and no change |
| `Objects.SumReserved` | crates/master/src/state.rs:79-99 | folding saturating additions in any table order gives the bytes of the objects naming the tenant, clamped to 64 bits, which is its usage in a coherent table |
| `Objects.UsageChange` | crates/master/src/state.rs:306-315 | changing one object moves its tenant's total by exactly the difference of its quota bytes, and no other tenant's |
| `Objects.TenantUsageWithinTotal` | crates/master/src/state.rs:306-315 | one tenant's bytes never exceed the bytes of all objects |
| `Eviction.EvictionTakesShortestPrefix` | crates/master/src/state.rs:204-274 | for any iteration order, eviction removes exactly the shortest prefix of normal-then-soft candidates that reaches the target, or all of them, and reports its bytes |
| `Eviction.EvictionOutcome` | crates/master/src/state.rs:204-274 | only unleased, unpinned committed objects of that tenant become Evicted; the report is the usage and quota drop; soft pins go last; the target is reached tightly or no candidate is left |
| `Eviction.EvictsOneMore` | crates/master/src/state.rs:245-274 | one more eviction extends the evicted prefix by one key, releasing its bytes and lease and nothing else |
| `MasterRuns.PutStartAllOrNothing` | crates/master/src/state.rs:101-146 | on any error, including after the quota was reserved, the whole master is unchanged |
| `MasterRuns.PutStartSucceedsIff` | crates/master/src/state.rs:101-146 | a reservation is granted if and only if the key is free, the quota has room, length and count are positive and enough segments fit |
| `MasterRuns.PutStartGrants` | crates/master/src/state.rs:101-146 | a grant advances exactly the first fitting segments, adds one Reserving object and charges one quota, which stays within its limit |
| `MasterRuns.PutStartKeepsInv` | crates/master/src/state.rs:101-146 | put_start keeps the joint invariant of quotas, leases, objects and segments |
| `MasterRuns.PutEndKeepsInv` | crates/master/src/state.rs:148-160 | put_end keeps the joint invariant |
| `MasterRuns.RevokeKeepsInv` | crates/master/src/state.rs:162-172 | put_revoke keeps the joint invariant: it returns exactly what the object held |
| `MasterRuns.RemoveKeepsInv` | crates/master/src/state.rs:194-202 | remove keeps the joint invariant |
| `MasterRuns.EvictKeepsInv` | crates/master/src/state.rs:204-274 | eviction keeps the joint invariant |
| `MasterRuns.ReleaseNeverSaturates` | crates/master/src/quota.rs:47-49 | under exact accounts a release never goes below zero |
| `MasterRuns.SetQuotaExactIff` | crates/master/src/state.rs:79-99 | a quota set from the table is exact if and only if the tenant's bytes fit in 64 bits |
| `MasterTheorems.TenantBeyond64Bits` | crates/master/src/state.rs:79-99 | a run from an empty master after which a new quota does not count the tenant's bytes exactly |
| `MasterRuns.SetQuotaAgainIsNoOp` | crates/master/src/state.rs:79-99 | setting a quota to the limits it has changes nothing |
| `MasterOutcomes.PutStartRefusals` | crates/master/src/state.rs:101-146 | each refusal has its own cause, looked for in this order: taken key, quota overflow, quota limit with the bytes asked for, empty object, no replicas, no room |
| `MasterOutcomes.PutEndOutcome` | crates/master/src/state.rs:148-160 | a commit succeeds exactly for a pending key and moves its status only; each other status has its error |
| `MasterOutcomes.RevokeOutcome` | crates/master/src/state.rs:162-172 | a revoke succeeds exactly for a present key, whatever its status, and takes exactly its bytes off its tenant's account, and its lease |
| `MasterOutcomes.RemoveOutcome` | crates/master/src/state.rs:194-202 | a removal succeeds exactly for a present key, and takes exactly its bytes off its tenant's account, and its lease |
| `MasterOutcomes.LookupOutcome` | crates/master/src/state.rs:174-192 | a lookup finds exactly committed keys; its lease is recorded, numbered one higher, and runs 5000 ms, both saturating |
| `MasterOutcomes.SetQuotaOutcome` | crates/master/src/state.rs:79-99 | only a blank tenant is refused; the quota then has the limits given, lower ones too, and counts what the tenant holds, clamped |
| `MasterOutcomes.MountOutcome` | crates/master/src/state.rs:67-70 | mounting appends one segment of that node that takes exactly what its length allows |
| `MasterOutcomes.EvictionSparesTheRest` | crates/master/src/state.rs:204-274 | eviction takes only committed objects of the tenant that no running lease and no hard pin protects, softly pinned ones only once no other is left, and misses its target only when none is left |
| `MasterRuns.StepKeepsInv` | crates/master/src/state.rs:67-274 | every operation keeps the joint invariant while mounted capacity fits in 64 bits |
| `MasterTheorems.RunsKeepAccounts` | crates/master/src/state.rs:67-315 | in every run from an empty master every quota counter equals its tenant's bytes, leases sit on committed objects only, and bump pointers stay in bounds |
| `MasterTheorems.KeysAreWriteOnce` | crates/master/src/state.rs:108-172 | between removals a key keeps one reservation, its length and replicas, and its status only moves forward |
| `MasterTheorems.NoSecondGrant` | crates/master/src/state.rs:108-111 | between removals a second put_start of a key is refused and changes nothing |
| `MasterTheorems.GoneStaysGone` | crates/master/src/state.rs:148-192 | an evicted or revoked key is not found by any lookup before it is removed |
| `MasterTheorems.LookupProtectsFromEviction` | crates/master/src/lease.rs:43-63 | with a non-decreasing clock an object looked up at t stays committed and unchanged through every eviction before t + 5000 ms unless it is revoked or removed |
| `MasterTheorems.LeaseCoversTtlIff` | crates/master/src/lease.rs:18-29 | a lookup protects up to its expiry and not a millisecond longer; for the full 5000 ms if and only if they end within 64-bit time |
| `MasterTheorems.LeaseNumbersIncrease` | crates/master/src/state.rs:184-191 | in every run a later lease has a higher number than an earlier one, until the numbers run out |
| `Placement.EveryByteWasGranted` | crates/master/src/allocator.rs:54-64 | every byte below a bump pointer was granted, on that segment, by some earlier reservation |
| `Placement.GrantedRegionsAreDisjoint` | crates/master/src/allocator.rs:24-83 | in every run from empty in which no node has two segments of positive length, all regions ever granted, by one reservation or several, are pairwise disjoint |
| `Placement.GrantedRegionsFit` | crates/master/src/allocator.rs:54-64 | every region ever granted lies below its segment's bump pointer, inside the segment |
| `Placement.DisjointForeverIffSolo` | crates/master/src/allocator.rs:16-67 | after any run from empty, every continuation that mounts nothing more keeps all granted regions disjoint if and only if no node has two segments of positive length |
| `Placement.ReplicasOnDistinctNodes` | crates/master/src/allocator.rs:41-67 | if no node has two segments of positive length, the replicas of one reservation lie on different nodes |
| `Placement.DoubleMountOverlaps` | crates/master/src/allocator.rs:16-22 | whenever a node has two segments of positive length, regions overlap already or after one more reservation |
| `Snapshots.RestoreUndoesSnapshot` | crates/master/src/state.rs:36-65 | for any enumeration order, restoring a snapshot gives back objects, quotas and eviction count, with no leases and no segments |
| `Snapshots.RestoreKeepsAccounts` | crates/master/src/state.rs:36-65 | exact quota accounts survive a snapshot and restore |
| `Snapshots.LastEntryWins` | crates/master/src/state.rs:49-65 | whatever list is loaded, a key's entry is the last one listed for it |
| `MasterState.LeaseTracker.Refresh` | crates/master/src/lease.rs:43-48 | a refresh records a lease ending 5000 ms after now, saturating |
| `MasterState.LeaseTracker.Remove` | crates/master/src/lease.rs:61-63 | removing a lease drops that key only |
| `MasterState.MasterState.FromSnapshot` | crates/master/src/state.rs:49-65 | inserting the listed objects and quotas one by one builds the restored master |
| `MasterState.MasterState.SetQuota` | crates/master/src/state.rs:79-99 | the in-place operation sets the quota from the bytes of the objects naming the tenant; in a coherent table that is the specified change; a blank tenant is refused |
| `MasterState.MasterState.Start` | crates/master/src/state.rs:101-146 | the in-place sequence of reserve, allocate, roll back or insert is the specified change |
| `MasterState.MasterState.End` | crates/master/src/state.rs:148-160 | the in-place operation is the specified change, with one error per status |
| `MasterState.MasterState.Revoke` | crates/master/src/state.rs:162-172 | the in-place operation is the specified change |
| `MasterState.MasterState.Lookup` | crates/master/src/state.rs:174-192 | only committed objects are found, and finding one advances the sequence and leases it |
| `MasterState.MasterState.RemoveObject` | crates/master/src/state.rs:194-202 | the in-place operation is the specified change |
| `MasterState.MasterState.CollectCandidates` | crates/master/src/state.rs:204-232 | walking the table in any order lists each candidate of each class exactly once |
| `MasterState.MasterState.EvictCandidateKeys` | crates/master/src/state.rs:245-274 | the loop over candidates is the specified pass |
| `MasterState.MasterState.Evict` | crates/master/src/state.rs:204-243 | the whole call is the specified eviction, for some enumeration of the candidates |
| `MasterState.MasterState.MetadataSnapshot` | crates/master/src/state.rs:36-47 | the lists built from the tables are a snapshot of the master |
| `Store.StoreStep` | crates/store/src/memory.rs:29-116 | every operation keeps chunks at or below a bump pointer that never decreases or leaves the arena, keeps recorded digests those of the last write at their offset, and changes nothing when it fails |
| `Store.ReadsAreLastWrites` | crates/store/src/memory.rs:59-116 | with overlapping writes, a successful read returns the bytes last written at that offset with that length, or a digest collision |
| `Store.UndisturbedWritesReadBack` | crates/store/src/memory.rs:59-116 | a write that nothing later overlapped reads back exactly |
| `Store.WriteThenRead` | crates/store/src/memory.rs:59-98 | exactly when a preallocated write succeeds, that it reads back, and that disjoint chunks read as before |
| `Store.AllocationsAreFresh` | crates/store/src/memory.rs:29-75 | an allocation is disjoint from every chunk recorded through either path |
| `Store.AllocateOutcome` | crates/store/src/memory.rs:29-57 | an allocation succeeds if and only if it is not empty and fits behind what was handed out, to the last byte; each refusal tells what is left |
| `Store.WriteOutcome` | crates/store/src/memory.rs:77-98 | a write succeeds if and only if its handle is recorded as named and is filled exactly, rewriting included; the bytes are then held and the rest stays |
| `Store.PreallocatedRefusals` | crates/store/src/memory.rs:59-75 | why a write to a granted region is refused, in the order in which the store looks |
| `Store.ReadOutcome` | crates/store/src/memory.rs:100-116 | a read gives the bytes where they lie exactly if their digest is the recorded one; each refusal has its own cause |
| `MemoryStore.MemoryStore.Allocate` | crates/store/src/memory.rs:29-57 | the in-place operation is the specified change |
| `MemoryStore.MemoryStore.Write` | crates/store/src/memory.rs:77-98 | writing to an allocated chunk copies the bytes and records their digest, as specified |
| `MemoryStore.MemoryStore.WriteAt` | crates/store/src/memory.rs:59-75 | a preallocated write validates, records the chunk, raises the bump pointer and writes, as specified |
| `MemoryStore.MemoryStore.Read` | crates/store/src/memory.rs:100-116 | a read is checked against handle, state and digest, as specified |
| `ClusterSafety.GrantedRead` | crates/gateway/src/cache_flow.rs:672-691 | a granted region reads as its writer's bytes once written and as an invalid handle before |
| `ClusterSafety.ActionIsSafe` | crates/gateway/src/cache_flow.rs:672-766 | every step of every participant keeps grants stacked, table, store, writers and readers tied to grants, and written regions written |
| `ClusterSafety.InterleavingsAreSafe` | crates/gateway/src/cache_flow.rs:672-766 | every state of every interleaving from an empty cluster satisfies that invariant |
| `ClusterSafety.HitsReturnWhatWasWritten` | crates/gateway/src/cache_flow.rs:672-766 | in every interleaving, with lost requests and replies, a hit returns exactly the bytes some writer stored under a grant for that same tenant and key |
| `ClusterVisibility.VisibleIsReadable` | crates/gateway/src/cache_flow.rs:713-735 | if no removal hits, while the segment has room, a key with a writer that may yet commit, every committed object's region reads back in full |
| `ClusterVisibility.HandlesStayReadable` | crates/gateway/src/cache_flow.rs:672-691 | in those runs a handle once returned reads the same bytes at every later step, even after eviction or revocation |
| `ClusterVisibility.CommitsTouchOnlyTheirOwn` | crates/gateway/src/cache_flow.rs:727-729 | in those runs a commit that finds its key flips the reservation the writer was granted, never a rival's |
| `ClusterWriters.WritersMoveAsTold` | crates/gateway/src/cache_flow.rs:713-766 | in every interleaving a write or commit that is lost, refused or goes unheard sends its writer on to revoke its own reservation, a success it hears of sends it on, and nothing else moves it |
| `ClusterWriters.WritersAreSettled` | crates/gateway/src/cache_flow.rs:713-766 | in every interleaving a writer once under way is done only after it stopped, revoked, or heard that its commit made its pending key visible |
| `ClusterWriters.StartsMoveAsTold` | crates/gateway/src/cache_flow.rs:713-725 | a delivered request for a reservation is granted exactly if key, quota and segment allow it, and any other changes nothing |
| `ClusterWriters.StepsLeaveBehind` | crates/gateway/src/cache_flow.rs:727-766 | a delivered write that fits is stored, a delivered commit shows a pending key, a delivered revoke leaves a present key revoked and its bytes returned, and what is lost changes nothing |
| `ClusterWriters.NothingIsLeftPending` | crates/gateway/src/cache_flow.rs:713-766 | in every interleaving without losses and stops, each pending entry is the reservation of a writer still under way |
| `ClusterWriters.WritersCanFinish` | crates/gateway/src/cache_flow.rs:713-766 | from every reachable state a writer under way can be done within three steps of its own, and its key is then no longer pending |
| `ClusterVisibility.RevokesTouchOnlyTheirOwn` | crates/gateway/src/cache_flow.rs:753-766 | if removals also spare keys of writers that can only revoke, a revoke that finds its key hits the writer's own reservation |
| `ClusterRemoval.RevokeStraysIffDisturbing` | crates/gateway/src/cache_flow.rs:753-766 | after any strictly quiet run a removal can lead to a writer about to revoke another's reservation if and only if the segment has room and a writer of that key is under way |
| `ClusterRemoval.RemovalBreaksIffDisturbing` | crates/gateway/src/cache_flow.rs:713-735 | after any quiet run, a removal can lead without further removals to a visible unreadable object if and only if the segment has room and a writer of that key may yet commit |
| `ClusterRemoval.PendingRemovalRun` | crates/gateway/src/cache_flow.rs:713-735 | from an empty cluster: a key is removed under a writer that had only reserved it, reserved again, and committed unwritten |
| `ClusterRemoval.LostReplyRun` | crates/gateway/src/cache_flow.rs:713-766 | from an empty cluster: though only settled entries are removed, a lost commit reply and the revoke it causes end in a visible unreadable object |
| `ClusterRemoval.InterleavingsKeepAccounts` | crates/gateway/src/cache_flow.rs:672-766 | in every interleaving the master's joint invariant holds: exact quotas, leases on committed objects, objects backed by the segment |
| `ClusterRefinement.ActionRefines` | crates/gateway/src/cache_flow.rs:672-766 | every step of the cluster is one event of the write-once map |
| `ClusterRefinement.ClusterRefinesWriteOnceMap` | crates/gateway/src/cache_flow.rs:672-766 | every interleaving is, step by step, a run of the write-once map from empty |
| `Singleflight.RunsKeepInv` | crates/gateway/src/singleflight.rs:56-153 | in every interleaving the map holds exactly the live leaders, channels tell how their leader stands, waiters hold true answers, and counts are exact |
| `Singleflight.OneLeaderPerKey` | crates/gateway/src/singleflight.rs:56-91 | live leaders have different keys, which are exactly the map's keys, and no flight has more waiters than the cap |
| `Singleflight.EndingsAreFinal` | crates/gateway/src/singleflight.rs:80-137 | a flight that was published or dropped stays so |
| `Singleflight.WaitersFollowTheirFlight` | crates/gateway/src/singleflight.rs:125-153 | a waiter gets its own flight's reply, or an error exactly when that leader was dropped, and never waits on an ended flight |
| `Singleflight.ArrivalsJoinOrLead` | crates/gateway/src/singleflight.rs:56-78 | in every run a caller whose key has a live leader becomes its waiter if and only if fewer than the cap ever joined, and changes nothing otherwise; without one it becomes the one leader of a new flight |
| `Singleflight.LeadersMoveAsTold` | crates/gateway/src/singleflight.rs:80-137 | a leader stays live until it publishes its reply, in two halves, or goes away; nothing else moves it |
| `Singleflight.WaitersMoveAsTold` | crates/gateway/src/singleflight.rs:125-153 | a waiter moves only on its turn, as its flight stands, or when it is cancelled |
| `Singleflight.SingleflightGroup.Join` | crates/gateway/src/singleflight.rs:56-78 | joining leads, waits or is over capacity, as specified |
| `Singleflight.SingleflightGroup.Publish` | crates/gateway/src/singleflight.rs:80-91 | publishing takes the entry out and sends on its channel, as specified |
| `Singleflight.SingleflightGroup.Abandon` | crates/gateway/src/singleflight.rs:125-137 | a dropped leader removes its entry and closes the channel, as specified |
| `Json.SameCanonicalIsSame` | crates/fingerprint/src/canonical_json.rs:7-21 | values with one canonical form are equal up to key order at every depth |
| `Json.SameHasSameCanonical` | crates/fingerprint/src/canonical_json.rs:7-21 | values equal up to key order have one canonical form |
| `Json.CanonicalizeIdempotent` | crates/fingerprint/src/canonical_json.rs:7-21 | canonicalising twice is canonicalising once |
| `Json.CanonicalizeValue` | crates/fingerprint/src/canonical_json.rs:7-21 | visiting sorted keys and inserting each canonical member builds the canonical value |
| `Json.SortedIsUnique` | crates/fingerprint/src/canonical_json.rs:9-16 | a set of members with distinct keys has one sorted listing |
| `Json.CanonicalIsTheSortedForm` | crates/fingerprint/src/canonical_json.rs:7-21 | the canonical form is the one value equal up to key order whose keys ascend at every depth |
| `Json.BeforeIsLexicographic` | crates/fingerprint/src/canonical_json.rs:11-13 | the order of keys is the dictionary's |
| `JsonReading.ReadingUndoesWriting` | crates/fingerprint/src/canonical_json.rs:3-5 | read by the grammar of RFC 8259, the text of a value is exactly that value, its numbers as the reader reprints them, or nothing if it nests too deep or a number is rejected |
| `JsonReading.SerializeIsInjective` | crates/fingerprint/src/canonical_json.rs:3-5 | compact JSON text determines the value it was written from |
| `JsonCompact.NoTextIsShorter` | crates/fingerprint/src/canonical_json.rs:3-5 | no JSON text that reads as the value is shorter than the one written |
| `Fingerprint.SameTextIffSameRequest` | crates/fingerprint/src/lib.rs:20-33 | two requests share the hashed text if and only if tenant, vendor, model, adapter and policy class agree and the bodies without a top-level stream are equal up to key order |
| `Fingerprint.KeysDifferUnlessHashCollides` | crates/fingerprint/src/lib.rs:20-33 | same requests share a cache key, and different ones only through an explicit collision |
| `Fingerprint.FingerprintReadsAs` | crates/fingerprint/src/lib.rs:20-33 | the hashed text is JSON for the seven named members in the order of their names, the body among them without its stream and with keys in order at every depth |
| `Fingerprint.StreamFlagIgnored` | crates/gateway/src/cache_flow.rs:818-830 | a top-level stream member of any value at any position of a body leaves its fingerprint as it was |
| `Fingerprint.DropStreamMembers` | crates/gateway/src/cache_flow.rs:818-830 | removing stream keeps exactly the other members |
| `Sse.ParseSseEvents` | crates/gateway/src/vendor.rs:196-224 | the loop over lines returns the specified events, or an error when there are none |
| `Sse.FlushEvent` | crates/gateway/src/vendor.rs:226-240 | flushing emits one event for pending data and clears name and data |
| `Sse.EventsSplitAtBlankLines` | crates/gateway/src/vendor.rs:196-240 | parsing two texts joined by a blank line is parsing each and concatenating |
| `Sse.EventsAreBlocks` | crates/gateway/src/vendor.rs:196-240 | the events of a text are those of its blocks between blank lines: each block with data gives one event, its data lines joined, under the last name in the block |
| `Sse.FieldLineMeans` | crates/gateway/src/vendor.rs:200-218 | a name or data line means its value after any white space and before any carriage returns |
| `Sse.OtherLinesChangeNothing` | crates/gateway/src/vendor.rs:200-218 | a line that is neither blank nor a name or data line, inserted at the start of any line, changes nothing |
| `Sse.CommentsChangeNothing` | crates/gateway/src/vendor.rs:196-224 | a comment line inserted at the start of any line, the first included, changes nothing |
| `Sse.ParseInvertsRender` | crates/gateway/src/vendor.rs:196-240 | events that are safe on the wire are parsed back exactly |
| `Sse.RoundTripIffRenderable` | crates/gateway/src/vendor.rs:196-240 | rendering and parsing give the events back if and only if every name and data line is safe on the wire |
| `Streaming.StoredStreamsReplay` | crates/gateway/src/streaming.rs:35-64 | a stored stream that the parser accepts gives streaming readers its events in order and both kinds of reader its final body with numbers reprinted, which is the body itself if and only if the stored object is stable |
| `Streaming.PlainBodiesReplay` | crates/gateway/src/streaming.rs:45-71 | a plain body reads back unchanged up to key order if and only if it is untagged and stable, and is never taken for a stream if and only if it is untagged and accepted |
| `Streaming.CollectStream` | crates/gateway/src/streaming.rs:23-33 | a captured stream is every vendor event in order with the body its last completion carries; the error is the first failure, or that there is no completion with JSON data |
| `Streaming.AggregateIff` | crates/gateway/src/streaming.rs:73-91 | the aggregated body is the first response member of the last response.completed event's data if that is an object with one, else all of the data; there is none exactly without such an event or JSON data |
| `Streaming.ReadersAccept` | crates/gateway/src/streaming.rs:45-71 | of text that parses, a plain reader gets the value unless it is tagged, and a streaming reader nothing; of a tagged value both get what a stream object says, unknown members ignored, or an error if it is none |
| `Streaming.StoredTextReadsAs` | crates/gateway/src/streaming.rs:35-43 | the text stored for a stream is JSON for the tag, the events in order and the final body |
| `Streaming.CapturedStreamsReplayInBothModes` | crates/gateway/src/streaming.rs:23-91 | a captured stream whose stored form is stable replays its events, and to plain readers the response of its last response.completed event |
| `JsonCodec.ReaderIsSound` | crates/gateway/src/streaming.rs:45-64 | reading by the grammar meets what is assumed of parsers, whatever it makes of numbers and however deep it reads |
| `JsonCodec.ParsingUndoesWriting` | crates/gateway/src/streaming.rs:45-64 | a parser that agrees with the grammar up to key order returns what was serialised, its numbers reprinted, if it accepts it at all |
| `JsonCodec.ReadsBackIffStable` | crates/gateway/src/streaming.rs:45-64 | serialised and parsed, a value is itself up to key order if and only if its numbers are printed back as they stand and it nests within the limit |
| `Gateway.StoredReadsBack` | crates/gateway/src/cache_flow.rs:641-670 | the object stored for a vendor reply gives back that reply's body and stream if and only if it is stable and not a tagged plain body |
| `Gateway.RunsKeepInv` | crates/gateway/src/cache_flow.rs:326-592 | in every run of calls, replies, shared flights and withdrawals, entries trace back to vendor replies for the same key, and so do answers if every entry is untagged and stable when it lands |
| `Gateway.AnswersBelongToTheRequest` | crates/gateway/src/cache_flow.rs:326-592 | if every plain entry is untagged and every entry stable when it lands, every answer, from vendor, cache or another caller's flight, is what the vendor produced, up to key order, for the same request of the same tenant, or exhibits a digest collision; streaming callers get its events |
| `Gateway.ModesAreRespected` | crates/gateway/src/cache_flow.rs:363-592 | in every run entries come only from eligible default, write-only or force-replay calls, and no eligible cache-only call reaches the vendor |
| `Gateway.MisreadBodyRun` | crates/gateway/src/cache_flow.rs:641-653 | from an empty gateway: any tagged or unstable plain body, once cached, is not what the next such call is answered with |
| `GatewayCache.ClusterMovesEntries` | crates/gateway/src/cache_flow.rs:672-766 | each step of the cluster leaves the entries a gateway sees alone, withdraws some, or lands under a free key what a writer reserved under it |
| `GatewayCache.HitIsTheEntrySeen` | crates/gateway/src/cache_flow.rs:672-691 | in every interleaving, whatever happens between lookup and read, a hit carries the looked-up key and the bytes of the entry visible under it at the lookup |
| `EndToEnd.RunsKeepInv` | crates/gateway/src/cache_flow.rs:326-766 | in every joint run of calls, flights and cluster, grants, flights, replies and answers trace back to the vendor's reply for the same key |
| `EndToEnd.AnswersAreTheVendors` | crates/gateway/src/cache_flow.rs:326-766 | whatever a call is answered with, by the vendor, the store or another caller's flight, in any interleaving with writers, evictions, revokes, removals and lost messages, is what the vendor produced for the same request of the same tenant, or exhibits a digest collision, provided what is reserved reads back |
| `EndToEndOutcomes.CallsMoveAsTold` | crates/gateway/src/cache_flow.rs:326-766 | in every joint run each step takes its call exactly where mode, form, cache, flight and vendor say, and moves nothing else |
| `EndToEndOutcomes.StoreAnswersIff` | crates/gateway/src/cache_flow.rs:408-691 | in every joint run in which what is reserved reads back, a call is answered from the store if and only if it may read the cache, its key was listed when it arrived, and the store gave bytes of its form; the answer replays the reply they are the text of |
| `EndToEndProgress.CallsCanMove` | crates/gateway/src/cache_flow.rs:326-766 | in every joint run a call that is not answered yet has a step of its own to take |
| `EndToEndProgress.WaitersAreNotStranded` | crates/gateway/src/singleflight.rs:80-153 | in every joint run a waiter's flight is led by a call still under way, is about to be sent, or has ended, and then its next turn answers it |
| `Gateway.CacheOnlyReachesVendorIffIneligible` | crates/gateway/src/cache_flow.rs:363-431 | a cache-only request goes to the vendor exactly when it is not eligible |
| `GatewayOutcomes.ArrivalOutcome` | crates/gateway/src/cache_flow.rs:363-560 | in every run, for all modes and both forms: exactly which calls go straight to the vendor, miss, are told that nothing is cached, fail, or are answered from an entry |
| `GatewayOutcomes.AnsweredFromEntryIff` | crates/gateway/src/cache_flow.rs:408-556 | in every run with replayable entries a call is answered on arrival if and only if it is eligible, its mode reads, it streams or the cache is up, the read worked and its key has an entry of its form; the answer replays the stored reply |
| `GatewayOutcomes.RespondOutcome` | crates/gateway/src/cache_flow.rs:484-592 | a reply is what the vendor produced, and becomes an entry exactly if the call had missed, is not read-only, the write landed and the key was free |
| `GatewayOutcomes.ShareOutcome` | crates/gateway/src/cache_flow.rs:433-480 | only plain calls with one key, read-only both or neither, share a flight, and the waiter is answered as the leader was |
| `GatewayOutcomes.WantsStreamIff` | crates/gateway/src/cache_flow.rs:325-325 | a call streams exactly if its body is an object whose stream member is true |
| `Ssd.ObjectFilesAreDistinct` | crates/store/src/ssd.rs:170-202 | different objects never share a file |
| `Ssd.TempIsNotObject` | crates/store/src/ssd.rs:170-184 | a temporary file is never an object's file |
| `Ssd.TempFilesDiffer` | crates/store/src/ssd.rs:179-184 | writers of one object with different suffixes never meet in a temporary file |
| `Ssd.FileRoundTrips` | crates/store/src/ssd.rs:63-164 | a file written for an object decodes to its bytes |
| `Ssd.PersistThenRead` | crates/store/src/ssd.rs:63-164 | persisting an object makes it readable and leaves every other object's file as it was |
| `Ssd.PersistOutcome` | crates/store/src/ssd.rs:63-127 | persisting succeeds exactly for a valid name whose temporary file is not there, never leaves one behind, and touches nothing else |
| `Ssd.DecodesIff` | crates/store/src/ssd.rs:129-164 | a file decodes exactly if it is the magic, a nonce and a ciphertext for that object; each shorter file has its error |
| `Ssd.FilesAreBoundToTheirObject` | crates/store/src/ssd.rs:204-206 | with a cipher that authenticates its associated data, one object's file is never read as another's |
| `StoreNode.ReadIsExact` | apps/store-node/src/main.rs:246-285 | in a coherent node an identified read returns what is shown of the object from either tier, and fails exactly when nothing is |
| `StoreNode.NodeRunsStayCoherent` | apps/store-node/src/main.rs:227-285 | writes, writes whose persist fails at any point, promotions, restarts and crashes keep both tiers current for every object |
| `StoreNode.ReadsReturnLastWrite` | apps/store-node/src/main.rs:227-285 | in every such run an identified read returns the object's last completed write, or the bytes of a later write that reached DRAM and then failed, until a restart |
| `StoreNode.TornWriteRun` | apps/store-node/src/main.rs:227-285 | a completed write, one that fails after reaching DRAM, a restart: reads return the failed one's bytes until the restart and the completed one's after it |
| `StoreNode.WriteOutcome` | apps/store-node/src/main.rs:227-244 | a write succeeds exactly if it fits and, for an identified object, its file is replaced |
| `StoreNode.ReadOutcome` | apps/store-node/src/main.rs:246-285 | which tier serves a read: DRAM exactly if it has the chunk with its digest, the file exactly if DRAM has no written chunk there, after which DRAM serves the next read; a corrupted chunk is an error whatever the file holds |
| `StoreNode.ReadsPromote` | apps/store-node/src/main.rs:246-285 | in every run a read of what a node has comes from DRAM if it is there and else from its file, and the next one from DRAM |
| `StoreNode.StoreNode.Write` | apps/store-node/src/main.rs:227-244 | DRAM first, then the file of an identified object, as specified |
| `StoreNode.StoreNode.Read` | apps/store-node/src/main.rs:246-285 | DRAM first, then the file, which is written back into DRAM, as specified |
| `MasterApp.RunsStayOk` | apps/master/src/main.rs:466-474 | in every run, however handlers overlap and saves fail or land late, the recorded commits are exactly the table's, every snapshot holds exactly its commits, and a handler's commit stands in its snapshot until revoked or removed |
| `MasterApp.StepsMoveAsTold` | apps/master/src/main.rs:393-474 | handlers and lookups are operations of the master; a saved or half-failed save puts its snapshot into the register; a new leader starts on what the register holds, with one default segment and no leases |
| `MasterApp.FoundOnReloadIff` | apps/master/src/main.rs:393-407 | without late landings, an acknowledged commit is on the reloaded master if and only if the snapshot that landed last was taken after its put_end, which decides whether the key is found unless a removal or failover lay between; in any run a key is found, with its replicas, exactly where a commit of it stood in that snapshot |
| `MasterApp.LandingsCoverIff` | apps/master/src/main.rs:466-474 | every acknowledged commit is covered by the register at every step if and only if each landing snapshot contains the commits acknowledged before it, late saves included |
| `MasterApp.CoveredIffNoStaleLanding` | apps/master/src/main.rs:466-474 | without late landings, every acknowledged commit is covered at every step if and only if each landing snapshot was taken after the put_end of every commit acknowledged before it |
| `MasterApp.OrderedLandingsAreNotStale` | apps/master/src/main.rs:466-474 | if snapshots land in the order they were taken and none of a replaced leader, none is stale |
| `MasterApp.AckedCommitsSurviveFailover` | apps/master/src/main.rs:393-407 | if every landing snapshot contains what is acknowledged, a commit once acknowledged is found, with its replicas, on every master that reloads the register, across failovers and late saves, until revoked, removed or acknowledged anew |
| `MasterApp.StaleSaveLosesCommit` | apps/master/src/main.rs:551-574 | on a freshly started service, overlapping commits of any two keys whose snapshots land out of order lose an acknowledged commit |
| `MasterApp.LateSaveLosesCommit` | apps/master/src/main.rs:393-407 | from a fresh service, snapshots landing in the order taken: a replaced leader's save lands late and acknowledges a commit, which the new leader's next save loses |
| `ReloadedSpace.ReloadedGrantsStack` | apps/master/src/main.rs:393-407 | all grants of a reloaded master lie on its one segment, each at the bump pointer of its moment, pairwise disjoint and below the pointer at the end |
| `ReloadedSpace.ReloadedBytesGranted` | crates/master/src/allocator.rs:54-67 | every byte below the reloaded master's bump pointer belongs to one of its grants |
| `ReloadedSpace.OldHandlesAfterReload` | apps/master/src/main.rs:393-407 | after any run of the reloaded master and any writes of its grants, an old handle returns another write's bytes exactly where one began at its offset with its length, its own where none came near, and otherwise an error or a digest collision |
| `ReloadedSpace.MisreadRun` | apps/master/src/main.rs:393-407 | from a fresh service: a key committed and written, a failover, another key reserved and written; the first is still listed and its handle reads the second's bytes |

## Left out

- HTTP routing and clients, authentication, vendor allow-lists, configuration, metrics, the admin service and the control panel: plumbing and tables that would only add easy members.
- Request eligibility rules: whether a call may be cached is an input of `Gateway.Decide`.
- Cluster scope: one segment, one store and one replica, as the gateway uses them; segments mounted while the cluster works, and store writes that arrive after their writer gave up, are not modelled.
- Pins: no operation of the master sets them, so they vary only through the states the eviction lemmas quantify over.
- Lease identifiers are their sequence number rather than the text `lease-N`, and error texts are constructors.
- Tenant quotas are values in a map that the master replaces, not objects of their own.
- JSON: a number is its text; what the parser makes of it is an arbitrary function from number texts to number texts, or a rejection, and the nesting limit an arbitrary number. The parser is any function that agrees with `JsonReader` on every text, up to the order of object members. Text encoding is any invertible function.
- Event rendering: the repository has no renderer of vendor streams; `Sse.Render` is the usual wire form.
- SSD tier: errors on reading files, concurrent writers of one object and writes without an object identity are outside the node's runs, as is the index kept for metrics.
- Store node without an SSD tier, which only the repository's own checks construct.
- etcd, leader election and lock poisoning: the metadata store is one atomic register, and a save may fail before or after it landed.
- `Gateway` runs read the cache in one step and share answers between calls with one flight key; `EndToEnd` has the separate steps. `EndToEnd` has the cluster's scope: one segment, one store, and no failover of the master.
- Runs after a failover in `ReloadedSpace` mount nothing more than the reloaded master's own segment.
- `Placement.DisjointForeverIffSolo`: takes the list of segments to be at most 2^64 - 1 long, as any list in memory is.
- Waiters poll in single steps instead of suspending, so scheduling and fairness are not modelled.
- SHA-256 and ChaCha20-Poly1305 are arbitrary functions; for the cipher only that decryption undoes encryption is assumed where stated.
