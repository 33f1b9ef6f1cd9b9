/**
 * One master, one store, any number of gateway writers and readers, and an administrator, as interleaved atomic steps.
 * Requests may be lost before they are served and replies may be lost after; writers may stop at any point.
 */
module Cluster {
  import opened Types
  import opened Segments
  import opened Objects
  import opened Master
  import opened Store

  /** A reservation the master granted, with the bytes its writer wants to cache. */
  datatype Grant = Grant(k: ObjKey, bytes: Bytes, replica: Replica)

  /** Where a writer is between its first call and its last. */
  datatype Writer = Reserved(grant: Grant) | Stored(grant: Grant) | Failing(grant: Grant) | Done

  datatype Reader =
    | Missed(k: ObjKey)
    | Holding(k: ObjKey, replica: Replica)
    | Answered(k: ObjKey, result: Result<Bytes, StoreError>)

  /** `grants` is history: every reservation ever granted, oldest first. */
  datatype Cluster = Cluster(
    master: Master,
    store: Store,
    writers: map<nat, Writer>,
    readers: map<nat, Reader>,
    grants: seq<Grant>)

  const REPLICA_COUNT: nat := 1

  datatype Action =
    | Start(w: nat, k: ObjKey, bytes: Bytes, delivered: bool, heard: bool)
    | WriteBytes(w: nat, delivered: bool, heard: bool)
    | Commit(w: nat, delivered: bool, heard: bool)
    | Revoke(w: nat, delivered: bool)
    | Stop(w: nat)
    | LookUp(r: nat, k: ObjKey, nowMs: u64)
    | ReadBytes(r: nat)
    | AdminRemove(k: ObjKey)
    | AdminEvict(tenant: string, target: u64, nowMs: u64, normal: seq<string>, soft: seq<string>)
    | AdminSetQuota(tenant: string, dramBytes: u64, ssdBytes: u64)

  predicate InFlight(writer: Writer) {
    !writer.Done?
  }

  ghost predicate Ready(c: Cluster, a: Action) {
    && c.store.Sized()
    && match a
       case Start(w, k, bytes, _, _) => w !in c.writers && |bytes| <= U64_MAX
       case WriteBytes(w, _, _) => w in c.writers && c.writers[w].Reserved? && |c.writers[w].grant.bytes| <= U64_MAX
       case Commit(w, _, _) => w in c.writers && c.writers[w].Stored?
       case Revoke(w, _) => w in c.writers && c.writers[w].Failing?
       case Stop(w) => w in c.writers
       case LookUp(r, _, _) => r !in c.readers
       case ReadBytes(r) => r in c.readers && c.readers[r].Holding?
       case AdminRemove(_) => true
       case AdminEvict(tenant, target, nowMs, normal, soft) =>
         Enabled(c.master, OpEvict(tenant, target, nowMs, normal, soft))
       case AdminSetQuota(_, _, _) => true
  }

  function DoStart(c: Cluster, w: nat, k: ObjKey, bytes: Bytes, delivered: bool, heard: bool): Cluster
    requires |bytes| <= U64_MAX
  {
    if !delivered then c.(writers := c.writers[w := Done])
    else
      var (master, r) := PutStart(c.master, k, |bytes|, REPLICA_COUNT);
      if r.Err? || r.value == [] then c.(master := master, writers := c.writers[w := Done])
      else
        var grant := Grant(k, bytes, r.value[0]);
        c.(master := master, grants := c.grants + [grant],
           writers := c.writers[w := if heard then Reserved(grant) else Done])
  }

  function DoWriteBytes(hash: Hash, c: Cluster, w: nat, delivered: bool, heard: bool): Cluster
    requires c.store.Sized() && w in c.writers && c.writers[w].Reserved? && |c.writers[w].grant.bytes| <= U64_MAX
  {
    var grant := c.writers[w].grant;
    if !delivered then c.(writers := c.writers[w := Failing(grant)])
    else
      var (store, r) := WritePreallocated(hash, c.store, FromReplica(grant.replica), grant.bytes);
      c.(store := store, writers := c.writers[w := if r.Ok? && heard then Stored(grant) else Failing(grant)])
  }

  function DoCommit(c: Cluster, w: nat, delivered: bool, heard: bool): Cluster
    requires w in c.writers && c.writers[w].Stored?
  {
    var grant := c.writers[w].grant;
    if !delivered then c.(writers := c.writers[w := Failing(grant)])
    else
      var (master, r) := PutEnd(c.master, grant.k);
      c.(master := master, writers := c.writers[w := if r.Ok? && heard then Done else Failing(grant)])
  }

  function DoRevoke(c: Cluster, w: nat, delivered: bool): Cluster
    requires w in c.writers && c.writers[w].Failing?
  {
    c.(master := if delivered then PutRevoke(c.master, c.writers[w].grant.k).0 else c.master,
       writers := c.writers[w := Done])
  }

  function DoLookUp(c: Cluster, r: nat, k: ObjKey, nowMs: u64): Cluster {
    var (master, found) := GetReplicaList(c.master, k, nowMs);
    c.(master := master,
       readers := c.readers[r := if found.Err? || found.value.replicas == [] then Missed(k)
                                 else Holding(k, found.value.replicas[0])])
  }

  function DoReadBytes(hash: Hash, c: Cluster, r: nat): Cluster
    requires c.store.Sized() && r in c.readers && c.readers[r].Holding?
  {
    var Holding(k, replica) := c.readers[r];
    c.(readers := c.readers[r := Answered(k, ReadChunk(hash, c.store, FromReplica(replica)))])
  }

  ghost function Act(hash: Hash, c: Cluster, a: Action): Cluster
    requires Ready(c, a)
  {
    match a
    case Start(w, k, bytes, delivered, heard) => DoStart(c, w, k, bytes, delivered, heard)
    case WriteBytes(w, delivered, heard) => DoWriteBytes(hash, c, w, delivered, heard)
    case Commit(w, delivered, heard) => DoCommit(c, w, delivered, heard)
    case Revoke(w, delivered) => DoRevoke(c, w, delivered)
    case Stop(w) => c.(writers := c.writers[w := Done])
    case LookUp(r, k, nowMs) => DoLookUp(c, r, k, nowMs)
    case ReadBytes(r) => DoReadBytes(hash, c, r)
    case AdminRemove(k) => c.(master := Remove(c.master, k).0)
    case AdminEvict(tenant, target, nowMs, normal, soft) =>
      c.(master := EvictForTenant(c.master, tenant, target, normal, soft).0)
    case AdminSetQuota(tenant, dram, ssd) => c.(master := SetTenantQuota(c.master, tenant, dram, ssd).0)
  }

  ghost predicate Init(c: Cluster) {
    && (exists nodeId: string, len: u64 :: c.master == MountSegment(EMPTY, nodeId, len))
    && IsEmptyStore(c.store)
    && c.writers == map[] && c.readers == map[] && c.grants == []
  }

  ghost predicate Step(hash: Hash, c: Cluster, a: Action, c': Cluster) {
    Ready(c, a) && c' == Act(hash, c, a)
  }

  /** Consecutive steps, of any number, from any state. */
  ghost predicate Steps(hash: Hash, states: seq<Cluster>, actions: seq<Action>) {
    && |states| == |actions| + 1
    && forall i :: 0 <= i < |actions| ==> StepAt(hash, states, actions, i)
  }

  ghost predicate StepAt(hash: Hash, states: seq<Cluster>, actions: seq<Action>, i: nat) {
    i < |actions| && i + 1 < |states| && Step(hash, states[i], actions[i], states[i + 1])
  }

  /** An interleaving of any length, from an empty cluster. */
  ghost predicate Interleaving(hash: Hash, states: seq<Cluster>, actions: seq<Action>) {
    Steps(hash, states, actions) && Init(states[0])
  }
}
