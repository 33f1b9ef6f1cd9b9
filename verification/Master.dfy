/** The master's operations as functions on its whole state, and the steps a master can take. */
module Master {
  import opened Types
  import opened Segments
  import opened Objects

  datatype Master = Master(
    objects: ObjectMap,
    quotas: map<string, Quota>,
    leases: map<ObjKey, Lease>,
    segments: seq<Segment>,
    nextLeaseSequence: u64,
    evictionsTotal: u64)

  const EMPTY: Master := Master(map[], map[], map[], [], 0, 0)

  datatype CacheError =
    | EmptyTenantId
    | NotFound
    | AlreadyExists
    | Allocation(alloc: AllocError)
    | AlreadyCommitted
    | NotWritable
    | QuotaExceeded(quota: QuotaError)

  datatype ReplicaList = ReplicaList(replicas: seq<Replica>, lease: Lease)

  function Reserve(quotas: map<string, Quota>, tenant: string, bytes: u64): Result<map<string, Quota>, QuotaError> {
    if tenant in quotas then
      match quotas[tenant].ReserveDram(bytes)
      case Ok(q) => Ok(quotas[tenant := q])
      case Err(e) => Err(e)
    else Ok(quotas)
  }

  function Release(quotas: map<string, Quota>, tenant: string, bytes: u64): map<string, Quota> {
    if tenant in quotas then quotas[tenant := quotas[tenant].ReleaseDram(bytes)] else quotas
  }

  function MountSegment(m: Master, nodeId: string, len: u64): Master {
    m.(segments := m.segments + [Segment(nodeId, len, 0)])
  }

  function SetQuotaAt(m: Master, tenant: string, dramBytes: u64, ssdBytes: u64, used: u64)
    : (Master, Result<(), CacheError>)
  {
    if IsBlank(tenant) then (m, Err(EmptyTenantId))
    else (m.(quotas := m.quotas[tenant := Quota(dramBytes, ssdBytes, used, 0)]), Ok(()))
  }

  /** A new quota starts from what the tenant's objects hold, clamped to 64 bits. */
  ghost function SetTenantQuota(m: Master, tenant: string, dramBytes: u64, ssdBytes: u64)
    : (Master, Result<(), CacheError>)
  {
    SetQuotaAt(m, tenant, dramBytes, ssdBytes, Clamp(Usage(m.objects, Some(tenant))))
  }

  function PutStart(m: Master, k: ObjKey, len: u64, count: nat): (Master, Result<seq<Replica>, CacheError>) {
    if k in m.objects then (m, Err(AlreadyExists))
    else
      match Reserve(m.quotas, k.tenant, len)
      case Err(e) => (m, Err(QuotaExceeded(e)))
      case Ok(quotas) =>
        match Allocate(m.segments, len, count)
        case Err(e) => (m.(quotas := Release(quotas, k.tenant, len)), Err(Allocation(e)))
        case Ok((segments, replicas)) =>
          var meta := ObjectMeta(k.tenant, k.key, len, Reserving, replicas, false, None);
          (m.(quotas := quotas, segments := segments, objects := m.objects[k := meta]), Ok(replicas))
  }

  function PutEnd(m: Master, k: ObjKey): (Master, Result<(), CacheError>) {
    if k !in m.objects then (m, Err(NotFound))
    else
      match m.objects[k].status
      case Reserving => (m.(objects := m.objects[k := m.objects[k].(status := Committed)]), Ok(()))
      case Writing => (m.(objects := m.objects[k := m.objects[k].(status := Committed)]), Ok(()))
      case Committed => (m, Err(AlreadyCommitted))
      case Revoked => (m, Err(NotWritable))
      case Evicted => (m, Err(NotWritable))
  }

  function PutRevoke(m: Master, k: ObjKey): (Master, Result<(), CacheError>) {
    if k !in m.objects then (m, Err(NotFound))
    else
      (m.(objects := m.objects[k := m.objects[k].(status := Revoked)],
          quotas := Release(m.quotas, k.tenant, QuotaReservedBytes(m.objects[k])),
          leases := m.leases - {k}), Ok(()))
  }

  function GetReplicaList(m: Master, k: ObjKey, nowMs: u64): (Master, Result<ReplicaList, CacheError>) {
    if k !in m.objects || m.objects[k].status != Committed then (m, Err(NotFound))
    else
      var sequence := SaturatingAdd(m.nextLeaseSequence, 1);
      var lease := NewLease(sequence, nowMs);
      (m.(nextLeaseSequence := sequence, leases := m.leases[k := lease]),
       Ok(ReplicaList(m.objects[k].replicas, lease)))
  }

  function Remove(m: Master, k: ObjKey): (Master, Result<(), CacheError>) {
    if k !in m.objects then (m, Err(NotFound))
    else
      (m.(objects := m.objects - {k},
          quotas := Release(m.quotas, k.tenant, QuotaReservedBytes(m.objects[k])),
          leases := m.leases - {k}), Ok(()))
  }

  // ---- Eviction ----

  function CandidacyOf(m: Master, k: ObjKey, nowMs: u64): Option<CandidateClass> {
    if k in m.objects then Candidacy(m.objects[k], HasActiveLease(m.leases, k, nowMs), nowMs) else None
  }

  /** `keys` lists a tenant's candidates of one class, in whatever order the object table yields them. */
  ghost predicate Enumerates(m: Master, tenant: string, nowMs: u64, class_: CandidateClass, keys: seq<string>) {
    && NoDuplicates(keys)
    && forall key :: key in keys <==> CandidacyOf(m, ObjKey(tenant, key), nowMs) == Some(class_)
  }

  function EvictOne(m: Master, k: ObjKey): Master
    requires k in m.objects
  {
    m.(objects := m.objects[k := m.objects[k].(status := Evicted)],
       quotas := Release(m.quotas, k.tenant, QuotaReservedBytes(m.objects[k])),
       leases := m.leases - {k},
       evictionsTotal := SaturatingAdd(m.evictionsTotal, 1))
  }

  /** One pass over a candidate list from position `i`: stop once `target` is reached, skip keys that are gone. */
  function EvictKeys(m: Master, tenant: string, target: u64, keys: seq<string>, i: nat, reclaimed: u64): (Master, u64)
    requires i <= |keys|
    decreases |keys| - i
  {
    if i == |keys| || reclaimed >= target then (m, reclaimed)
    else
      var k := ObjKey(tenant, keys[i]);
      if k !in m.objects then EvictKeys(m, tenant, target, keys, i + 1, reclaimed)
      else
        EvictKeys(EvictOne(m, k), tenant, target, keys, i + 1,
                  SaturatingAdd(reclaimed, QuotaReservedBytes(m.objects[k])))
  }

  function EvictForTenant(m: Master, tenant: string, target: u64, normal: seq<string>, soft: seq<string>)
    : (Master, u64)
  {
    var first := EvictKeys(m, tenant, target, normal, 0, 0);
    if first.1 < target then
      var second := EvictKeys(first.0, tenant, target - first.1, soft, 0, 0);
      (second.0, SaturatingAdd(first.1, second.1))
    else first
  }

  // ---- Steps and behaviours ----

  /** One call on the master; the clock and the table's iteration order are inputs. */
  datatype Op =
    | OpMount(nodeId: string, capacity: u64)
    | OpSetQuota(tenant: string, dramBytes: u64, ssdBytes: u64)
    | OpPutStart(k: ObjKey, len: u64, count: u64)
    | OpPutEnd(k: ObjKey)
    | OpPutRevoke(k: ObjKey)
    | OpLookup(k: ObjKey, nowMs: u64)
    | OpRemove(k: ObjKey)
    | OpEvict(tenant: string, target: u64, nowMs: u64, normal: seq<string>, soft: seq<string>)

  ghost predicate Enabled(m: Master, op: Op) {
    op.OpEvict? ==>
      && Enumerates(m, op.tenant, op.nowMs, Normal, op.normal)
      && Enumerates(m, op.tenant, op.nowMs, SoftPinned, op.soft)
  }

  ghost function Apply(m: Master, op: Op): Master {
    match op
    case OpMount(nodeId, capacity) => MountSegment(m, nodeId, capacity)
    case OpSetQuota(tenant, dram, ssd) => SetTenantQuota(m, tenant, dram, ssd).0
    case OpPutStart(k, len, count) => PutStart(m, k, len, count).0
    case OpPutEnd(k) => PutEnd(m, k).0
    case OpPutRevoke(k) => PutRevoke(m, k).0
    case OpLookup(k, nowMs) => GetReplicaList(m, k, nowMs).0
    case OpRemove(k) => Remove(m, k).0
    case OpEvict(tenant, target, _, normal, soft) => EvictForTenant(m, tenant, target, normal, soft).0
  }

  ghost predicate Next(m: Master, op: Op, m': Master) {
    Enabled(m, op) && m' == Apply(m, op)
  }

  /** A run: consecutive states joined by enabled operations. */
  ghost predicate Behaviour(states: seq<Master>, ops: seq<Op>) {
    && |states| == |ops| + 1
    && forall i :: 0 <= i < |ops| ==> NextAt(states, ops, i)
  }

  ghost predicate NextAt(states: seq<Master>, ops: seq<Op>, i: nat) {
    i < |ops| && i + 1 < |states| && Next(states[i], ops[i], states[i + 1])
  }
}
