/** What every operation keeps, and what every run of the master therefore satisfies. */
module MasterRuns {
  import opened Types
  import opened Segments
  import opened Objects
  import opened Master
  import opened Eviction

  // ---- The invariant ----

  /** Objects are stored under their own key and are never empty. */
  ghost predicate ObjectsOk(m: Master) {
    && Coherent(m.objects)
    && forall k :: k in m.objects ==> m.objects[k].len > 0
  }

  /** Each quota's counter is exactly the bytes its tenant's objects hold. */
  ghost predicate QuotasExact(m: Master) {
    forall t :: t in m.quotas ==>
      m.quotas[t].usedDramBytes == Usage(m.objects, Some(t)) && m.quotas[t].usedSsdBytes == 0
  }

  ghost predicate LeasesOnCommitted(m: Master) {
    forall k :: k in m.leases ==> k in m.objects && m.objects[k].status == Committed
  }

  /** Everything the objects hold was carved out of some segment. */
  ghost predicate Backed(m: Master) {
    Bounded(m.segments) && Usage(m.objects, None) <= AllocatedTotal(m.segments)
  }

  ghost predicate Inv(m: Master) {
    ObjectsOk(m) && QuotasExact(m) && LeasesOnCommitted(m) && Backed(m)
  }

  lemma UsageFits(m: Master, tenant: string)
    requires Backed(m) && CapacityTotal(m.segments) <= U64_MAX
    ensures Usage(m.objects, Some(tenant)) <= U64_MAX
  {
    AllocatedWithinCapacity(m.segments);
    TenantUsageWithinTotal(m.objects, tenant);
  }

  // ---- put_start ----

  /** A failed `put_start` leaves the whole master as it was, whichever of its three stages failed. */
  lemma PutStartAllOrNothing(m: Master, k: ObjKey, len: u64, count: nat)
    ensures PutStart(m, k, len, count).1.Err? ==> PutStart(m, k, len, count).0 == m
  {
    if k !in m.objects && k.tenant in m.quotas {
      var q := m.quotas[k.tenant];
      if q.ReserveDram(len).Ok? {
        assert Release(m.quotas[k.tenant := q.ReserveDram(len).value], k.tenant, len) == m.quotas;
      }
    }
  }

  /** Exactly when a reservation is granted. */
  lemma PutStartSucceedsIff(m: Master, k: ObjKey, len: u64, count: nat)
    ensures PutStart(m, k, len, count).1.Ok? <==>
      && k !in m.objects
      && (k.tenant in m.quotas ==> m.quotas[k.tenant].usedDramBytes + len <= m.quotas[k.tenant].dramBytes)
      && len > 0 && count > 0
      && FittingCount(m.segments, len, 0) >= count
  {
    AllocateOutcome(m.segments, len, count);
  }

  /** What a granted reservation changes: the first fitting segments, one fresh object, one quota. */
  lemma PutStartGrants(m: Master, k: ObjKey, len: u64, count: nat)
    requires Bounded(m.segments) && PutStart(m, k, len, count).1.Ok?
    ensures var (m', r) := PutStart(m, k, len, count);
      var idx := FirstFit(m.segments, len, count, 0);
      && |idx| == |r.value| == count && |m'.segments| == |m.segments|
      && (forall i :: 0 <= i < |m.segments| ==>
            m'.segments[i]
            == if i in idx then m.segments[i].(nextOffset := m.segments[i].nextOffset + len) else m.segments[i])
      && (forall i, j :: 0 <= i < |m.segments| && m.segments[i].CanFit(len) && i !in idx && 0 <= j < count ==> idx[j] < i)
      && (forall j :: 0 <= j < count ==>
            r.value[j] == Replica(m.segments[idx[j]].nodeId, m.segments[idx[j]].nextOffset, len))
      && m'.objects == m.objects[k := ObjectMeta(k.tenant, k.key, len, Reserving, r.value, false, None)]
      && m'.leases == m.leases && m'.nextLeaseSequence == m.nextLeaseSequence && m'.evictionsTotal == m.evictionsTotal
      && m'.quotas.Keys == m.quotas.Keys
      && (forall t :: t in m.quotas && t != k.tenant ==> m'.quotas[t] == m.quotas[t])
      && (k.tenant in m.quotas ==>
            && m'.quotas[k.tenant] == m.quotas[k.tenant].(usedDramBytes := m.quotas[k.tenant].usedDramBytes + len)
            && m'.quotas[k.tenant].usedDramBytes <= m'.quotas[k.tenant].dramBytes)
  {
    AllocateEffect(m.segments, len, count);
    forall i | 0 <= i < |m.segments| && m.segments[i].CanFit(len) {
      FirstFitSkipsNone(m.segments, len, count, 0, i);
    }
  }

  // ---- Every operation keeps the invariant ----

  /** The object table changed at one key and the owner's quota followed. */
  lemma QuotasFollow(m: Master, m': Master, k: ObjKey)
    requires QuotasExact(m) && SameExceptAt(m.objects, m'.objects, k)
    requires m'.quotas.Keys == m.quotas.Keys
    requires forall t :: t in m.quotas && t != k.tenant ==> m'.quotas[t] == m.quotas[t]
    requires k.tenant in m.quotas ==>
      m'.quotas[k.tenant] == m.quotas[k.tenant].(usedDramBytes := m'.quotas[k.tenant].usedDramBytes)
      && m'.quotas[k.tenant].usedDramBytes
         == m.quotas[k.tenant].usedDramBytes + BytesAt(m'.objects, k) - BytesAt(m.objects, k)
    ensures QuotasExact(m')
  {
    forall t | t in m'.quotas
      ensures m'.quotas[t].usedDramBytes == Usage(m'.objects, Some(t)) && m'.quotas[t].usedSsdBytes == 0
    {
      UsageChange(m.objects, m'.objects, k, Some(t));
    }
  }

  /** Releasing an object's bytes from an exact counter never goes below zero. */
  lemma ReleaseNeverSaturates(m: Master, k: ObjKey)
    requires QuotasExact(m) && k in m.objects
    ensures k.tenant in m.quotas ==> QuotaReservedBytes(m.objects[k]) <= m.quotas[k.tenant].usedDramBytes
  {
    UsageChange(m.objects, m.objects, k, Some(k.tenant));
  }

  lemma PutStartKeepsInv(m: Master, k: ObjKey, len: u64, count: nat)
    requires Inv(m)
    ensures Inv(PutStart(m, k, len, count).0)
    ensures CapacityTotal(PutStart(m, k, len, count).0.segments) == CapacityTotal(m.segments)
  {
    var (m', r) := PutStart(m, k, len, count);
    if r.Err? {
      PutStartAllOrNothing(m, k, len, count);
    } else {
      PutStartGrants(m, k, len, count);
      AllocateTotals(m.segments, len, count);
      GrantKeepsInv(m, m', k, len);
    }
  }

  lemma GrantKeepsInv(m: Master, m': Master, k: ObjKey, len: u64)
    requires Inv(m) && k !in m.objects && len > 0
    requires k in m'.objects && m'.objects == m.objects[k := m'.objects[k]]
    requires m'.objects[k].tenantId == k.tenant && m'.objects[k].cacheKey == k.key
    requires m'.objects[k].len == len && m'.objects[k].status == Reserving
    requires m'.quotas.Keys == m.quotas.Keys && m'.leases == m.leases
    requires forall t :: t in m.quotas && t != k.tenant ==> m'.quotas[t] == m.quotas[t]
    requires k.tenant in m.quotas ==>
      m'.quotas[k.tenant] == m.quotas[k.tenant].(usedDramBytes := m'.quotas[k.tenant].usedDramBytes)
      && m'.quotas[k.tenant].usedDramBytes == m.quotas[k.tenant].usedDramBytes + len
    requires Bounded(m'.segments) && AllocatedTotal(m.segments) + len <= AllocatedTotal(m'.segments)
    ensures Inv(m')
  {
    QuotasFollow(m, m', k);
    UsageChange(m.objects, m'.objects, k, None);
  }

  /** Status changes and removals give back exactly what the object held. */
  lemma ReleaseKeepsInv(m: Master, m': Master, k: ObjKey)
    requires Inv(m) && k in m.objects && SameExceptAt(m.objects, m'.objects, k)
    requires k in m'.objects ==> m'.objects[k] == m.objects[k].(status := m'.objects[k].status)
    requires BytesAt(m'.objects, k) == 0
    requires m'.quotas == Release(m.quotas, k.tenant, QuotaReservedBytes(m.objects[k]))
    requires m'.leases == m.leases - {k} && m'.segments == m.segments
    ensures Inv(m')
  {
    ReleaseNeverSaturates(m, k);
    QuotasFollow(m, m', k);
    UsageChange(m.objects, m'.objects, k, None);
  }

  lemma PutEndKeepsInv(m: Master, k: ObjKey)
    requires Inv(m)
    ensures Inv(PutEnd(m, k).0)
  {
    var m' := PutEnd(m, k).0;
    if m' != m {
      QuotasFollow(m, m', k);
      UsageChange(m.objects, m'.objects, k, None);
    }
  }

  /** A quota set from the table counts exactly the tenant's bytes if and only if they fit in 64 bits. */
  lemma SetQuotaExactIff(m: Master, tenant: string, dramBytes: u64, ssdBytes: u64)
    requires QuotasExact(m) && !IsBlank(tenant)
    ensures QuotasExact(SetTenantQuota(m, tenant, dramBytes, ssdBytes).0)
       <==> Usage(m.objects, Some(tenant)) <= U64_MAX
  {
    var m' := SetTenantQuota(m, tenant, dramBytes, ssdBytes).0;
    assert tenant in m'.quotas;
  }

  /** Setting a quota again to the limits it already has changes nothing. */
  lemma SetQuotaAgainIsNoOp(m: Master, tenant: string)
    requires QuotasExact(m) && tenant in m.quotas
    ensures SetTenantQuota(m, tenant, m.quotas[tenant].dramBytes, m.quotas[tenant].ssdBytes).0 == m
  {
    assert m.quotas[tenant := m.quotas[tenant]] == m.quotas;
  }

  lemma EvictKeepsInv(m: Master, op: Op)
    requires Inv(m) && op.OpEvict? && Enabled(m, op)
    requires CapacityTotal(m.segments) <= U64_MAX
    ensures Inv(Apply(m, op))
  {
    UsageFits(m, op.tenant);
    EvictionOutcome(m, op.tenant, op.target, op.nowMs, op.normal, op.soft);
    EvictionIsFramed(m, op);
    var out := EvictForTenant(m, op.tenant, op.target, op.normal, op.soft);
    EvictedKeepsInv(m, out.0, op.tenant, op.nowMs, out.1);
  }

  lemma EvictionIsFramed(m: Master, op: Op)
    requires op.OpEvict? && Enabled(m, op) && Usage(m.objects, Some(op.tenant)) <= U64_MAX
    ensures EvictionFrame(m, EvictForTenant(m, op.tenant, op.target, op.normal, op.soft).0, op.tenant)
  {
    var n := EvictionTakesShortestPrefix(m, op.tenant, op.target, op.nowMs, op.normal, op.soft);
    PrefixIsFramed(m, EvictForTenant(m, op.tenant, op.target, op.normal, op.soft).0, op.tenant, op.normal + op.soft, n);
  }

  lemma PrefixIsFramed(m: Master, m': Master, tenant: string, keys: seq<string>, n: nat)
    requires Evicts(m, m', tenant, keys, n)
    ensures EvictionFrame(m, m', tenant)
  {
  }

  /** Eviction only shortens the lease table, and of the quotas only a usage counter moves. */
  ghost predicate EvictionFrame(m: Master, m': Master, tenant: string) {
    && m'.objects.Keys == m.objects.Keys
    && (forall k :: k in m'.leases ==> k in m.leases && m'.leases[k] == m.leases[k])
    && (forall k :: k in m'.leases && k in m.objects ==> m'.objects[k] == m.objects[k])
    && m'.quotas.Keys == m.quotas.Keys
    && (tenant in m.quotas ==>
          m'.quotas[tenant] == m.quotas[tenant].(usedDramBytes := m'.quotas[tenant].usedDramBytes))
  }

  lemma EvictedKeepsInv(m: Master, m': Master, tenant: string, nowMs: u64, reclaimed: u64)
    requires Inv(m)
    requires EvictsOnlyCandidates(m, m', tenant, nowMs) && ReportsLoss(m, m', tenant, reclaimed)
    requires EvictionFrame(m, m', tenant)
    ensures Inv(m')
  {
    OtherUsageUnchanged(m, m', tenant);
    assert ObjectsOk(m');
  }

  lemma OtherUsageUnchanged(m: Master, m': Master, tenant: string)
    requires m'.objects.Keys == m.objects.Keys
    requires forall k :: k in m.objects && m'.objects[k] != m.objects[k] ==>
      k.tenant == tenant && m'.objects[k] == m.objects[k].(status := Evicted)
    ensures forall t :: t != tenant ==> Usage(m'.objects, Some(t)) == Usage(m.objects, Some(t))
    ensures Usage(m'.objects, None) <= Usage(m.objects, None)
  {
    forall t | t != tenant
      ensures Usage(m'.objects, Some(t)) == Usage(m.objects, Some(t))
    {
      assert ScopeKeys(m'.objects, Some(t)) == ScopeKeys(m.objects, Some(t));
      LiveBytesFrame(m'.objects, m.objects, ScopeKeys(m.objects, Some(t)));
    }
    assert ScopeKeys(m'.objects, None) == ScopeKeys(m.objects, None);
    LiveBytesShrink(m'.objects, m.objects, ScopeKeys(m.objects, None));
  }

  // ---- Runs ----

  lemma StepKeepsInv(m: Master, op: Op, m': Master)
    requires Inv(m) && Next(m, op, m')
    requires CapacityTotal(m'.segments) <= U64_MAX
    ensures Inv(m')
  {
    match op {
      case OpMount(nodeId, capacity) =>
        assert m'.segments[..|m'.segments| - 1] == m.segments;
      case OpSetQuota(tenant, dram, ssd) =>
        UsageFits(m, tenant);
        if !IsBlank(tenant) {
          SetQuotaExactIff(m, tenant, dram, ssd);
        }
      case OpPutStart(k, len, count) => PutStartKeepsInv(m, k, len, count);
      case OpPutEnd(k) => PutEndKeepsInv(m, k);
      case OpPutRevoke(k) => RevokeKeepsInv(m, k);
      case OpLookup(k, nowMs) => LookupKeepsInv(m, k, nowMs);
      case OpRemove(k) => RemoveKeepsInv(m, k);
      case OpEvict(_, _, _, _, _) =>
        EvictFrame(m, op);
        EvictKeepsInv(m, op);
    }
  }

  lemma RevokeKeepsInv(m: Master, k: ObjKey)
    requires Inv(m)
    ensures Inv(PutRevoke(m, k).0)
  {
    if k in m.objects {
      ReleaseKeepsInv(m, PutRevoke(m, k).0, k);
    }
  }

  lemma RemoveKeepsInv(m: Master, k: ObjKey)
    requires Inv(m)
    ensures Inv(Remove(m, k).0)
  {
    if k in m.objects {
      ReleaseKeepsInv(m, Remove(m, k).0, k);
    }
  }

  lemma LookupKeepsInv(m: Master, k: ObjKey, nowMs: u64)
    requires Inv(m)
    ensures Inv(GetReplicaList(m, k, nowMs).0)
  {
  }

  /** Eviction, whatever the sizes: an object either stays as it is or was a candidate and becomes Evicted. */
  ghost predicate EvictFramed(m: Master, m': Master, listed: set<ObjKey>) {
    && m'.objects.Keys == m.objects.Keys && m'.segments == m.segments && m'.quotas.Keys == m.quotas.Keys
    && (forall k :: k in m.objects ==>
          m'.objects[k] == m.objects[k] || (k in listed && m'.objects[k] == m.objects[k].(status := Evicted)))
    && (forall k :: k in m.leases && k !in listed ==> k in m'.leases && m'.leases[k] == m.leases[k])
  }

  lemma {:induction false} EvictKeysFrame(
    m: Master, tenant: string, target: u64, keys: seq<string>, i: nat, reclaimed: u64, listed: set<ObjKey>)
    requires i <= |keys| && forall j :: 0 <= j < |keys| ==> ObjKey(tenant, keys[j]) in listed
    ensures EvictFramed(m, EvictKeys(m, tenant, target, keys, i, reclaimed).0, listed)
    decreases |keys| - i
  {
    if i < |keys| && reclaimed < target {
      var k := ObjKey(tenant, keys[i]);
      if k !in m.objects {
        EvictKeysFrame(m, tenant, target, keys, i + 1, reclaimed, listed);
      } else {
        var next := SaturatingAdd(reclaimed, QuotaReservedBytes(m.objects[k]));
        EvictKeysFrame(EvictOne(m, k), tenant, target, keys, i + 1, next, listed);
      }
    }
  }

  ghost function Candidates(m: Master, tenant: string, nowMs: u64): set<ObjKey> {
    set k | k in m.objects && k.tenant == tenant && CandidacyOf(m, k, nowMs).Some?
  }

  lemma EvictFramedTwice(m: Master, m1: Master, m2: Master, listed: set<ObjKey>)
    requires EvictFramed(m, m1, listed) && EvictFramed(m1, m2, listed)
    ensures EvictFramed(m, m2, listed)
  {
  }

  lemma EnumeratedAreCandidates(m: Master, tenant: string, nowMs: u64, class_: CandidateClass, keys: seq<string>)
    requires Enumerates(m, tenant, nowMs, class_, keys)
    ensures forall i :: 0 <= i < |keys| ==> ObjKey(tenant, keys[i]) in Candidates(m, tenant, nowMs)
  {
    forall i | 0 <= i < |keys| ensures ObjKey(tenant, keys[i]) in Candidates(m, tenant, nowMs) {
      assert keys[i] in keys;
    }
  }

  lemma EvictFrame(m: Master, op: Op)
    requires op.OpEvict? && Enabled(m, op)
    ensures EvictFramed(m, Apply(m, op), Candidates(m, op.tenant, op.nowMs))
  {
    EnumeratedAreCandidates(m, op.tenant, op.nowMs, Normal, op.normal);
    EnumeratedAreCandidates(m, op.tenant, op.nowMs, SoftPinned, op.soft);
    PassesFrame(m, op.tenant, op.target, op.normal, op.soft, Candidates(m, op.tenant, op.nowMs));
  }

  lemma PassesFrame(m: Master, tenant: string, target: u64, normal: seq<string>, soft: seq<string>, listed: set<ObjKey>)
    requires forall i :: 0 <= i < |normal| ==> ObjKey(tenant, normal[i]) in listed
    requires forall i :: 0 <= i < |soft| ==> ObjKey(tenant, soft[i]) in listed
    ensures EvictFramed(m, EvictForTenant(m, tenant, target, normal, soft).0, listed)
  {
    var first := EvictKeys(m, tenant, target, normal, 0, 0);
    EvictKeysFrame(m, tenant, target, normal, 0, 0, listed);
    if first.1 < target {
      var second := EvictKeys(first.0, tenant, target - first.1, soft, 0, 0);
      EvictKeysFrame(first.0, tenant, target - first.1, soft, 0, 0, listed);
      EvictFramedTwice(m, first.0, second.0, listed);
    }
  }
}
