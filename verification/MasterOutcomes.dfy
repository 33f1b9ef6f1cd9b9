/** What a caller of the master can rely on, operation by operation, in terms of the tables before and after. */
module MasterOutcomes {
  import opened Types
  import opened Segments
  import opened Objects
  import opened Master
  import opened Eviction
  import opened MasterRuns

  // ---- Reserving and committing ----

  predicate Awaiting(objects: ObjectMap, k: ObjKey) {
    k in objects && (objects[k].status == Reserving || objects[k].status == Writing)
  }

  /** The quota check comes before the allocator's; each refusal has its own cause, and tells the bytes it would have taken. */
  lemma PutStartRefusals(m: Master, k: ObjKey, len: u64, count: nat)
    ensures var r := PutStart(m, k, len, count).1;
      && (r == Err(AlreadyExists) <==> k in m.objects)
      && (k !in m.objects && k.tenant in m.quotas && m.quotas[k.tenant].usedDramBytes + len > U64_MAX ==>
            r == Err(QuotaExceeded(AccountingOverflow)))
      && (k !in m.objects && k.tenant in m.quotas
          && m.quotas[k.tenant].dramBytes < m.quotas[k.tenant].usedDramBytes + len <= U64_MAX ==>
            r == Err(QuotaExceeded(OverLimit(m.quotas[k.tenant].usedDramBytes + len, m.quotas[k.tenant].dramBytes))))
      && (k !in m.objects && (k.tenant in m.quotas ==> m.quotas[k.tenant].usedDramBytes + len <= m.quotas[k.tenant].dramBytes) ==>
            && (r == Err(Allocation(EmptyObject)) <==> len == 0)
            && (r == Err(Allocation(NoReplicas)) <==> len > 0 && count == 0)
            && (r == Err(Allocation(NoSegmentFits)) <==> len > 0 && count > 0 && FittingCount(m.segments, len, 0) < count))
  {
    FirstFitLength(m.segments, len, count, 0);
  }

  /** A commit succeeds exactly for a pending reservation, whose status is all that moves. */
  lemma PutEndOutcome(m: Master, k: ObjKey)
    ensures var (m', r) := PutEnd(m, k);
      && (r.Ok? <==> Awaiting(m.objects, k))
      && (r == Err(NotFound) <==> k !in m.objects)
      && (r == Err(AlreadyCommitted) <==> k in m.objects && m.objects[k].status == Committed)
      && (r == Err(NotWritable) <==> k in m.objects && (m.objects[k].status == Revoked || m.objects[k].status == Evicted))
      && m' == m.(objects := if r.Ok? then m.objects[k := m.objects[k].(status := Committed)] else m.objects)
  {
  }

  // ---- Giving bytes back ----

  /** The tenant of `k` has exactly the bytes of that object less on its account, and `k` no lease; nothing else moved. */
  ghost predicate GivesBack(m: Master, m': Master, k: ObjKey) {
    && m'.quotas.Keys == m.quotas.Keys && m'.leases == m.leases - {k}
    && (forall t :: t in m.quotas ==>
          && m'.quotas[t] == m.quotas[t].(usedDramBytes := m'.quotas[t].usedDramBytes)
          && m'.quotas[t].usedDramBytes == m.quotas[t].usedDramBytes - if t == k.tenant then BytesAt(m.objects, k) else 0)
    && m'.segments == m.segments && m'.nextLeaseSequence == m.nextLeaseSequence && m'.evictionsTotal == m.evictionsTotal
  }

  /** A revoke succeeds exactly for a present key, whatever its status, and gives back what the object held. */
  lemma RevokeOutcome(m: Master, k: ObjKey)
    requires QuotasExact(m)
    ensures var (m', r) := PutRevoke(m, k);
      if k in m.objects then
        r.Ok? && m'.objects == m.objects[k := m.objects[k].(status := Revoked)] && GivesBack(m, m', k)
      else r == Err(NotFound) && m' == m
  {
    if k in m.objects {
      ReleaseNeverSaturates(m, k);
    }
  }

  lemma RemoveOutcome(m: Master, k: ObjKey)
    requires QuotasExact(m)
    ensures var (m', r) := Remove(m, k);
      if k in m.objects then r.Ok? && m'.objects == m.objects - {k} && GivesBack(m, m', k)
      else r == Err(NotFound) && m' == m
  {
    if k in m.objects {
      ReleaseNeverSaturates(m, k);
    }
  }

  // ---- Lookups and quotas ----

  /** A lookup finds exactly committed keys; the lease it answers with is recorded, is numbered next, and runs 5000 ms. */
  lemma LookupOutcome(m: Master, k: ObjKey, nowMs: u64)
    ensures var (m', r) := GetReplicaList(m, k, nowMs);
      if k in m.objects && m.objects[k].status == Committed then
        && r.Ok? && r.value.replicas == m.objects[k].replicas
        && m' == m.(leases := m.leases[k := r.value.lease], nextLeaseSequence := r.value.lease.sequence)
        && (m.nextLeaseSequence < U64_MAX ==> r.value.lease.sequence == m.nextLeaseSequence + 1)
        && (m.nextLeaseSequence == U64_MAX ==> r.value.lease.sequence == U64_MAX)
        && r.value.lease.expiresAtMs == if nowMs + 5_000 <= U64_MAX then nowMs + 5_000 else U64_MAX
      else r == Err(NotFound) && m' == m
  {
  }

  /** Only a blank tenant is refused; afterwards the quota has the limits given and counts what the tenant holds. */
  lemma SetQuotaOutcome(m: Master, tenant: string, dramBytes: u64, ssdBytes: u64)
    ensures var (m', r) := SetTenantQuota(m, tenant, dramBytes, ssdBytes);
      if IsBlank(tenant) then r == Err(EmptyTenantId) && m' == m
      else
        && r.Ok? && m' == m.(quotas := m'.quotas) && m'.quotas.Keys == m.quotas.Keys + {tenant}
        && m'.quotas[tenant].dramBytes == dramBytes && m'.quotas[tenant].ssdBytes == ssdBytes
        && m'.quotas[tenant].usedSsdBytes == 0
        && (Usage(m.objects, Some(tenant)) <= U64_MAX ==> m'.quotas[tenant].usedDramBytes == Usage(m.objects, Some(tenant)))
        && (Usage(m.objects, Some(tenant)) > U64_MAX ==> m'.quotas[tenant].usedDramBytes == U64_MAX)
        && forall t :: t in m.quotas && t != tenant ==> m'.quotas[t] == m.quotas[t]
  {
  }

  /** Mounting appends one empty segment of that node and size. */
  lemma MountOutcome(m: Master, nodeId: string, len: u64)
    ensures var m' := MountSegment(m, nodeId, len);
      && m' == m.(segments := m'.segments) && |m'.segments| == |m.segments| + 1 && m'.segments[..|m.segments|] == m.segments
      && var mounted := m'.segments[|m.segments|];
         mounted.nodeId == nodeId && mounted.len == len && forall n: u64 :: mounted.CanFit(n) <==> n <= len
  {
  }

  // ---- Eviction in plain words ----

  /** Committed, not hard-pinned, and under no lease that is still running. */
  predicate Idle(m: Master, k: ObjKey, nowMs: u64) {
    && k in m.objects && m.objects[k].status == Committed && !m.objects[k].hardPinned
    && (k in m.leases ==> m.leases[k].expiresAtMs <= nowMs)
  }

  predicate SoftlyPinned(m: Master, k: ObjKey, nowMs: u64) {
    k in m.objects && m.objects[k].softPinnedUntilMs.Some? && nowMs < m.objects[k].softPinnedUntilMs.value
  }

  lemma CandidacyIff(m: Master, k: ObjKey, nowMs: u64)
    ensures CandidacyOf(m, k, nowMs) == Some(Normal) <==> Idle(m, k, nowMs) && !SoftlyPinned(m, k, nowMs)
    ensures CandidacyOf(m, k, nowMs) == Some(SoftPinned) <==> Idle(m, k, nowMs) && SoftlyPinned(m, k, nowMs)
  {
  }

  /**
   * Only idle objects of the tenant go; a softly pinned one only once no other idle one is left; and the target is missed
   * only when no idle one is left at all.
   */
  ghost predicate SparesTheRest(m: Master, m': Master, op: Op, reclaimed: u64, k: ObjKey)
    requires op.OpEvict?
  {
    && m'.objects.Keys == m.objects.Keys
    && (k in m.objects && m'.objects[k] != m.objects[k] ==>
          && k.tenant == op.tenant && Idle(m, k, op.nowMs) && m'.objects[k] == m.objects[k].(status := Evicted)
          && (SoftlyPinned(m, k, op.nowMs) ==>
                forall q: ObjKey :: q.tenant == op.tenant && Idle(m', q, op.nowMs) ==> SoftlyPinned(m, q, op.nowMs)))
    && (k.tenant == op.tenant && Idle(m', k, op.nowMs) ==> reclaimed >= op.target)
  }

  lemma EvictionSparesTheRest(m: Master, op: Op, k: ObjKey)
    requires op.OpEvict? && Enabled(m, op) && Usage(m.objects, Some(op.tenant)) <= U64_MAX
    ensures var (m', reclaimed) := EvictForTenant(m, op.tenant, op.target, op.normal, op.soft);
      SparesTheRest(m, m', op, reclaimed, k)
  {
    EvictionOutcome(m, op.tenant, op.target, op.nowMs, op.normal, op.soft);
    EvictFrame(m, op);
    var out := EvictForTenant(m, op.tenant, op.target, op.normal, op.soft);
    OutcomeSparesTheRest(m, out.0, op, out.1, k);
  }

  lemma OutcomeSparesTheRest(m: Master, m': Master, op: Op, reclaimed: u64, k: ObjKey)
    requires op.OpEvict? && EvictsOnlyCandidates(m, m', op.tenant, op.nowMs) && SoftPinsLast(m, m', op.tenant, op.nowMs)
    requires ReachesTargetTightly(m, m', op.tenant, op.target, op.nowMs, reclaimed)
    requires EvictFramed(m, m', Candidates(m, op.tenant, op.nowMs))
    ensures SparesTheRest(m, m', op, reclaimed, k)
  {
    CandidacyIff(m, k, op.nowMs);
    CandidacyIff(m', k, op.nowMs);
    if k in m.objects && m'.objects[k] != m.objects[k] && SoftlyPinned(m, k, op.nowMs) {
      forall q: ObjKey | q.tenant == op.tenant && Idle(m', q, op.nowMs) ensures SoftlyPinned(m, q, op.nowMs) {
        IdleBefore(m, m', op, q);
        CandidacyIff(m, q, op.nowMs);
      }
    }
  }

  /** What is idle after an eviction was idle before. */
  lemma IdleBefore(m: Master, m': Master, op: Op, k: ObjKey)
    requires op.OpEvict? && EvictFramed(m, m', Candidates(m, op.tenant, op.nowMs)) && Idle(m', k, op.nowMs)
    ensures m'.objects[k] == m.objects[k] && Idle(m, k, op.nowMs)
  {
    CandidacyIff(m, k, op.nowMs);
  }
}
