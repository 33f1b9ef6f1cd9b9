/** The master as the service holds it: tables updated in place, proved against the functions on its whole state. */
module MasterState {
  import opened Types
  import opened Segments
  import opened Objects
  import opened Master
  import opened Snapshots

  class LeaseTracker {
    var leases: map<ObjKey, Lease>

    constructor ()
      ensures leases == map[]
    {
      leases := map[];
    }

    method Refresh(k: ObjKey, sequence: u64, nowMs: u64) returns (lease: Lease)
      modifies this
      ensures lease == NewLease(sequence, nowMs) && leases == old(leases)[k := lease]
    {
      lease := NewLease(sequence, nowMs);
      leases := leases[k := lease];
    }

    method Remove(k: ObjKey)
      modifies this
      ensures leases == old(leases) - {k}
    {
      leases := leases - {k};
    }
  }

  class MasterState {
    var objects: ObjectMap
    var quotas: map<string, Quota>
    const leases: LeaseTracker
    const allocator: SegmentAllocator
    var nextLeaseSequence: u64
    var evictionsTotal: u64

    /** The whole state as a value. */
    ghost function View(): Master
      reads this, leases, allocator
    {
      Master(objects, quotas, leases.leases, allocator.segments, nextLeaseSequence, evictionsTotal)
    }

    constructor New()
      ensures View() == EMPTY && fresh(leases) && fresh(allocator)
    {
      objects, quotas := map[], map[];
      leases := new LeaseTracker();
      allocator := new SegmentAllocator();
      nextLeaseSequence, evictionsTotal := 0, 0;
    }

    constructor FromSnapshot(snapshot: Snapshot)
      ensures View() == Restore(snapshot) && fresh(leases) && fresh(allocator)
    {
      objects, quotas := map[], map[];
      leases := new LeaseTracker();
      allocator := new SegmentAllocator();
      nextLeaseSequence, evictionsTotal := 0, snapshot.evictionsTotal;
      new;
      for i := 0 to |snapshot.objects|
        invariant objects == CollectObjects(snapshot.objects[..i])
        invariant fresh(leases) && fresh(allocator) && leases.leases == map[] && allocator.segments == []
        invariant quotas == map[] && nextLeaseSequence == 0 && evictionsTotal == snapshot.evictionsTotal
      {
        assert snapshot.objects[..i + 1][..i] == snapshot.objects[..i];
        objects := objects[KeyOf(snapshot.objects[i]) := snapshot.objects[i]];
      }
      assert snapshot.objects[..|snapshot.objects|] == snapshot.objects;
      for i := 0 to |snapshot.quotas|
        invariant quotas == CollectQuotas(snapshot.quotas[..i])
        invariant fresh(leases) && fresh(allocator) && leases.leases == map[] && allocator.segments == []
        invariant objects == CollectObjects(snapshot.objects)
        invariant nextLeaseSequence == 0 && evictionsTotal == snapshot.evictionsTotal
      {
        assert snapshot.quotas[..i + 1][..i] == snapshot.quotas[..i];
        quotas := quotas[snapshot.quotas[i].0 := snapshot.quotas[i].1];
      }
      assert snapshot.quotas[..|snapshot.quotas|] == snapshot.quotas;
    }

    method Mount(nodeId: string, len: u64)
      modifies this, leases, allocator
      ensures View() == MountSegment(old(View()), nodeId, len)
    {
      allocator.MountSegment(nodeId, len);
    }

    method SetQuota(tenant: string, dramBytes: u64, ssdBytes: u64) returns (r: Result<(), CacheError>)
      modifies this, leases, allocator
      ensures (View(), r)
           == SetQuotaAt(old(View()), tenant, dramBytes, ssdBytes, Clamp(BytesNaming(old(objects), tenant)))
      ensures Coherent(old(objects)) ==> (View(), r) == SetTenantQuota(old(View()), tenant, dramBytes, ssdBytes)
    {
      if IsBlank(tenant) {
        return Err(EmptyTenantId);
      }
      var used := SumReserved(objects, tenant);
      quotas := quotas[tenant := Quota(dramBytes, ssdBytes, used, 0)];
      return Ok(());
    }

    method Start(k: ObjKey, len: u64, count: u64) returns (r: Result<seq<Replica>, CacheError>)
      modifies this, leases, allocator
      ensures (View(), r) == PutStart(old(View()), k, len, count)
    {
      if k in objects {
        return Err(AlreadyExists);
      }
      match Reserve(quotas, k.tenant, len) {
        case Err(e) =>
          return Err(QuotaExceeded(e));
        case Ok(reserved) =>
          quotas := reserved;
      }
      var allocations := allocator.AllocateReplicas(len, count);
      if allocations.Err? {
        quotas := Release(quotas, k.tenant, len);
        return Err(Allocation(allocations.error));
      }
      objects := objects[k := ObjectMeta(k.tenant, k.key, len, Reserving, allocations.value, false, None)];
      return Ok(allocations.value);
    }

    method End(k: ObjKey) returns (r: Result<(), CacheError>)
      modifies this, leases, allocator
      ensures (View(), r) == PutEnd(old(View()), k)
    {
      if k !in objects {
        return Err(NotFound);
      }
      var meta := objects[k];
      match meta.status {
        case Committed =>
          return Err(AlreadyCommitted);
        case Revoked =>
          return Err(NotWritable);
        case Evicted =>
          return Err(NotWritable);
        case _ =>
          objects := objects[k := meta.(status := Committed)];
          return Ok(());
      }
    }

    method Revoke(k: ObjKey) returns (r: Result<(), CacheError>)
      modifies this, leases, allocator
      ensures (View(), r) == PutRevoke(old(View()), k)
    {
      if k !in objects {
        return Err(NotFound);
      }
      var released := QuotaReservedBytes(objects[k]);
      objects := objects[k := objects[k].(status := Revoked)];
      quotas := Release(quotas, k.tenant, released);
      leases.Remove(k);
      return Ok(());
    }

    method Lookup(k: ObjKey, nowMs: u64) returns (r: Result<ReplicaList, CacheError>)
      modifies this, leases, allocator
      ensures (View(), r) == GetReplicaList(old(View()), k, nowMs)
    {
      if k !in objects || objects[k].status != Committed {
        return Err(NotFound);
      }
      var replicas := objects[k].replicas;
      nextLeaseSequence := SaturatingAdd(nextLeaseSequence, 1);
      var lease := leases.Refresh(k, nextLeaseSequence, nowMs);
      return Ok(ReplicaList(replicas, lease));
    }

    method RemoveObject(k: ObjKey) returns (r: Result<(), CacheError>)
      modifies this, leases, allocator
      ensures (View(), r) == Remove(old(View()), k)
    {
      if k !in objects {
        return Err(NotFound);
      }
      var meta := objects[k];
      objects := objects - {k};
      quotas := Release(quotas, k.tenant, QuotaReservedBytes(meta));
      leases.Remove(k);
      return Ok(());
    }

    /** Walks the table in an arbitrary order and sorts the tenant's candidates into two lists. */
    method CollectCandidates(tenant: string, nowMs: u64) returns (normal: seq<string>, soft: seq<string>)
      ensures Enumerates(View(), tenant, nowMs, Normal, normal)
      ensures Enumerates(View(), tenant, nowMs, SoftPinned, soft)
    {
      normal, soft := [], [];
      var rest := objects.Keys;
      while rest != {}
        invariant rest <= objects.Keys
        invariant NoDuplicates(normal) && NoDuplicates(soft)
        invariant forall key :: key in normal <==>
          ObjKey(tenant, key) !in rest && CandidacyOf(View(), ObjKey(tenant, key), nowMs) == Some(Normal)
        invariant forall key :: key in soft <==>
          ObjKey(tenant, key) !in rest && CandidacyOf(View(), ObjKey(tenant, key), nowMs) == Some(SoftPinned)
        decreases |rest|
      {
        var k :| k in rest;
        rest := rest - {k};
        if k.tenant == tenant {
          match Candidacy(objects[k], HasActiveLease(leases.leases, k, nowMs), nowMs) {
            case Some(Normal) => normal := normal + [k.key];
            case Some(SoftPinned) => soft := soft + [k.key];
            case None =>
          }
        }
      }
    }

    method EvictCandidateKeys(tenant: string, target: u64, keys: seq<string>) returns (reclaimed: u64)
      modifies this, leases
      ensures (View(), reclaimed) == EvictKeys(old(View()), tenant, target, keys, 0, 0)
    {
      reclaimed := 0;
      for i := 0 to |keys|
        invariant EvictKeys(View(), tenant, target, keys, i, reclaimed) == EvictKeys(old(View()), tenant, target, keys, 0, 0)
      {
        if reclaimed >= target {
          return;
        }
        var k := ObjKey(tenant, keys[i]);
        if k in objects {
          var released := QuotaReservedBytes(objects[k]);
          objects := objects[k := objects[k].(status := Evicted)];
          quotas := Release(quotas, tenant, released);
          leases.Remove(k);
          evictionsTotal := SaturatingAdd(evictionsTotal, 1);
          reclaimed := SaturatingAdd(reclaimed, released);
        }
      }
    }

    method Evict(tenant: string, target: u64, nowMs: u64)
      returns (reclaimed: u64, ghost normal: seq<string>, ghost soft: seq<string>)
      modifies this, leases
      ensures Enumerates(old(View()), tenant, nowMs, Normal, normal)
      ensures Enumerates(old(View()), tenant, nowMs, SoftPinned, soft)
      ensures (View(), reclaimed) == EvictForTenant(old(View()), tenant, target, normal, soft)
    {
      var normalKeys, softKeys := CollectCandidates(tenant, nowMs);
      normal, soft := normalKeys, softKeys;
      reclaimed := EvictCandidateKeys(tenant, target, normalKeys);
      if reclaimed < target {
        var more := EvictCandidateKeys(tenant, target - reclaimed, softKeys);
        reclaimed := SaturatingAdd(reclaimed, more);
      }
    }

    /** Lists both tables in an arbitrary order. */
    method MetadataSnapshot() returns (snapshot: Snapshot)
      ensures IsSnapshot(View(), snapshot)
    {
      var metas: seq<ObjectMeta> := [];
      var restKeys := objects.Keys;
      ghost var keys: seq<ObjKey> := [];
      while restKeys != {}
        invariant restKeys <= objects.Keys
        invariant Enumeration(objects.Keys - restKeys, keys) && ValuesAt(objects, keys, metas)
        decreases |restKeys|
      {
        var k :| k in restKeys;
        restKeys := restKeys - {k};
        keys, metas := keys + [k], metas + [objects[k]];
      }
      var entries: seq<(string, Quota)> := [];
      var restItems := quotas.Items;
      while restItems != {}
        invariant restItems <= quotas.Items && Enumeration(quotas.Items - restItems, entries)
        decreases |restItems|
      {
        var item :| item in restItems;
        restItems := restItems - {item};
        entries := entries + [item];
      }
      assert Enumeration(objects.Keys, keys);
      snapshot := Snapshot(metas, entries, evictionsTotal);
    }
  }
}
