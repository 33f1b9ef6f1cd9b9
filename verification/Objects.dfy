/** Cache object metadata, tenant quotas, leases, and the byte totals quotas are measured against. */
module Objects {
  import opened Types
  import opened Segments

  datatype ObjectStatus = Reserving | Writing | Committed | Revoked | Evicted

  /** Objects are addressed by tenant and cache key together. */
  datatype ObjKey = ObjKey(tenant: string, key: string)

  /** What a request may name: a tenant that is not blank, and a key of 64 lower-case hexadecimal digits. */
  predicate Nameable(k: ObjKey) {
    && !IsBlank(k.tenant) && |k.key| == 64
    && forall i :: 0 <= i < 64 ==> '0' <= k.key[i] <= '9' || 'a' <= k.key[i] <= 'f'
  }

  datatype ObjectMeta = ObjectMeta(
    tenantId: string,
    cacheKey: string,
    len: u64,
    status: ObjectStatus,
    replicas: seq<Replica>,
    hardPinned: bool,
    softPinnedUntilMs: Option<u64>)

  type ObjectMap = map<ObjKey, ObjectMeta>

  /** Bytes an object counts against its tenant's DRAM quota. */
  function QuotaReservedBytes(meta: ObjectMeta): u64 {
    if meta.status.Reserving? || meta.status.Writing? || meta.status.Committed? then meta.len else 0
  }

  // ---- Quotas ----

  datatype Quota = Quota(dramBytes: u64, ssdBytes: u64, usedDramBytes: u64, usedSsdBytes: u64) {
    function ReserveDram(bytes: u64): (r: Result<Quota, QuotaError>) {
      match CheckedAdd(usedDramBytes, bytes)
      case None => Err(AccountingOverflow)
      case Some(nextUsed) =>
        if nextUsed > dramBytes then Err(OverLimit(nextUsed, dramBytes))
        else Ok(this.(usedDramBytes := nextUsed))
    }

    function ReleaseDram(bytes: u64): Quota {
      this.(usedDramBytes := SaturatingSub(usedDramBytes, bytes))
    }
  }

  datatype QuotaError = AccountingOverflow | OverLimit(requested: u64, limit: u64)

  // ---- Leases ----

  const LEASE_TTL_MS: u64 := 5_000

  datatype Lease = Lease(sequence: u64, expiresAtMs: u64)

  function NewLease(sequence: u64, nowMs: u64): Lease {
    Lease(sequence, SaturatingAdd(nowMs, LEASE_TTL_MS))
  }

  predicate HasActiveLease(leases: map<ObjKey, Lease>, k: ObjKey, nowMs: u64) {
    k in leases && leases[k].expiresAtMs > nowMs
  }

  // ---- Eviction classes ----

  datatype CandidateClass = Normal | SoftPinned

  function Candidacy(meta: ObjectMeta, hasActiveLease: bool, nowMs: u64): Option<CandidateClass> {
    if meta.status != Committed || hasActiveLease || meta.hardPinned then None
    else if meta.softPinnedUntilMs.Some? && meta.softPinnedUntilMs.value > nowMs then Some(SoftPinned)
    else Some(Normal)
  }

  // ---- Byte totals ----

  function BytesAt(objects: ObjectMap, k: ObjKey): nat {
    if k in objects then QuotaReservedBytes(objects[k]) else 0
  }

  /** Sum of the quota-relevant bytes of a set of keys. */
  ghost function LiveBytes(objects: ObjectMap, keys: set<ObjKey>): nat
    decreases |keys|
  {
    if keys == {} then 0
    else
      var k :| k in keys;
      BytesAt(objects, k) + LiveBytes(objects, keys - {k})
  }

  lemma {:induction false} LiveBytesTake(objects: ObjectMap, keys: set<ObjKey>, k: ObjKey)
    requires k in keys
    ensures LiveBytes(objects, keys) == BytesAt(objects, k) + LiveBytes(objects, keys - {k})
    decreases |keys|
  {
    var p :| p in keys && LiveBytes(objects, keys) == BytesAt(objects, p) + LiveBytes(objects, keys - {p});
    if p != k {
      LiveBytesTake(objects, keys - {p}, k);
      LiveBytesTake(objects, keys - {k}, p);
      assert keys - {p} - {k} == keys - {k} - {p};
    }
  }

  lemma {:induction false} LiveBytesFrame(a: ObjectMap, b: ObjectMap, keys: set<ObjKey>)
    requires forall k :: k in keys ==> BytesAt(a, k) == BytesAt(b, k)
    ensures LiveBytes(a, keys) == LiveBytes(b, keys)
    decreases |keys|
  {
    if keys != {} {
      var k :| k in keys;
      LiveBytesTake(a, keys, k);
      LiveBytesTake(b, keys, k);
      LiveBytesFrame(a, b, keys - {k});
    }
  }

  lemma {:induction false} LiveBytesShrink(a: ObjectMap, b: ObjectMap, keys: set<ObjKey>)
    requires forall k :: k in keys ==> BytesAt(a, k) <= BytesAt(b, k)
    ensures LiveBytes(a, keys) <= LiveBytes(b, keys)
    decreases |keys|
  {
    if keys != {} {
      var k :| k in keys;
      LiveBytesTake(a, keys, k);
      LiveBytesTake(b, keys, k);
      LiveBytesShrink(a, b, keys - {k});
    }
  }

  lemma {:induction false} LiveBytesSubset(objects: ObjectMap, small: set<ObjKey>, large: set<ObjKey>)
    requires small <= large
    ensures LiveBytes(objects, small) <= LiveBytes(objects, large)
    decreases |small|
  {
    if small != {} {
      var k :| k in small;
      LiveBytesTake(objects, small, k);
      LiveBytesTake(objects, large, k);
      LiveBytesSubset(objects, small - {k}, large - {k});
    }
  }

  /** A scope is one tenant, or everybody. */
  predicate InScope(k: ObjKey, scope: Option<string>) {
    scope.None? || scope.value == k.tenant
  }

  function ScopeKeys(objects: ObjectMap, scope: Option<string>): set<ObjKey> {
    set k | k in objects && InScope(k, scope)
  }

  ghost function Usage(objects: ObjectMap, scope: Option<string>): nat {
    LiveBytes(objects, ScopeKeys(objects, scope))
  }

  ghost predicate SameExceptAt(a: ObjectMap, b: ObjectMap, k: ObjKey) {
    forall q :: q != k ==> (q in a <==> q in b) && (q in a ==> a[q] == b[q])
  }

  /** Changing, adding or deleting one object moves its own tenant's total by exactly that object's bytes. */
  lemma UsageChange(a: ObjectMap, b: ObjectMap, k: ObjKey, scope: Option<string>)
    requires SameExceptAt(a, b, k)
    ensures Usage(b, scope) == Usage(a, scope) + if InScope(k, scope) then BytesAt(b, k) - BytesAt(a, k) else 0
    ensures InScope(k, scope) ==> BytesAt(a, k) <= Usage(a, scope) && BytesAt(b, k) <= Usage(b, scope)
  {
    UsageWithout(a, k, scope);
    UsageWithout(b, k, scope);
    assert ScopeKeys(a, scope) - {k} == ScopeKeys(b, scope) - {k};
    LiveBytesFrame(a, b, ScopeKeys(a, scope) - {k});
  }

  lemma UsageWithout(a: ObjectMap, k: ObjKey, scope: Option<string>)
    ensures Usage(a, scope)
         == LiveBytes(a, ScopeKeys(a, scope) - {k}) + if InScope(k, scope) then BytesAt(a, k) else 0
  {
    if k in ScopeKeys(a, scope) {
      LiveBytesTake(a, ScopeKeys(a, scope), k);
    } else {
      assert ScopeKeys(a, scope) - {k} == ScopeKeys(a, scope);
    }
  }

  lemma TenantUsageWithinTotal(objects: ObjectMap, tenant: string)
    ensures Usage(objects, Some(tenant)) <= Usage(objects, None)
  {
    LiveBytesSubset(objects, ScopeKeys(objects, Some(tenant)), ScopeKeys(objects, None));
  }

  /** Every entry of the table carries the key it is stored under. */
  ghost predicate Coherent(objects: ObjectMap) {
    forall k :: k in objects ==> objects[k].tenantId == k.tenant && objects[k].cacheKey == k.key
  }

  function Clamp(n: nat): u64 {
    if n <= U64_MAX then n else U64_MAX
  }

  /** The bytes of the objects that name a tenant, wherever they are stored. */
  ghost function BytesNaming(objects: ObjectMap, tenant: string): nat {
    LiveBytes(objects, set k | k in objects && objects[k].tenantId == tenant)
  }

  /** In a coherent table they are the tenant's usage. */
  lemma BytesNamingIsUsage(objects: ObjectMap, tenant: string)
    requires Coherent(objects)
    ensures BytesNaming(objects, tenant) == Usage(objects, Some(tenant))
  {
    assert (set k | k in objects && objects[k].tenantId == tenant) == ScopeKeys(objects, Some(tenant));
  }

  /** Folding saturating additions over a tenant's objects, in whatever order the table yields them. */
  method SumReserved(objects: ObjectMap, tenant: string) returns (used: u64)
    ensures used == Clamp(BytesNaming(objects, tenant))
    ensures Coherent(objects) ==> used == Clamp(Usage(objects, Some(tenant)))
  {
    used := 0;
    var rest := objects.Keys;
    ghost var done: set<ObjKey> := {};
    while rest != {}
      invariant rest <= objects.Keys && done == set k | k in objects && k !in rest && objects[k].tenantId == tenant
      invariant used == Clamp(LiveBytes(objects, done))
      decreases |rest|
    {
      var k :| k in rest;
      rest := rest - {k};
      if objects[k].tenantId == tenant {
        LiveBytesTake(objects, done + {k}, k);
        assert done + {k} - {k} == done;
        done := done + {k};
        used := SaturatingAdd(used, QuotaReservedBytes(objects[k]));
      }
    }
    assert done == set k | k in objects && objects[k].tenantId == tenant;
    if Coherent(objects) {
      BytesNamingIsUsage(objects, tenant);
    }
  }
}
