/** What an eviction pass does, for every iteration order of the object table. */
module Eviction {
  import opened Types
  import opened Objects
  import opened Master

  /** `k` is one of the first `n` keys of the tenant's list. */
  predicate Listed(tenant: string, keys: seq<string>, n: nat, k: ObjKey)
    requires n <= |keys|
  {
    k.tenant == tenant && exists i :: 0 <= i < n && keys[i] == k.key
  }

  /** Quota bytes of the first `n` keys of a list. */
  ghost function PrefixBytes(objects: ObjectMap, tenant: string, keys: seq<string>, n: nat): nat
    requires n <= |keys|
  {
    if n == 0 then 0
    else PrefixBytes(objects, tenant, keys, n - 1) + BytesAt(objects, ObjKey(tenant, keys[n - 1]))
  }

  lemma {:induction false} PrefixBytesMonotone(objects: ObjectMap, tenant: string, keys: seq<string>, i: nat, n: nat)
    requires i <= n <= |keys|
    ensures PrefixBytes(objects, tenant, keys, i) <= PrefixBytes(objects, tenant, keys, n)
    decreases n
  {
    if i < n {
      PrefixBytesMonotone(objects, tenant, keys, i, n - 1);
    }
  }

  /** `m'` is `m` with exactly the first `n` listed objects evicted: their bytes and leases are gone, nothing else. */
  ghost predicate Evicts(m: Master, m': Master, tenant: string, keys: seq<string>, n: nat) {
    && n <= |keys|
    && m'.objects.Keys == m.objects.Keys
    && (forall k :: k in m.objects ==>
          m'.objects[k] == if Listed(tenant, keys, n, k) then m.objects[k].(status := Evicted) else m.objects[k])
    && PrefixBytes(m.objects, tenant, keys, n) <= U64_MAX
    && m'.quotas == Release(m.quotas, tenant, PrefixBytes(m.objects, tenant, keys, n))
    && m'.leases == (map k | k in m.leases && !Listed(tenant, keys, n, k) :: m.leases[k])
    && m'.segments == m.segments
    && m'.nextLeaseSequence == m.nextLeaseSequence
    && m'.evictionsTotal == if m.evictionsTotal + n <= U64_MAX then m.evictionsTotal + n else U64_MAX
  }

  lemma EvictsNothing(m: Master, tenant: string, keys: seq<string>)
    ensures Evicts(m, m, tenant, keys, 0)
  {
    assert m.leases == map k | k in m.leases && !Listed(tenant, keys, 0, k) :: m.leases[k];
    if tenant in m.quotas {
      assert m.quotas[tenant := m.quotas[tenant]] == m.quotas;
    }
  }

  lemma EvictsOneMore(m: Master, mi: Master, tenant: string, keys: seq<string>, n: nat)
    requires n < |keys| && NoDuplicates(keys)
    requires Evicts(m, mi, tenant, keys, n)
    requires ObjKey(tenant, keys[n]) in m.objects
    requires PrefixBytes(m.objects, tenant, keys, n + 1) <= U64_MAX
    ensures Evicts(m, EvictOne(mi, ObjKey(tenant, keys[n])), tenant, keys, n + 1)
    ensures PrefixBytes(m.objects, tenant, keys, n + 1)
         == PrefixBytes(m.objects, tenant, keys, n) + QuotaReservedBytes(mi.objects[ObjKey(tenant, keys[n])])
  {
    var k := ObjKey(tenant, keys[n]);
    var m' := EvictOne(mi, k);
    assert forall q :: Listed(tenant, keys, n + 1, q) <==> Listed(tenant, keys, n, q) || q == k;
    assert !Listed(tenant, keys, n, k);
    assert m'.leases == map q | q in m.leases && !Listed(tenant, keys, n + 1, q) :: m.leases[q];
    assert m'.quotas == Release(m.quotas, tenant, PrefixBytes(m.objects, tenant, keys, n + 1));
  }

  ghost predicate AllPresent(objects: ObjectMap, tenant: string, keys: seq<string>) {
    forall i :: 0 <= i < |keys| ==> ObjKey(tenant, keys[i]) in objects
  }

  /** The master after `EvictOne` on each of the first `n` listed keys. */
  ghost function AfterEvicting(m: Master, tenant: string, keys: seq<string>, n: nat): Master
    requires n <= |keys|
  {
    if n == 0 then m
    else
      var before := AfterEvicting(m, tenant, keys, n - 1);
      var k := ObjKey(tenant, keys[n - 1]);
      if k in before.objects then EvictOne(before, k) else before
  }

  lemma {:induction false} AfterEvictingEvicts(m: Master, tenant: string, keys: seq<string>, n: nat)
    requires NoDuplicates(keys) && AllPresent(m.objects, tenant, keys) && n <= |keys|
    requires PrefixBytes(m.objects, tenant, keys, n) <= U64_MAX
    ensures Evicts(m, AfterEvicting(m, tenant, keys, n), tenant, keys, n)
  {
    if n == 0 {
      EvictsNothing(m, tenant, keys);
    } else {
      AfterEvictingEvicts(m, tenant, keys, n - 1);
      EvictsOneMore(m, AfterEvicting(m, tenant, keys, n - 1), tenant, keys, n - 1);
    }
  }

  lemma UnlistedKeepsBytes(m: Master, mi: Master, tenant: string, keys: seq<string>, i: nat)
    requires NoDuplicates(keys) && i < |keys| && ObjKey(tenant, keys[i]) in m.objects
    requires Evicts(m, mi, tenant, keys, i)
    ensures var k := ObjKey(tenant, keys[i]);
      k in mi.objects && QuotaReservedBytes(mi.objects[k]) == BytesAt(m.objects, k)
  {
    assert !Listed(tenant, keys, i, ObjKey(tenant, keys[i]));
  }

  lemma NextVictim(m: Master, mi: Master, tenant: string, keys: seq<string>, i: nat)
    requires NoDuplicates(keys) && AllPresent(m.objects, tenant, keys) && i < |keys|
    requires PrefixBytes(m.objects, tenant, keys, i) <= U64_MAX && mi == AfterEvicting(m, tenant, keys, i)
    ensures var k := ObjKey(tenant, keys[i]);
      k in mi.objects && QuotaReservedBytes(mi.objects[k]) == BytesAt(m.objects, k)
  {
    AfterEvictingEvicts(m, tenant, keys, i);
    UnlistedKeepsBytes(m, mi, tenant, keys, i);
  }

  /** `part` is the stretch of `keys` that begins at `at`. */
  ghost predicate StretchOf(keys: seq<string>, at: nat, part: seq<string>) {
    at + |part| <= |keys| && forall j :: 0 <= j < |part| ==> part[j] == keys[at + j]
  }

  /** A pass from position `i` to `end`, entered with `reclaimed` bytes, takes keys until the target is met: up to `n`. */
  ghost predicate Meets(
    objects: ObjectMap, tenant: string, target: u64, reclaimed: u64, keys: seq<string>, i: nat, end: nat, n: nat, total: u64)
  {
    && i <= n <= end <= |keys|
    && total == reclaimed + PrefixBytes(objects, tenant, keys, n) - PrefixBytes(objects, tenant, keys, i)
    && (n == end || total >= target)
    && (i < n ==> reclaimed + PrefixBytes(objects, tenant, keys, n - 1) - PrefixBytes(objects, tenant, keys, i) < target)
  }

  lemma MeetsEarlier(
    objects: ObjectMap, tenant: string, target: u64, reclaimed: u64, keys: seq<string>, i: nat, end: nat, n: nat, total: u64)
    requires i < end <= |keys| && reclaimed < target
    requires reclaimed + BytesAt(objects, ObjKey(tenant, keys[i])) <= U64_MAX
    requires Meets(objects, tenant, target, reclaimed + BytesAt(objects, ObjKey(tenant, keys[i])), keys, i + 1, end, n, total)
    ensures Meets(objects, tenant, target, reclaimed, keys, i, end, n, total)
  {
  }

  lemma EvictKeysUnfold(
    mi: Master, next: Master, tenant: string, target: u64, reclaimed: u64, total: u64, part: seq<string>, j: nat)
    requires j < |part| && reclaimed < target && ObjKey(tenant, part[j]) in mi.objects
    requires next == EvictOne(mi, ObjKey(tenant, part[j]))
    requires total == reclaimed + QuotaReservedBytes(mi.objects[ObjKey(tenant, part[j])])
    ensures EvictKeys(mi, tenant, target, part, j, reclaimed) == EvictKeys(next, tenant, target, part, j + 1, total)
  {
  }

  /** A pass over a stretch of the list, everything before it already evicted, stops as soon as the target is reached. */
  lemma {:induction false} EvictKeysStops(
    m: Master, mi: Master, tenant: string, target: u64, reclaimed: u64, keys: seq<string>, at: nat, part: seq<string>, j: nat)
    returns (n: nat)
    requires NoDuplicates(keys) && AllPresent(m.objects, tenant, keys) && StretchOf(keys, at, part) && j <= |part|
    requires PrefixBytes(m.objects, tenant, keys, |keys|) <= U64_MAX
    requires reclaimed <= PrefixBytes(m.objects, tenant, keys, at + j) && mi == AfterEvicting(m, tenant, keys, at + j)
    ensures var out := EvictKeys(mi, tenant, target, part, j, reclaimed);
      && Meets(m.objects, tenant, target, reclaimed, keys, at + j, at + |part|, n, out.1)
      && out.0 == AfterEvicting(m, tenant, keys, n)
    decreases |part| - j
  {
    if j == |part| || reclaimed >= target {
      n := at + j;
    } else {
      var k := ObjKey(tenant, part[j]);
      PrefixBytesMonotone(m.objects, tenant, keys, at + j + 1, |keys|);
      NextVictim(m, mi, tenant, keys, at + j);
      var next, total := EvictOne(mi, k), reclaimed + BytesAt(m.objects, k);
      n := EvictKeysStops(m, next, tenant, target, total, keys, at, part, j + 1);
      MeetsEarlier(m.objects, tenant, target, reclaimed, keys, at + j, at + |part|, n,
                   EvictKeys(next, tenant, target, part, j + 1, total).1);
      EvictKeysUnfold(mi, next, tenant, target, reclaimed, total, part, j);
    }
  }

  /** Listed bytes and unlisted bytes add up to the tenant's usage. */
  lemma {:induction false} PrefixPlusRest(objects: ObjectMap, tenant: string, keys: seq<string>, n: nat)
    requires NoDuplicates(keys) && AllPresent(objects, tenant, keys) && n <= |keys|
    ensures PrefixBytes(objects, tenant, keys, n)
          + LiveBytes(objects, set k | k in ScopeKeys(objects, Some(tenant)) && !Listed(tenant, keys, n, k))
         == Usage(objects, Some(tenant))
  {
    var rest := set k | k in ScopeKeys(objects, Some(tenant)) && !Listed(tenant, keys, n, k);
    if n == 0 {
      assert rest == ScopeKeys(objects, Some(tenant));
    } else {
      var k := ObjKey(tenant, keys[n - 1]);
      var before := set k | k in ScopeKeys(objects, Some(tenant)) && !Listed(tenant, keys, n - 1, k);
      PrefixPlusRest(objects, tenant, keys, n - 1);
      assert !Listed(tenant, keys, n - 1, k);
      LiveBytesTake(objects, before, k);
      assert rest == before - {k};
    }
  }

  lemma CandidatesAreListable(m: Master, tenant: string, nowMs: u64, normal: seq<string>, soft: seq<string>)
    requires Enumerates(m, tenant, nowMs, Normal, normal) && Enumerates(m, tenant, nowMs, SoftPinned, soft)
    ensures NoDuplicates(normal + soft) && AllPresent(m.objects, tenant, normal + soft)
  {
    var all := normal + soft;
    forall i | 0 <= i < |all|
      ensures CandidacyOf(m, ObjKey(tenant, all[i]), nowMs) == Some(if i < |normal| then Normal else SoftPinned)
    {
      assert i < |normal| ==> all[i] in normal;
      assert i >= |normal| ==> all[i] == soft[i - |normal|] && all[i] in soft;
    }
  }

  lemma CandidateIsListed(m: Master, tenant: string, nowMs: u64, normal: seq<string>, soft: seq<string>, k: ObjKey)
    requires Enumerates(m, tenant, nowMs, Normal, normal) && Enumerates(m, tenant, nowMs, SoftPinned, soft)
    requires k.tenant == tenant
    ensures CandidacyOf(m, k, nowMs).Some? ==> Listed(tenant, normal + soft, |normal + soft|, k)
  {
    var all := normal + soft;
    match CandidacyOf(m, k, nowMs) {
      case None =>
      case Some(Normal) =>
        var j :| 0 <= j < |normal| && normal[j] == k.key;
        assert all[j] == k.key;
      case Some(SoftPinned) =>
        var j :| 0 <= j < |soft| && soft[j] == k.key;
        assert all[|normal| + j] == k.key;
    }
  }

  lemma SoftComesAfter(m: Master, tenant: string, nowMs: u64, normal: seq<string>, soft: seq<string>, s: ObjKey, i: nat)
    requires Enumerates(m, tenant, nowMs, Normal, normal) && i < |normal + soft| && (normal + soft)[i] == s.key
    requires s.tenant == tenant && CandidacyOf(m, s, nowMs) == Some(SoftPinned)
    ensures i >= |normal|
  {
    assert forall j :: 0 <= j < |normal| ==> CandidacyOf(m, ObjKey(tenant, normal[j]), nowMs) == Some(Normal);
  }

  /** An eviction call over the whole list: exactly the first `n` keys went, and `n` is as small as the target allows. */
  ghost predicate StopsAt(m: Master, out: (Master, u64), tenant: string, target: u64, keys: seq<string>, n: nat) {
    && Evicts(m, out.0, tenant, keys, n)
    && Meets(m.objects, tenant, target, 0, keys, 0, |keys|, n, out.1)
  }

  /** Two passes, the second only if the first fell short, make one pass over the concatenated list. */
  lemma PassesJoin(
    objects: ObjectMap, tenant: string, target: u64, keys: seq<string>, mid: nat, n: nat, first: u64, second: u64)
    requires PrefixBytes(objects, tenant, keys, |keys|) <= U64_MAX && first < target
    requires Meets(objects, tenant, target, 0, keys, 0, mid, mid, first)
    requires Meets(objects, tenant, target - first, 0, keys, mid, |keys|, n, second)
    ensures first + second <= U64_MAX
    ensures Meets(objects, tenant, target, 0, keys, 0, |keys|, n, first + second)
  {
    PrefixBytesMonotone(objects, tenant, keys, n, |keys|);
  }

  /**
   * Whatever order the table yields its candidates in, the normal ones followed by the soft-pinned ones, an eviction
   * call evicts exactly the shortest prefix of that list that reaches the target (or all of it), and reports its bytes.
   */
  lemma EvictionTakesShortestPrefix(
    m: Master, tenant: string, target: u64, nowMs: u64, normal: seq<string>, soft: seq<string>) returns (n: nat)
    requires Enumerates(m, tenant, nowMs, Normal, normal) && Enumerates(m, tenant, nowMs, SoftPinned, soft)
    requires Usage(m.objects, Some(tenant)) <= U64_MAX
    ensures StopsAt(m, EvictForTenant(m, tenant, target, normal, soft), tenant, target, normal + soft, n)
  {
    CandidatesAreListable(m, tenant, nowMs, normal, soft);
    PrefixPlusRest(m.objects, tenant, normal + soft, |normal + soft|);
    n := PassesTakePrefix(m, tenant, target, normal, soft);
    PrefixBytesMonotone(m.objects, tenant, normal + soft, n, |normal + soft|);
    AfterEvictingEvicts(m, tenant, normal + soft, n);
  }

  lemma PassesTakePrefix(m: Master, tenant: string, target: u64, normal: seq<string>, soft: seq<string>)
    returns (n: nat)
    requires NoDuplicates(normal + soft) && AllPresent(m.objects, tenant, normal + soft)
    requires PrefixBytes(m.objects, tenant, normal + soft, |normal + soft|) <= U64_MAX
    ensures var out := EvictForTenant(m, tenant, target, normal, soft);
      && Meets(m.objects, tenant, target, 0, normal + soft, 0, |normal + soft|, n, out.1)
      && out.0 == AfterEvicting(m, tenant, normal + soft, n)
  {
    n := BothPasses(m, tenant, target, normal + soft, normal, soft);
  }

  lemma FirstPassSuffices(m: Master, tenant: string, target: u64, normal: seq<string>, soft: seq<string>, first: (Master, u64))
    requires first == EvictKeys(m, tenant, target, normal, 0, 0) && first.1 >= target
    ensures EvictForTenant(m, tenant, target, normal, soft) == first
  {
  }

  lemma PassesCompose(
    m: Master, tenant: string, target: u64, normal: seq<string>, soft: seq<string>, first: (Master, u64), second: (Master, u64))
    requires first == EvictKeys(m, tenant, target, normal, 0, 0) && first.1 < target
    requires second == EvictKeys(first.0, tenant, target - first.1, soft, 0, 0) && first.1 + second.1 <= U64_MAX
    ensures EvictForTenant(m, tenant, target, normal, soft) == (second.0, first.1 + second.1)
  {
  }

  lemma FirstPass(m: Master, tenant: string, target: u64, keys: seq<string>, normal: seq<string>)
    returns (n: nat, first: (Master, u64))
    requires NoDuplicates(keys) && AllPresent(m.objects, tenant, keys) && StretchOf(keys, 0, normal)
    requires PrefixBytes(m.objects, tenant, keys, |keys|) <= U64_MAX
    ensures first == EvictKeys(m, tenant, target, normal, 0, 0)
    ensures Meets(m.objects, tenant, target, 0, keys, 0, |normal|, n, first.1) && first.0 == AfterEvicting(m, tenant, keys, n)
  {
    n := EvictKeysStops(m, m, tenant, target, 0, keys, 0, normal, 0);
    first := EvictKeys(m, tenant, target, normal, 0, 0);
  }

  lemma BothPasses(m: Master, tenant: string, target: u64, keys: seq<string>, normal: seq<string>, soft: seq<string>)
    returns (n: nat)
    requires NoDuplicates(keys) && AllPresent(m.objects, tenant, keys)
    requires StretchOf(keys, 0, normal) && StretchOf(keys, |normal|, soft) && |keys| == |normal| + |soft|
    requires PrefixBytes(m.objects, tenant, keys, |keys|) <= U64_MAX
    ensures var out := EvictForTenant(m, tenant, target, normal, soft);
      && Meets(m.objects, tenant, target, 0, keys, 0, |keys|, n, out.1)
      && out.0 == AfterEvicting(m, tenant, keys, n)
  {
    var reached, first := FirstPass(m, tenant, target, keys, normal);
    if first.1 < target {
      var second;
      n, second := SecondPass(m, first.0, tenant, target, keys, |normal|, soft, first.1);
      PassesCompose(m, tenant, target, normal, soft, first, second);
    } else {
      n := reached;
      FirstPassSuffices(m, tenant, target, normal, soft, first);
    }
  }

  lemma SecondPass(
    m: Master, mid: Master, tenant: string, target: u64, keys: seq<string>, at: nat, soft: seq<string>, first: u64)
    returns (n: nat, second: (Master, u64))
    requires NoDuplicates(keys) && AllPresent(m.objects, tenant, keys) && StretchOf(keys, at, soft) && |keys| == at + |soft|
    requires PrefixBytes(m.objects, tenant, keys, |keys|) <= U64_MAX && first < target
    requires Meets(m.objects, tenant, target, 0, keys, 0, at, at, first)
    requires mid == AfterEvicting(m, tenant, keys, at)
    ensures second == EvictKeys(mid, tenant, target - first, soft, 0, 0) && first + second.1 <= U64_MAX
    ensures Meets(m.objects, tenant, target, 0, keys, 0, |keys|, n, first + second.1)
    ensures second.0 == AfterEvicting(m, tenant, keys, n)
  {
    n := EvictKeysStops(m, mid, tenant, target - first, 0, keys, at, soft, 0);
    second := EvictKeys(mid, tenant, target - first, soft, 0, 0);
    PassesJoin(m.objects, tenant, target, keys, at, n, first, second.1);
  }

  /** Only candidates are touched, other tenants' quotas are not, and victims become exactly Evicted. */
  ghost predicate EvictsOnlyCandidates(m: Master, m': Master, tenant: string, nowMs: u64) {
    && m'.objects.Keys == m.objects.Keys
    && (forall k :: k in m.objects && m'.objects[k] != m.objects[k] ==>
          && k.tenant == tenant && CandidacyOf(m, k, nowMs).Some?
          && m'.objects[k] == m.objects[k].(status := Evicted))
    && m'.quotas.Keys == m.quotas.Keys
    && (forall t :: t in m.quotas && t != tenant ==> m'.quotas[t] == m.quotas[t])
    && m'.segments == m.segments
  }

  /** The reported bytes are the tenant's loss of usage, and its quota's drop. */
  ghost predicate ReportsLoss(m: Master, m': Master, tenant: string, reclaimed: u64) {
    && Usage(m'.objects, Some(tenant)) + reclaimed == Usage(m.objects, Some(tenant))
    && (tenant in m.quotas && tenant in m'.quotas && m.quotas[tenant].usedDramBytes == Usage(m.objects, Some(tenant)) ==>
          m'.quotas[tenant].usedDramBytes + reclaimed == m.quotas[tenant].usedDramBytes)
  }

  /** Soft-pinned objects go only after every normal candidate of the tenant. */
  ghost predicate SoftPinsLast(m: Master, m': Master, tenant: string, nowMs: u64) {
    forall s, k ::
      && s in m.objects && s in m'.objects && CandidacyOf(m, s, nowMs) == Some(SoftPinned) && m'.objects[s] != m.objects[s]
      && k in m.objects && k in m'.objects && k.tenant == tenant && CandidacyOf(m, k, nowMs) == Some(Normal)
      ==> m'.objects[k].status == Evicted
  }

  /** The call reached its target or exhausted the candidates, and its last victim was still needed. */
  ghost predicate ReachesTargetTightly(m: Master, m': Master, tenant: string, target: u64, nowMs: u64, reclaimed: u64) {
    && (reclaimed >= target || forall k :: k in m'.objects && k.tenant == tenant ==> CandidacyOf(m', k, nowMs).None?)
    && (m'.objects != m.objects ==>
          exists k :: k in m.objects && k in m'.objects && m'.objects[k] != m.objects[k]
            && reclaimed - QuotaReservedBytes(m.objects[k]) < target)
  }

  /** What a caller can rely on after an eviction call, in terms of the states before and after. */
  lemma EvictionOutcome(m: Master, tenant: string, target: u64, nowMs: u64, normal: seq<string>, soft: seq<string>)
    requires Enumerates(m, tenant, nowMs, Normal, normal) && Enumerates(m, tenant, nowMs, SoftPinned, soft)
    requires Usage(m.objects, Some(tenant)) <= U64_MAX
    ensures var (m', reclaimed) := EvictForTenant(m, tenant, target, normal, soft);
      && EvictsOnlyCandidates(m, m', tenant, nowMs)
      && ReportsLoss(m, m', tenant, reclaimed)
      && SoftPinsLast(m, m', tenant, nowMs)
      && ReachesTargetTightly(m, m', tenant, target, nowMs, reclaimed)
  {
    var n := EvictionTakesShortestPrefix(m, tenant, target, nowMs, normal, soft);
    var out := EvictForTenant(m, tenant, target, normal, soft);
    PrefixIsCandidates(m, out, tenant, target, nowMs, normal, soft, n);
    PrefixLoss(m, out, tenant, target, nowMs, normal, soft, n);
    PrefixTight(m, out, tenant, target, nowMs, normal, soft, n);
  }

  lemma PrefixIsCandidates(
    m: Master, out: (Master, u64), tenant: string, target: u64, nowMs: u64, normal: seq<string>, soft: seq<string>, n: nat)
    requires Enumerates(m, tenant, nowMs, Normal, normal) && Enumerates(m, tenant, nowMs, SoftPinned, soft)
    requires StopsAt(m, out, tenant, target, normal + soft, n)
    ensures EvictsOnlyCandidates(m, out.0, tenant, nowMs)
    ensures SoftPinsLast(m, out.0, tenant, nowMs)
  {
    var all := normal + soft;
    forall k | k in m.objects && Listed(tenant, all, n, k)
      ensures CandidacyOf(m, k, nowMs).Some?
    {
      assert k.key in normal || k.key in soft;
    }
    forall s, k |
      && s in m.objects && CandidacyOf(m, s, nowMs) == Some(SoftPinned) && out.0.objects[s] != m.objects[s]
      && k in m.objects && k.tenant == tenant && CandidacyOf(m, k, nowMs) == Some(Normal)
      ensures out.0.objects[k].status == Evicted
    {
      var i :| 0 <= i < n && all[i] == s.key;
      SoftComesAfter(m, tenant, nowMs, normal, soft, s, i);
      var j :| 0 <= j < |normal| && normal[j] == k.key;
      assert all[j] == k.key && Listed(tenant, all, n, k);
    }
  }

  lemma PrefixLoss(
    m: Master, out: (Master, u64), tenant: string, target: u64, nowMs: u64, normal: seq<string>, soft: seq<string>, n: nat)
    requires Enumerates(m, tenant, nowMs, Normal, normal) && Enumerates(m, tenant, nowMs, SoftPinned, soft)
    requires StopsAt(m, out, tenant, target, normal + soft, n)
    ensures ReportsLoss(m, out.0, tenant, out.1)
  {
    var all, a, b := normal + soft, m.objects, out.0.objects;
    CandidatesAreListable(m, tenant, nowMs, normal, soft);
    PrefixPlusRest(a, tenant, all, n);
    PrefixPlusRest(b, tenant, all, n);
    EvictedPrefixIsEmpty(m, out.0, tenant, all, n, n);
    var restA := set k | k in ScopeKeys(a, Some(tenant)) && !Listed(tenant, all, n, k);
    var restB := set k | k in ScopeKeys(b, Some(tenant)) && !Listed(tenant, all, n, k);
    assert restA == restB;
    LiveBytesFrame(a, b, restA);
  }

  lemma {:induction false} EvictedPrefixIsEmpty(m: Master, m': Master, tenant: string, keys: seq<string>, n: nat, i: nat)
    requires Evicts(m, m', tenant, keys, n) && i <= n
    ensures PrefixBytes(m'.objects, tenant, keys, i) == 0
  {
    if i > 0 {
      EvictedPrefixIsEmpty(m, m', tenant, keys, n, i - 1);
      assert Listed(tenant, keys, n, ObjKey(tenant, keys[i - 1]));
    }
  }

  lemma PrefixTight(
    m: Master, out: (Master, u64), tenant: string, target: u64, nowMs: u64, normal: seq<string>, soft: seq<string>, n: nat)
    requires Enumerates(m, tenant, nowMs, Normal, normal) && Enumerates(m, tenant, nowMs, SoftPinned, soft)
    requires StopsAt(m, out, tenant, target, normal + soft, n)
    ensures ReachesTargetTightly(m, out.0, tenant, target, nowMs, out.1)
  {
    var all, m' := normal + soft, out.0;
    CandidatesAreListable(m, tenant, nowMs, normal, soft);
    forall k | n == |all| && k in m'.objects && k.tenant == tenant
      ensures CandidacyOf(m', k, nowMs).None?
    {
      CandidateIsListed(m, tenant, nowMs, normal, soft, k);
    }
    if n > 0 {
      var k := ObjKey(tenant, all[n - 1]);
      assert Listed(tenant, all, n, k);
      assert all[n - 1] in normal || all[n - 1] in soft;
      assert m.objects[k].status == Committed;
    } else {
      assert m'.objects == m.objects;
    }
  }
}
