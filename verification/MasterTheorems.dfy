/** Safety of whole runs of the master: accounting, write-once keys and leases. */
module MasterTheorems {
  import opened Types
  import opened Segments
  import opened Objects
  import opened Master
  import opened MasterRuns

  // ---- Accounting ----

  /** Segments are only appended to and advanced. */
  ghost predicate SegmentsGrow(a: seq<Segment>, b: seq<Segment>) {
    && |a| <= |b|
    && forall i :: 0 <= i < |a| ==>
      b[i].nodeId == a[i].nodeId && b[i].len == a[i].len && a[i].nextOffset <= b[i].nextOffset
  }

  lemma PutStartGrowsSegments(m: Master, k: ObjKey, len: u64, count: u64)
    requires Bounded(m.segments)
    ensures var segments := PutStart(m, k, len, count).0.segments;
      SegmentsGrow(m.segments, segments) && Bounded(segments) && CapacityTotal(m.segments) <= CapacityTotal(segments)
  {
    if Allocate(m.segments, len, count).Ok? {
      AllocateEffect(m.segments, len, count);
      AllocateTotals(m.segments, len, count);
    }
  }

  lemma StepGrowsSegments(m: Master, op: Op, m': Master)
    requires Bounded(m.segments) && Next(m, op, m')
    ensures SegmentsGrow(m.segments, m'.segments) && Bounded(m'.segments)
    ensures CapacityTotal(m.segments) <= CapacityTotal(m'.segments)
  {
    if op.OpMount? {
      assert m'.segments[..|m'.segments| - 1] == m.segments;
    } else if op.OpPutStart? {
      PutStartGrowsSegments(m, op.k, op.len, op.count);
    } else if op.OpEvict? {
      EvictFrame(m, op);
    }
  }

  lemma {:induction false} RunGrowsSegments(states: seq<Master>, ops: seq<Op>, i: nat, j: nat)
    requires Behaviour(states, ops) && i <= j < |states| && Bounded(states[0].segments)
    ensures Bounded(states[j].segments)
    ensures SegmentsGrow(states[i].segments, states[j].segments)
    ensures CapacityTotal(states[i].segments) <= CapacityTotal(states[j].segments)
    decreases j
  {
    if j > 0 {
      RunGrowsSegments(states, ops, if i < j then i else j - 1, j - 1);
      GrowsAt(states, ops, j - 1);
    }
  }

  lemma GrowsAt(states: seq<Master>, ops: seq<Op>, p: nat)
    requires Behaviour(states, ops) && p < |ops| && Bounded(states[p].segments)
    ensures SegmentsGrow(states[p].segments, states[p + 1].segments) && Bounded(states[p + 1].segments)
    ensures CapacityTotal(states[p].segments) <= CapacityTotal(states[p + 1].segments)
  {
    assert NextAt(states, ops, p);
    StepGrowsSegments(states[p], ops[p], states[p + 1]);
  }

  /**
   * In every run from an empty master whose mounted capacity fits in 64 bits, every quota counter equals the bytes its
   * tenant's objects hold, leases sit only on committed objects, and objects never outgrow the segments.
   */
  lemma {:induction false} RunsKeepAccounts(states: seq<Master>, ops: seq<Op>, j: nat)
    requires Behaviour(states, ops) && states[0] == EMPTY && j < |states|
    requires CapacityTotal(states[|states| - 1].segments) <= U64_MAX
    ensures Inv(states[j])
    decreases j
  {
    if j > 0 {
      RunsKeepAccounts(states, ops, j - 1);
      RunGrowsSegments(states, ops, j, |states| - 1);
      assert NextAt(states, ops, j - 1);
      StepKeepsInv(states[j - 1], ops[j - 1], states[j]);
    }
  }

  /** Two objects of the largest length, on two nodes, put one tenant beyond 64 bits. */
  lemma TenantBeyond64Bits(a: ObjKey, b: ObjKey) returns (states: seq<Master>, ops: seq<Op>)
    requires a.tenant == b.tenant && a.key != b.key && !IsBlank(a.tenant)
    ensures Behaviour(states, ops) && states[0] == EMPTY && QuotasExact(states[|ops|])
    ensures !QuotasExact(SetTenantQuota(states[|ops|], a.tenant, 0, 0).0)
  {
    var op1, op2, m1 := MountAndFill(EMPTY, "m", a, 0);
    var op3, op4, m2 := MountAndFill(m1[1], "n", b, 1);
    ops := [op1, op2, op3, op4];
    states := [EMPTY, m1[0], m1[1], m2[0], m2[1]];
    TwoLargeObjects(m1[1].objects, m2[1].objects, a, b);
    SetQuotaExactIff(m2[1], a.tenant, 0, 0);
  }

  lemma MountAndFill(m: Master, nodeId: string, k: ObjKey, s: nat) returns (mount: Op, fill: Op, after: seq<Master>)
    requires k !in m.objects && m.quotas == map[] && |m.segments| == s
    requires forall i :: 0 <= i < s ==> m.segments[i].nextOffset == m.segments[i].len == U64_MAX
    ensures |after| == 2 && Next(m, mount, after[0]) && Next(after[0], fill, after[1])
    ensures after[1].quotas == map[] && |after[1].segments| == s + 1
    ensures forall i :: 0 <= i <= s ==> after[1].segments[i].nextOffset == after[1].segments[i].len == U64_MAX
    ensures after[1].objects.Keys == m.objects.Keys + {k} && SameExceptAt(m.objects, after[1].objects, k)
    ensures BytesAt(after[1].objects, k) == U64_MAX
  {
    mount, fill := OpMount(nodeId, U64_MAX), OpPutStart(k, U64_MAX, 1);
    var mounted := MountSegment(m, nodeId, U64_MAX);
    var filled := FillSegment(mounted, k, s);
    after := [mounted, filled];
  }

  lemma TwoLargeObjects(one: ObjectMap, two: ObjectMap, a: ObjKey, b: ObjKey)
    requires a.tenant == b.tenant && a in one && b !in one
    requires SameExceptAt(map[], one, a) && SameExceptAt(one, two, b)
    requires BytesAt(one, a) == U64_MAX && BytesAt(two, b) == U64_MAX
    ensures Usage(two, Some(a.tenant)) > U64_MAX
  {
    UsageChange(map[], one, a, Some(a.tenant));
    UsageChange(one, two, b, Some(a.tenant));
  }

  lemma FillGranted(m: Master, k: ObjKey, s: nat)
    requires k !in m.objects && m.quotas == map[] && |m.segments| == s + 1
    requires m.segments[s].len == U64_MAX && m.segments[s].nextOffset == 0
    requires forall i :: 0 <= i < s ==> m.segments[i].nextOffset == m.segments[i].len == U64_MAX
    ensures PutStart(m, k, U64_MAX, 1).1.Ok? && FirstFit(m.segments, U64_MAX, 1, 0) == [s]
  {
    OnlyLastFits(m.segments, s);
    PutStartSucceedsIff(m, k, U64_MAX, 1);
  }

  /** An object as long as the last segment takes all of it. */
  lemma FillSegment(m: Master, k: ObjKey, s: nat) returns (m': Master)
    requires k !in m.objects && m.quotas == map[] && |m.segments| == s + 1
    requires m.segments[s].len == U64_MAX && m.segments[s].nextOffset == 0
    requires forall i :: 0 <= i < s ==> m.segments[i].nextOffset == m.segments[i].len == U64_MAX
    ensures m' == PutStart(m, k, U64_MAX, 1).0 && m'.quotas == map[] && |m'.segments| == s + 1
    ensures forall i :: 0 <= i <= s ==> m'.segments[i].nextOffset == m'.segments[i].len == U64_MAX
    ensures m'.objects.Keys == m.objects.Keys + {k} && SameExceptAt(m.objects, m'.objects, k)
    ensures BytesAt(m'.objects, k) == U64_MAX
  {
    FillGranted(m, k, s);
    PutStartGrants(m, k, U64_MAX, 1);
    m' := PutStart(m, k, U64_MAX, 1).0;
  }

  /** With all earlier segments full, first fit takes the last one. */
  lemma OnlyLastFits(segments: seq<Segment>, s: nat)
    requires |segments| == s + 1 && segments[s].len == U64_MAX && segments[s].nextOffset == 0
    requires forall i :: 0 <= i < s ==> segments[i].nextOffset == segments[i].len == U64_MAX
    ensures FittingCount(segments, U64_MAX, 0) >= 1 && FirstFit(segments, U64_MAX, 1, 0) == [s]
  {
    assert segments[s].CanFit(U64_MAX);
    FirstFitSkipsNone(segments, U64_MAX, 1, 0, s);
    FirstFitLength(segments, U64_MAX, 1, 0);
    LastFits(segments, U64_MAX, 0, s);
    var idx := FirstFit(segments, U64_MAX, 1, 0);
    assert idx == [idx[0]];
  }

  lemma {:induction false} LastFits(segments: seq<Segment>, len: u64, from: nat, s: nat)
    requires from <= s < |segments| && segments[s].CanFit(len)
    ensures FittingCount(segments, len, from) >= 1
    decreases |segments| - from
  {
    if from < s {
      LastFits(segments, len, from + 1, s);
    }
  }

  // ---- Write-once keys ----

  function Rank(status: ObjectStatus): nat {
    match status
    case Reserving => 0
    case Writing => 1
    case Committed => 2
    case Evicted => 3
    case Revoked => 4
  }

  /** The object under `k` is the same reservation, at the same or a later stage of its life. */
  ghost predicate SameReservation(m: Master, m': Master, k: ObjKey) {
    && k in m.objects && k in m'.objects
    && m'.objects[k] == m.objects[k].(status := m'.objects[k].status)
    && Rank(m.objects[k].status) <= Rank(m'.objects[k].status)
  }

  lemma StepKeepsReservation(m: Master, op: Op, m': Master, k: ObjKey)
    requires Next(m, op, m') && k in m.objects && op != OpRemove(k)
    ensures SameReservation(m, m', k)
  {
    if op.OpEvict? {
      EvictFrame(m, op);
    }
  }

  lemma SameReservationTransitive(a: Master, b: Master, c: Master, k: ObjKey)
    requires SameReservation(a, b, k) && SameReservation(b, c, k)
    ensures SameReservation(a, c, k)
  {
  }

  /** Between two removals of a key its reservation is unique: length and replicas are fixed, the status moves forward. */
  lemma {:induction false} KeysAreWriteOnce(states: seq<Master>, ops: seq<Op>, i: nat, j: nat, k: ObjKey)
    requires Behaviour(states, ops) && i <= j < |states| && k in states[i].objects
    requires forall p :: i <= p < j ==> ops[p] != OpRemove(k)
    ensures SameReservation(states[i], states[j], k)
    decreases j
  {
    if i < j {
      KeysAreWriteOnce(states, ops, i, j - 1, k);
      assert NextAt(states, ops, j - 1);
      StepKeepsReservation(states[j - 1], ops[j - 1], states[j], k);
      SameReservationTransitive(states[i], states[j - 1], states[j], k);
    }
  }

  /** ... and no further `put_start` of that key succeeds. */
  lemma NoSecondGrant(states: seq<Master>, ops: seq<Op>, i: nat, j: nat, k: ObjKey)
    requires Behaviour(states, ops) && i <= j < |ops| && k in states[i].objects
    requires forall p :: i <= p < j ==> ops[p] != OpRemove(k)
    requires ops[j].OpPutStart? && ops[j].k == k
    ensures PutStart(states[j], k, ops[j].len, ops[j].count).1 == Err(AlreadyExists) && states[j + 1] == states[j]
  {
    KeysAreWriteOnce(states, ops, i, j, k);
    assert NextAt(states, ops, j);
  }

  /** A key that was visible and is no longer is never visible again before it is removed. */
  lemma GoneStaysGone(states: seq<Master>, ops: seq<Op>, i: nat, j: nat, k: ObjKey, nowMs: u64)
    requires Behaviour(states, ops) && i <= j < |states| && k in states[i].objects
    requires Rank(states[i].objects[k].status) > Rank(Committed)
    requires forall p :: i <= p < j ==> ops[p] != OpRemove(k)
    ensures GetReplicaList(states[j], k, nowMs).1 == Err(NotFound)
  {
    KeysAreWriteOnce(states, ops, i, j, k);
  }

  // ---- Leases ----

  predicate HasClock(op: Op) {
    op.OpLookup? || op.OpEvict?
  }

  /** From step `i` on, the clock readings never go backwards. */
  ghost predicate ClockAdvances(ops: seq<Op>, i: nat) {
    forall p, q :: i <= p < q < |ops| && HasClock(ops[p]) && HasClock(ops[q]) ==> ops[p].nowMs <= ops[q].nowMs
  }

  /** Committed, and leased until at least `until`. */
  ghost predicate LeasedUntil(m: Master, k: ObjKey, until: nat) {
    && k in m.objects && m.objects[k].status == Committed
    && k in m.leases && m.leases[k].expiresAtMs >= until
  }

  lemma StepKeepsLease(m: Master, op: Op, m': Master, k: ObjKey, since: u64)
    requires Next(m, op, m') && LeasedUntil(m, k, SaturatingAdd(since, LEASE_TTL_MS))
    requires op != OpPutRevoke(k) && op != OpRemove(k)
    requires HasClock(op) ==> since <= op.nowMs
    requires op.OpEvict? ==> op.nowMs < SaturatingAdd(since, LEASE_TTL_MS)
    ensures LeasedUntil(m', k, SaturatingAdd(since, LEASE_TTL_MS)) && m'.objects[k] == m.objects[k]
  {
    if op.OpEvict? {
      EvictFrame(m, op);
      assert k !in Candidates(m, op.tenant, op.nowMs);
    }
  }

  /**
   * An object looked up at time t stays committed, with the same replicas, through every eviction before t + 5000 ms
   * (the end of 64-bit time at the latest); only a revoke or a removal of that key can take it away.
   */
  lemma {:induction false} LookupProtectsFromEviction(states: seq<Master>, ops: seq<Op>, i: nat, j: nat, k: ObjKey)
    requires Behaviour(states, ops) && i < j < |states|
    requires ops[i].OpLookup? && ops[i].k == k && GetReplicaList(states[i], k, ops[i].nowMs).1.Ok?
    requires ClockAdvances(ops, i)
    requires forall p :: i < p < j ==> ops[p] != OpPutRevoke(k) && ops[p] != OpRemove(k)
    requires forall p :: i < p < j && ops[p].OpEvict? ==> ops[p].nowMs < SaturatingAdd(ops[i].nowMs, LEASE_TTL_MS)
    ensures LeasedUntil(states[j], k, SaturatingAdd(ops[i].nowMs, LEASE_TTL_MS))
    ensures states[j].objects[k] == states[i].objects[k]
    decreases j
  {
    assert NextAt(states, ops, j - 1);
    if i + 1 < j {
      LookupProtectsFromEviction(states, ops, i, j - 1, k);
      StepKeepsLease(states[j - 1], ops[j - 1], states[j], k, ops[i].nowMs);
    }
  }

  /**
   * The object is an eviction candidate again from the millisecond in which its lease ends, or the clock's last one. So
   * the full 5000 ms are covered exactly when they end within 64-bit time.
   */
  lemma LeaseCoversTtlIff(m: Master, k: ObjKey, nowMs: u64)
    requires GetReplicaList(m, k, nowMs).1.Ok? && !m.objects[k].hardPinned
    ensures forall t: u64 ::
      CandidacyOf(GetReplicaList(m, k, nowMs).0, k, t).None? <==> t < nowMs + LEASE_TTL_MS && t < U64_MAX
    ensures (forall t: u64 :: nowMs <= t < nowMs + LEASE_TTL_MS ==> CandidacyOf(GetReplicaList(m, k, nowMs).0, k, t).None?)
       <==> nowMs + LEASE_TTL_MS <= U64_MAX
  {
    var m' := GetReplicaList(m, k, nowMs).0;
    if nowMs + LEASE_TTL_MS > U64_MAX {
      var last: u64 := U64_MAX;
      assert CandidacyOf(m', k, last).Some?;
    }
  }

  lemma StepKeepsSequence(m: Master, op: Op, m': Master)
    requires Next(m, op, m')
    ensures m.nextLeaseSequence <= m'.nextLeaseSequence
    ensures op.OpLookup? && GetReplicaList(m, op.k, op.nowMs).1.Ok? ==>
      var lease := GetReplicaList(m, op.k, op.nowMs).1.value.lease;
      && lease.sequence == m'.nextLeaseSequence && (lease.sequence > m.nextLeaseSequence || lease.sequence == U64_MAX)
  {
    if op.OpEvict? {
      SequenceThroughPasses(m, op.tenant, op.target, op.normal, op.soft);
    }
  }

  lemma {:induction false} SequenceThroughPass(
    m: Master, tenant: string, target: u64, keys: seq<string>, i: nat, reclaimed: u64)
    requires i <= |keys|
    ensures EvictKeys(m, tenant, target, keys, i, reclaimed).0.nextLeaseSequence == m.nextLeaseSequence
    decreases |keys| - i
  {
    if i < |keys| && reclaimed < target {
      var k := ObjKey(tenant, keys[i]);
      if k in m.objects {
        var next := SaturatingAdd(reclaimed, QuotaReservedBytes(m.objects[k]));
        SequenceThroughPass(EvictOne(m, k), tenant, target, keys, i + 1, next);
      } else {
        SequenceThroughPass(m, tenant, target, keys, i + 1, reclaimed);
      }
    }
  }

  lemma SequenceThroughPasses(m: Master, tenant: string, target: u64, normal: seq<string>, soft: seq<string>)
    ensures EvictForTenant(m, tenant, target, normal, soft).0.nextLeaseSequence == m.nextLeaseSequence
  {
    var first := EvictKeys(m, tenant, target, normal, 0, 0);
    SequenceThroughPass(m, tenant, target, normal, 0, 0);
    if first.1 < target {
      SequenceThroughPass(first.0, tenant, target - first.1, soft, 0, 0);
    }
  }

  lemma {:induction false} SequencesNeverFall(states: seq<Master>, ops: seq<Op>, i: nat, j: nat)
    requires Behaviour(states, ops) && i <= j < |states|
    ensures states[i].nextLeaseSequence <= states[j].nextLeaseSequence
    decreases j
  {
    if i < j {
      SequencesNeverFall(states, ops, i, j - 1);
      assert NextAt(states, ops, j - 1);
      StepKeepsSequence(states[j - 1], ops[j - 1], states[j]);
    }
  }

  /** In every run a later lease has a higher number than an earlier one, until the numbers run out. */
  lemma LeaseNumbersIncrease(states: seq<Master>, ops: seq<Op>, i: nat, j: nat)
    requires Behaviour(states, ops) && i < j < |ops| && ops[i].OpLookup? && ops[j].OpLookup?
    requires GetReplicaList(states[i], ops[i].k, ops[i].nowMs).1.Ok? && GetReplicaList(states[j], ops[j].k, ops[j].nowMs).1.Ok?
    ensures var (early, late) := (GetReplicaList(states[i], ops[i].k, ops[i].nowMs).1.value.lease.sequence,
                                  GetReplicaList(states[j], ops[j].k, ops[j].nowMs).1.value.lease.sequence);
      early < late || late == U64_MAX
  {
    assert NextAt(states, ops, i) && NextAt(states, ops, j);
    StepKeepsSequence(states[i], ops[i], states[i + 1]);
    StepKeepsSequence(states[j], ops[j], states[j + 1]);
    SequencesNeverFall(states, ops, i + 1, j);
  }
}
