/** What every interleaving keeps, and why a hit can only return what was written for that very key. */
module ClusterSafety {
  import opened Types
  import opened Segments
  import opened Objects
  import opened Master
  import opened MasterRuns
  import opened Store
  import opened Cluster

  // ---- The invariant ----

  /** Grants follow each other up the one segment, without overlap. */
  ghost predicate GrantsStacked(c: Cluster) {
    && |c.master.segments| == 1 && Bounded(c.master.segments)
    && (forall i :: 0 <= i < |c.grants| ==>
          && 0 < |c.grants[i].bytes| == c.grants[i].replica.len
          && c.grants[i].replica.offset + c.grants[i].replica.len <= c.master.segments[0].nextOffset)
    && (forall i, j :: 0 <= i < j < |c.grants| ==>
          c.grants[i].replica.offset + c.grants[i].replica.len <= c.grants[j].replica.offset)
  }

  /** `g` is the reservation the master's table shows for `k`. */
  ghost predicate Shows(c: Cluster, k: ObjKey, g: Grant) {
    && g in c.grants && g.k == k
    && k in c.master.objects && c.master.objects[k].replicas == [g.replica]
  }

  ghost predicate ObjectsGranted(c: Cluster) {
    forall k :: k in c.master.objects ==> exists g :: Shows(c, k, g)
  }

  /** The store holds this grant's bytes, with their digest, in this grant's region. */
  ghost predicate Written(hash: Hash, c: Cluster, g: Grant) {
    Holds(hash, c.store, g.replica.offset, g.bytes)
  }

  ghost predicate StoreGranted(hash: Hash, c: Cluster) {
    && c.store.Sized()
    && forall o :: o in c.store.allocations ==>
      exists g :: g in c.grants && g.replica.offset == o && Written(hash, c, g)
  }

  ghost predicate WritersGranted(hash: Hash, c: Cluster) {
    forall w :: w in c.writers && InFlight(c.writers[w]) ==>
      c.writers[w].grant in c.grants && (c.writers[w].Stored? ==> Written(hash, c, c.writers[w].grant))
  }

  ghost predicate ReaderOk(hash: Hash, c: Cluster, reader: Reader) {
    match reader
    case Missed(_) => true
    case Holding(k, replica) => exists g :: g in c.grants && g.k == k && g.replica == replica
    case Answered(k, Ok(bytes)) => exists g :: g in c.grants && g.k == k && g.bytes == bytes && Written(hash, c, g)
    case Answered(_, Err(_)) => true
  }

  ghost predicate ReadersGranted(hash: Hash, c: Cluster) {
    forall r :: r in c.readers ==> ReaderOk(hash, c, c.readers[r])
  }

  ghost predicate Safe(hash: Hash, c: Cluster) {
    && GrantsStacked(c) && ObjectsGranted(c)
    && StoreGranted(hash, c) && WritersGranted(hash, c) && ReadersGranted(hash, c)
  }

  // ---- Consequences ----

  lemma SameOffsetSameGrant(c: Cluster, g: Grant, h: Grant)
    requires GrantsStacked(c) && g in c.grants && h in c.grants && g.replica.offset == h.replica.offset
    ensures g == h
  {
    var i :| 0 <= i < |c.grants| && c.grants[i] == g;
    var j :| 0 <= j < |c.grants| && c.grants[j] == h;
  }

  lemma DifferentGrantsDisjoint(c: Cluster, g: Grant, h: Grant)
    requires GrantsStacked(c) && g in c.grants && h in c.grants && g != h
    ensures DisjointRegions(g.replica.offset, |g.bytes|, h.replica.offset, |h.bytes|)
  {
    var i :| 0 <= i < |c.grants| && c.grants[i] == g;
    var j :| 0 <= j < |c.grants| && c.grants[j] == h;
  }

  /** Reading a granted region gives its writer's bytes once they were written, and an error before. */
  lemma GrantedRead(hash: Hash, c: Cluster, g: Grant)
    requires GrantsStacked(c) && StoreGranted(hash, c) && g in c.grants
    ensures ReadChunk(hash, c.store, FromReplica(g.replica)) ==
      if Written(hash, c, g) then Ok(g.bytes) else Err(InvalidHandle(g.replica.offset, g.replica.len))
  {
    var i :| 0 <= i < |c.grants| && c.grants[i] == g;
    if Written(hash, c, g) {
      HeldBytesRead(hash, c.store, g.replica.offset, g.bytes);
    } else if g.replica.offset in c.store.allocations {
      var h :| h in c.grants && h.replica.offset == g.replica.offset && Written(hash, c, h);
      SameOffsetSameGrant(c, g, h);
    }
  }

  // ---- Preservation ----

  /** No segment moves, no object appears, and the objects that stay keep their replicas. */
  ghost predicate KeepsReplicas(m: Master, m': Master) {
    && m'.segments == m.segments
    && forall k :: k in m'.objects ==> k in m.objects && m'.objects[k].replicas == m.objects[k].replicas
  }

  lemma LifecycleKeepsReplicas(m: Master, k: ObjKey)
    ensures KeepsReplicas(m, m) && KeepsReplicas(m, PutEnd(m, k).0)
    ensures KeepsReplicas(m, PutRevoke(m, k).0) && KeepsReplicas(m, Remove(m, k).0)
  {
  }

  /** Steps that leave grants and store alone, move no segment, and keep the table's replicas. */
  lemma TableStepIsSafe(hash: Hash, c: Cluster, c': Cluster)
    requires Safe(hash, c)
    requires c'.grants == c.grants && c'.store == c.store && KeepsReplicas(c.master, c'.master)
    requires WritersGranted(hash, c') && ReadersGranted(hash, c')
    ensures Safe(hash, c')
  {
    forall k | k in c'.master.objects
      ensures exists g :: Shows(c', k, g)
    {
      var g :| Shows(c, k, g);
      assert Shows(c', k, g);
    }
    forall o | o in c'.store.allocations
      ensures exists g :: g in c'.grants && g.replica.offset == o && Written(hash, c', g)
    {
      var g :| g in c.grants && g.replica.offset == o && Written(hash, c, g);
      assert Written(hash, c', g);
    }
  }

  /** What a reader was told stays true while grants only grow and written regions stay written. */
  lemma ReaderStaysOk(hash: Hash, c: Cluster, c': Cluster, reader: Reader)
    requires ReaderOk(hash, c, reader)
    requires forall g :: g in c.grants ==> g in c'.grants && (Written(hash, c, g) ==> Written(hash, c', g))
    ensures ReaderOk(hash, c', reader)
  {
  }

  /** Grants already made stay, and what they wrote stays written. */
  ghost predicate HistoryKept(hash: Hash, c: Cluster, c': Cluster) {
    forall g :: g in c.grants ==> g in c'.grants && (Written(hash, c, g) ==> Written(hash, c', g))
  }

  /** `c'` is `c` after one more reservation: a fresh entry, the next region up the segment, and its writer. */
  ghost predicate Reserves(c: Cluster, c': Cluster, w: nat, grant: Grant, heard: bool) {
    && |c.master.segments| == |c'.master.segments| == 1
    && grant.k !in c.master.objects && grant.k in c'.master.objects
    && c'.master.objects == c.master.objects[grant.k := c'.master.objects[grant.k]]
    && c'.master.objects[grant.k].status == Reserving && c'.master.objects[grant.k].replicas == [grant.replica]
    && 0 < |grant.bytes| == grant.replica.len
    && grant.replica.offset == c.master.segments[0].nextOffset
    && c'.master.segments[0].nextOffset == c.master.segments[0].nextOffset + grant.replica.len
    && c'.master.segments[0].nextOffset <= c'.master.segments[0].len == c.master.segments[0].len
    && c'.store == c.store && c'.readers == c.readers
    && c'.grants == c.grants + [grant]
    && c'.writers == c.writers[w := if heard then Reserved(grant) else Done]
  }

  lemma StartReserves(c: Cluster, w: nat, k: ObjKey, bytes: Bytes, heard: bool) returns (grant: Grant)
    requires |c.master.segments| == 1 && Bounded(c.master.segments) && |bytes| <= U64_MAX
    requires PutStart(c.master, k, |bytes|, REPLICA_COUNT).1.Ok?
    ensures grant.k == k && grant.bytes == bytes
    ensures Reserves(c, DoStart(c, w, k, bytes, true, heard), w, grant, heard)
  {
    var m := c.master;
    PutStartGrants(m, k, |bytes|, 1);
    assert FirstFit(m.segments, |bytes|, 1, 0)[0] == 0;
    grant := Grant(k, bytes, Replica(m.segments[0].nodeId, m.segments[0].nextOffset, |bytes|));
    assert PutStart(m, k, |bytes|, 1).1.value == [grant.replica];
  }

  lemma StartIsSafe(hash: Hash, c: Cluster, w: nat, k: ObjKey, bytes: Bytes, delivered: bool, heard: bool)
    requires Safe(hash, c) && w !in c.writers && |bytes| <= U64_MAX
    ensures Safe(hash, DoStart(c, w, k, bytes, delivered, heard))
    ensures HistoryKept(hash, c, DoStart(c, w, k, bytes, delivered, heard))
  {
    var c' := DoStart(c, w, k, bytes, delivered, heard);
    if delivered && PutStart(c.master, k, |bytes|, REPLICA_COUNT).1.Ok? {
      var grant := StartReserves(c, w, k, bytes, heard);
      ReservingIsSafe(hash, c, c', w, grant, heard);
    } else {
      PutStartAllOrNothing(c.master, k, |bytes|, REPLICA_COUNT);
      TableStepIsSafe(hash, c, c');
    }
  }

  lemma ReservingIsSafe(hash: Hash, c: Cluster, c': Cluster, w: nat, grant: Grant, heard: bool)
    requires Safe(hash, c) && w !in c.writers && Reserves(c, c', w, grant, heard)
    ensures Safe(hash, c') && HistoryKept(hash, c, c')
  {
    ReservingKeepsGranted(c, c', w, grant, heard);
    assert HistoryKept(hash, c, c');
    StoreStaysGranted(hash, c, c');
    forall i | i in c'.readers { ReaderStaysOk(hash, c, c', c'.readers[i]); }
  }

  lemma ReservingKeepsGranted(c: Cluster, c': Cluster, w: nat, grant: Grant, heard: bool)
    requires ObjectsGranted(c) && Reserves(c, c', w, grant, heard)
    ensures ObjectsGranted(c')
  {
    forall q | q in c'.master.objects
      ensures exists g :: Shows(c', q, g)
    {
      if q == grant.k {
        assert Shows(c', q, grant);
      } else {
        var g :| Shows(c, q, g);
        assert Shows(c', q, g);
      }
    }
  }

  lemma StoreStaysGranted(hash: Hash, c: Cluster, c': Cluster)
    requires StoreGranted(hash, c) && c'.store == c.store && HistoryKept(hash, c, c')
    ensures StoreGranted(hash, c')
  {
    forall o | o in c'.store.allocations
      ensures exists g :: g in c'.grants && g.replica.offset == o && Written(hash, c', g)
    {
      var g :| g in c.grants && g.replica.offset == o && Written(hash, c, g);
      assert g in c'.grants && Written(hash, c', g);
    }
  }

  /** A writer's bytes land in its own region and in no other grant's. */
  lemma WriteBytesIsSafe(hash: Hash, c: Cluster, a: Action)
    requires Safe(hash, c) && a.WriteBytes? && Ready(c, a)
    ensures Safe(hash, Act(hash, c, a)) && HistoryKept(hash, c, Act(hash, c, a))
  {
    var c' := Act(hash, c, a);
    var grant := c.writers[a.w].grant;
    var h := FromReplica(grant.replica);
    WriteThenRead(hash, c.store, h, grant.bytes);
    if !a.delivered || WritePreallocated(hash, c.store, h, grant.bytes).1.Err? {
      TableStepIsSafe(hash, c, c');
    } else {
      OtherGrantsSurvive(hash, c, grant, c');
      WrittenIsSafe(hash, c, c', grant);
    }
  }

  lemma OtherGrantsSurvive(hash: Hash, c: Cluster, grant: Grant, c': Cluster)
    requires Safe(hash, c) && grant in c.grants && |grant.bytes| <= U64_MAX
    requires WritePreallocated(hash, c.store, FromReplica(grant.replica), grant.bytes).1.Ok?
    requires c'.store == WritePreallocated(hash, c.store, FromReplica(grant.replica), grant.bytes).0
    requires c'.grants == c.grants
    ensures Written(hash, c', grant) && HistoryKept(hash, c, c')
  {
    WriteThenRead(hash, c.store, FromReplica(grant.replica), grant.bytes);
    forall g | g in c.grants && Written(hash, c, g)
      ensures Written(hash, c', g)
    {
      if g != grant {
        DifferentGrantsDisjoint(c, g, grant);
        var i :| 0 <= i < |c.grants| && c.grants[i] == g;
        var j :| 0 <= j < |c.grants| && c.grants[j] == grant;
        HeldBytesSurvive(hash, c.store, FromReplica(grant.replica), grant.bytes, g.replica.offset, g.bytes);
      }
    }
  }

  lemma WrittenIsSafe(hash: Hash, c: Cluster, c': Cluster, grant: Grant)
    requires Safe(hash, c) && HistoryKept(hash, c, c') && grant in c.grants && Written(hash, c', grant)
    requires c'.grants == c.grants && c'.master == c.master && c'.readers == c.readers && c'.store.Sized()
    requires c'.store.allocations.Keys == c.store.allocations.Keys + {grant.replica.offset}
    requires WritersGranted(hash, c')
    ensures Safe(hash, c')
  {
    forall k | k in c'.master.objects
      ensures exists g :: Shows(c', k, g)
    {
      var g :| Shows(c, k, g);
      assert Shows(c', k, g);
    }
    forall o | o in c'.store.allocations
      ensures exists g :: g in c'.grants && g.replica.offset == o && Written(hash, c', g)
    {
      if o != grant.replica.offset {
        var g :| g in c.grants && g.replica.offset == o && Written(hash, c, g);
        assert Written(hash, c', g);
      }
    }
    forall i | i in c'.readers { ReaderStaysOk(hash, c, c', c'.readers[i]); }
  }

  lemma ReaderMoves(hash: Hash, c: Cluster, c': Cluster, r: nat)
    requires Safe(hash, c) && c'.grants == c.grants && c'.store == c.store && c'.writers == c.writers
    requires KeepsReplicas(c.master, c'.master)
    requires r in c'.readers && c'.readers == c.readers[r := c'.readers[r]] && ReaderOk(hash, c', c'.readers[r])
    ensures Safe(hash, c')
  {
    forall i | i in c'.readers
      ensures ReaderOk(hash, c', c'.readers[i])
    {
      if i != r {
        ReaderStaysOk(hash, c, c', c.readers[i]);
      }
    }
    TableStepIsSafe(hash, c, c');
  }

  lemma LookUpIsSafe(hash: Hash, c: Cluster, r: nat, k: ObjKey, nowMs: u64)
    requires Safe(hash, c)
    ensures Safe(hash, DoLookUp(c, r, k, nowMs))
  {
    var c' := DoLookUp(c, r, k, nowMs);
    if k in c.master.objects {
      var g :| Shows(c, k, g);
      assert g in c'.grants && g.k == k;
    }
    ReaderMoves(hash, c, c', r);
  }

  lemma ReadBytesIsSafe(hash: Hash, c: Cluster, r: nat)
    requires Safe(hash, c) && r in c.readers && c.readers[r].Holding?
    ensures Safe(hash, DoReadBytes(hash, c, r))
  {
    var c' := DoReadBytes(hash, c, r);
    var Holding(k, replica) := c.readers[r];
    var g :| g in c.grants && g.k == k && g.replica == replica;
    GrantedRead(hash, c, g);
    assert g in c'.grants && (Written(hash, c, g) ==> Written(hash, c', g));
    ReaderMoves(hash, c, c', r);
  }

  /** As above, when no reader moves either. */
  lemma TableOnlyStepIsSafe(hash: Hash, c: Cluster, c': Cluster)
    requires Safe(hash, c)
    requires c'.grants == c.grants && c'.store == c.store && KeepsReplicas(c.master, c'.master)
    requires c'.readers == c.readers && WritersGranted(hash, c')
    ensures Safe(hash, c')
  {
    forall i | i in c'.readers { ReaderStaysOk(hash, c, c', c'.readers[i]); }
    TableStepIsSafe(hash, c, c');
  }

  /** A writer that only moves towards Failing or Done keeps every writer's grant on record. */
  lemma WriterMoves(hash: Hash, c: Cluster, c': Cluster, w: nat, next: Writer)
    requires WritersGranted(hash, c) && w in c.writers
    requires c'.writers == c.writers[w := next] && c'.grants == c.grants && c'.store == c.store
    requires next == Done || (InFlight(c.writers[w]) && next == Failing(c.writers[w].grant))
    ensures WritersGranted(hash, c')
  {
  }

  lemma CommitIsSafe(hash: Hash, c: Cluster, w: nat, delivered: bool, heard: bool)
    requires Safe(hash, c) && w in c.writers && c.writers[w].Stored?
    ensures Safe(hash, DoCommit(c, w, delivered, heard))
  {
    var c' := DoCommit(c, w, delivered, heard);
    LifecycleKeepsReplicas(c.master, c.writers[w].grant.k);
    WriterMoves(hash, c, c', w, c'.writers[w]);
    TableOnlyStepIsSafe(hash, c, c');
  }

  lemma RevokeIsSafe(hash: Hash, c: Cluster, w: nat, delivered: bool)
    requires Safe(hash, c) && w in c.writers && c.writers[w].Failing?
    ensures Safe(hash, DoRevoke(c, w, delivered))
  {
    var c' := DoRevoke(c, w, delivered);
    LifecycleKeepsReplicas(c.master, c.writers[w].grant.k);
    WriterMoves(hash, c, c', w, Done);
    TableOnlyStepIsSafe(hash, c, c');
  }

  lemma StopIsSafe(hash: Hash, c: Cluster, w: nat)
    requires Safe(hash, c) && w in c.writers
    ensures Safe(hash, c.(writers := c.writers[w := Done]))
  {
    var c' := c.(writers := c.writers[w := Done]);
    WriterMoves(hash, c, c', w, Done);
    TableOnlyStepIsSafe(hash, c, c');
  }

  /** The administrator touches only the master's table. */
  lemma AdminIsSafe(hash: Hash, c: Cluster, m: Master)
    requires Safe(hash, c) && KeepsReplicas(c.master, m)
    ensures Safe(hash, c.(master := m))
  {
    TableOnlyStepIsSafe(hash, c, c.(master := m));
  }

  lemma AdminKeepsReplicas(c: Cluster, a: Action, m: Master)
    requires Ready(c, a)
    requires a.AdminRemove? ==> m == Remove(c.master, a.k).0
    requires a.AdminEvict? ==> m == EvictForTenant(c.master, a.tenant, a.target, a.normal, a.soft).0
    requires a.AdminSetQuota? ==> m == SetTenantQuota(c.master, a.tenant, a.dramBytes, a.ssdBytes).0
    requires a.AdminRemove? || a.AdminEvict? || a.AdminSetQuota?
    ensures KeepsReplicas(c.master, m)
  {
    if a.AdminEvict? {
      EvictFrame(c.master, OpEvict(a.tenant, a.target, a.nowMs, a.normal, a.soft));
    } else if a.AdminRemove? {
      LifecycleKeepsReplicas(c.master, a.k);
    }
  }

  lemma ActionIsSafe(hash: Hash, c: Cluster, a: Action)
    requires Safe(hash, c) && Ready(c, a)
    ensures Safe(hash, Act(hash, c, a)) && HistoryKept(hash, c, Act(hash, c, a))
  {
    if a.Start? {
      StartIsSafe(hash, c, a.w, a.k, a.bytes, a.delivered, a.heard);
    } else if a.WriteBytes? {
      WriteBytesIsSafe(hash, c, a);
    } else if a.LookUp? {
      LookUpIsSafe(hash, c, a.r, a.k, a.nowMs);
    } else if a.ReadBytes? {
      ReadBytesIsSafe(hash, c, a.r);
    } else if a.Commit? {
      CommitIsSafe(hash, c, a.w, a.delivered, a.heard);
    } else if a.Revoke? {
      RevokeIsSafe(hash, c, a.w, a.delivered);
    } else if a.Stop? {
      StopIsSafe(hash, c, a.w);
    } else {
      AdminKeepsReplicas(c, a, Act(hash, c, a).master);
      AdminIsSafe(hash, c, Act(hash, c, a).master);
    }
  }

  lemma InitIsSafe(hash: Hash, c: Cluster)
    requires Init(c)
    ensures Safe(hash, c)
  {
  }

  lemma {:induction false} StepsAreSafe(hash: Hash, states: seq<Cluster>, actions: seq<Action>, j: nat)
    requires Steps(hash, states, actions) && Safe(hash, states[0]) && j < |states|
    ensures Safe(hash, states[j])
    decreases j
  {
    if j > 0 {
      StepsAreSafe(hash, states, actions, j - 1);
      assert StepAt(hash, states, actions, j - 1);
      ActionIsSafe(hash, states[j - 1], actions[j - 1]);
    }
  }

  lemma InterleavingsAreSafe(hash: Hash, states: seq<Cluster>, actions: seq<Action>, j: nat)
    requires Interleaving(hash, states, actions) && j < |states|
    ensures Safe(hash, states[j])
  {
    InitIsSafe(hash, states[0]);
    StepsAreSafe(hash, states, actions, j);
  }

  lemma HistoryTransitive(hash: Hash, a: Cluster, b: Cluster, c: Cluster)
    requires HistoryKept(hash, a, b) && HistoryKept(hash, b, c)
    ensures HistoryKept(hash, a, c)
  {
  }

  /** History kept by every step is kept over any stretch. */
  lemma {:induction false} HistoryChains(hash: Hash, states: seq<Cluster>, i: nat, j: nat)
    requires i <= j < |states|
    requires forall p :: i <= p < j ==> HistoryKept(hash, states[p], states[p + 1])
    ensures HistoryKept(hash, states[i], states[j])
    decreases j
  {
    if i < j {
      HistoryChains(hash, states, i, j - 1);
      HistoryTransitive(hash, states[i], states[j - 1], states[j]);
    }
  }

  lemma StepKeepsHistory(hash: Hash, states: seq<Cluster>, actions: seq<Action>, j: nat)
    requires Interleaving(hash, states, actions) && j + 1 < |states|
    ensures HistoryKept(hash, states[j], states[j + 1])
  {
    InterleavingsAreSafe(hash, states, actions, j);
    assert StepAt(hash, states, actions, j);
    ActionIsSafe(hash, states[j], actions[j]);
  }

  lemma InterleavingsKeepHistory(hash: Hash, states: seq<Cluster>, actions: seq<Action>, i: nat, j: nat)
    requires Interleaving(hash, states, actions) && i <= j < |states|
    ensures HistoryKept(hash, states[i], states[j])
  {
    forall p | i <= p < j ensures HistoryKept(hash, states[p], states[p + 1]) {
      StepKeepsHistory(hash, states, actions, p);
    }
    HistoryChains(hash, states, i, j);
  }

  /**
   * In every interleaving of writers, readers, evictions, revokes and removals, with lost requests and replies, a hit
   * for a key returns exactly the bytes that some writer stored under a reservation for that same key.
   */
  lemma HitsReturnWhatWasWritten(
    hash: Hash, states: seq<Cluster>, actions: seq<Action>, j: nat, r: nat, k: ObjKey, bytes: Bytes)
    returns (g: Grant)
    requires Interleaving(hash, states, actions) && j < |states|
    requires r in states[j].readers && states[j].readers[r] == Answered(k, Ok(bytes))
    ensures g in states[j].grants && g.k == k && g.bytes == bytes && Written(hash, states[j], g)
  {
    InterleavingsAreSafe(hash, states, actions, j);
    assert ReaderOk(hash, states[j], states[j].readers[r]);
    g :| g in states[j].grants && g.k == k && g.bytes == bytes && Written(hash, states[j], g);
  }
}
