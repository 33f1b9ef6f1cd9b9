/** Exactly which removal breaks visibility, and runs from an empty cluster in which it does. */
module ClusterRemoval {
  import opened Types
  import opened Segments
  import opened Objects
  import opened Master
  import opened MasterRuns
  import opened Store
  import opened Cluster
  import opened ClusterSafety
  import opened ClusterVisibility

  // ---- The master's accounts inside a cluster ----

  /** The operation on the master that an action amounts to. */
  ghost function MasterOp(c: Cluster, a: Action): Option<Op>
    requires Ready(c, a)
  {
    match a
    case Start(_, k, bytes, delivered, _) => if delivered then Some(OpPutStart(k, |bytes|, REPLICA_COUNT)) else None
    case Commit(w, delivered, _) => if delivered then Some(OpPutEnd(c.writers[w].grant.k)) else None
    case Revoke(w, delivered) => if delivered then Some(OpPutRevoke(c.writers[w].grant.k)) else None
    case LookUp(_, k, nowMs) => Some(OpLookup(k, nowMs))
    case AdminRemove(k) => Some(OpRemove(k))
    case AdminEvict(tenant, target, nowMs, normal, soft) => Some(OpEvict(tenant, target, nowMs, normal, soft))
    case AdminSetQuota(tenant, dram, ssd) => Some(OpSetQuota(tenant, dram, ssd))
    case WriteBytes(_, _, _) => None
    case Stop(_) => None
    case ReadBytes(_) => None
  }

  lemma ActionOnMaster(hash: Hash, c: Cluster, a: Action)
    requires Ready(c, a)
    ensures match MasterOp(c, a)
      case Some(op) => Next(c.master, op, Act(hash, c, a).master) && !op.OpMount?
      case None => Act(hash, c, a).master == c.master
  {
  }

  /** The joint invariant of the master, with one segment and no quota of a blank tenant. */
  ghost predicate Accounted(m: Master) {
    |m.segments| == 1 && Inv(m) && forall t :: t in m.quotas ==> !IsBlank(t)
  }

  lemma OneSegmentTotals(segments: seq<Segment>)
    requires |segments| == 1
    ensures CapacityTotal(segments) == segments[0].len && AllocatedTotal(segments) == segments[0].nextOffset
  {
    assert CapacityTotal(segments[..0]) == 0 && AllocatedTotal(segments[..0]) == 0;
  }

  lemma OpKeepsQuotaNames(m: Master, op: Op, m': Master)
    requires Next(m, op, m') && forall t :: t in m.quotas ==> !IsBlank(t)
    ensures forall t :: t in m'.quotas ==> !IsBlank(t)
  {
    if op.OpEvict? {
      EvictFrame(m, op);
    }
  }

  lemma OpKeepsAccounts(m: Master, op: Op, m': Master)
    requires Accounted(m) && Next(m, op, m') && |m'.segments| == 1
    ensures Accounted(m')
  {
    OpKeepsQuotaNames(m, op, m');
    OneSegmentTotals(m'.segments);
    StepKeepsInv(m, op, m');
  }

  lemma StepKeepsAccounts(hash: Hash, c: Cluster, a: Action, c': Cluster)
    requires Safe(hash, c) && Accounted(c.master) && Step(hash, c, a, c')
    ensures Accounted(c'.master)
  {
    ActionIsSafe(hash, c, a);
    ActionOnMaster(hash, c, a);
    if MasterOp(c, a).Some? {
      OpKeepsAccounts(c.master, MasterOp(c, a).value, c'.master);
    }
  }

  lemma InitIsAccounted(c: Cluster)
    requires Init(c)
    ensures Accounted(c.master)
  {
    assert Usage(c.master.objects, None) == 0;
  }

  /** In every interleaving the master's quotas are exact, leases sit on committed objects, and objects fit the segment. */
  lemma {:induction false} InterleavingsKeepAccounts(hash: Hash, states: seq<Cluster>, actions: seq<Action>, j: nat)
    requires Interleaving(hash, states, actions) && j < |states|
    ensures Accounted(states[j].master)
    decreases j
  {
    if j > 0 {
      InterleavingsKeepAccounts(hash, states, actions, j - 1);
      InterleavingsAreSafe(hash, states, actions, j - 1);
      assert StepAt(hash, states, actions, j - 1);
      StepKeepsAccounts(hash, states[j - 1], actions[j - 1], states[j]);
    } else {
      InitIsAccounted(states[0]);
    }
  }

  // ---- Breaking visibility ----

  /** A visible object whose handle does not read. */
  ghost predicate BreaksVisibility(hash: Hash, c: Cluster, k: ObjKey) {
    && k in c.master.objects && c.master.objects[k].status == Committed && |c.master.objects[k].replicas| == 1
    && c.store.Sized() && ReadChunk(hash, c.store, FromReplica(c.master.objects[k].replicas[0])).Err?
  }

  /** Which removals a run may contain. */
  datatype Removals = AnyKey | NoKey | SettledKey

  ghost predicate Allowed(removals: Removals, c: Cluster, a: Action) {
    a.AdminRemove? ==>
      match removals
      case AnyKey => true
      case NoKey => false
      case SettledKey =>
        a.k in c.master.objects && c.master.objects[a.k].status != Reserving && c.master.objects[a.k].status != Writing
  }

  ghost predicate Path(hash: Hash, removals: Removals, c: Cluster, c': Cluster, states: seq<Cluster>, actions: seq<Action>) {
    && Steps(hash, states, actions) && states[0] == c && states[|actions|] == c'
    && forall i :: 0 <= i < |actions| ==> Allowed(removals, states[i], actions[i])
  }

  ghost predicate Leads(hash: Hash, removals: Removals, c: Cluster, c': Cluster) {
    exists states, actions :: Path(hash, removals, c, c', states, actions)
  }

  lemma LeadsHere(hash: Hash, removals: Removals, c: Cluster)
    ensures Leads(hash, removals, c, c)
  {
    assert Path(hash, removals, c, c, [c], []);
  }

  lemma LeadsOn(hash: Hash, removals: Removals, c: Cluster, c': Cluster, a: Action, c'': Cluster)
    requires Leads(hash, removals, c, c') && Step(hash, c', a, c'') && Allowed(removals, c', a)
    ensures Leads(hash, removals, c, c'')
  {
    var states, actions :| Path(hash, removals, c, c', states, actions);
    PathGrows(hash, removals, c, c', states, actions, a, c'');
  }

  lemma PathGrows(
    hash: Hash, removals: Removals, c: Cluster, c': Cluster, states: seq<Cluster>, actions: seq<Action>, a: Action, c'': Cluster)
    requires Path(hash, removals, c, c', states, actions) && Step(hash, c', a, c'') && Allowed(removals, c', a)
    ensures Path(hash, removals, c, c'', states + [c''], actions + [a])
  {
    var s, t := states + [c''], actions + [a];
    forall i | 0 <= i < |t| ensures StepAt(hash, s, t, i) && Allowed(removals, s[i], t[i]) {
      if i < |actions| {
        assert StepAt(hash, states, actions, i);
        assert s[i] == states[i] && s[i + 1] == states[i + 1] && t[i] == actions[i];
      }
    }
  }

  /** From `c`, removing `k` can lead, without further removals, to a state where some key is visible and unreadable. */
  ghost predicate RemovalCanBreak(hash: Hash, c: Cluster, k: ObjKey) {
    exists c1, c2, q :: Breaking(hash, c, k, c1, c2, q)
  }

  ghost predicate Breaking(hash: Hash, c: Cluster, k: ObjKey, c1: Cluster, c2: Cluster, q: ObjKey) {
    Step(hash, c, AdminRemove(k), c1) && Leads(hash, NoKey, c1, c2) && BreaksVisibility(hash, c2, q)
  }

  lemma NewGrantIsUnwritten(hash: Hash, c: Cluster, c': Cluster, g: Grant)
    requires Safe(hash, c) && GrantsStacked(c') && c'.store == c.store && c'.grants == c.grants + [g]
    ensures !Written(hash, c', g)
  {
    forall h | h in c.grants
      ensures h.replica.offset != g.replica.offset
    {
      var i :| 0 <= i < |c.grants| && c.grants[i] == h;
      assert c'.grants[i] == h && c'.grants[|c.grants|] == g;
    }
  }

  /** Committing a key whose entry shows an unwritten region makes it visible and unreadable. */
  lemma CommitUnwritten(hash: Hash, removals: Removals, c0: Cluster, c: Cluster, w: nat, g: Grant) returns (c': Cluster)
    requires Leads(hash, removals, c0, c) && Safe(hash, c)
    requires w in c.writers && c.writers[w].Stored? && c.writers[w].grant.k == g.k
    requires Shows(c, g.k, g) && c.master.objects[g.k].status == Reserving && !Written(hash, c, g)
    ensures Leads(hash, removals, c0, c') && BreaksVisibility(hash, c', g.k)
  {
    GrantedRead(hash, c, g);
    c' := DoCommit(c, w, true, true);
    LeadsOn(hash, removals, c0, c, Commit(w, true, true), c');
  }

  /** A key reserved afresh by one writer and then committed by another that stored elsewhere is visible and unreadable. */
  lemma StoredWriterBreaks(hash: Hash, removals: Removals, c0: Cluster, c: Cluster, w: nat, w2: nat) returns (c': Cluster)
    requires Leads(hash, removals, c0, c) && Safe(hash, c)
    requires w in c.writers && c.writers[w].Stored? && w2 !in c.writers
    requires PutStart(c.master, c.writers[w].grant.k, 1, REPLICA_COUNT).1.Ok?
    ensures Leads(hash, removals, c0, c') && BreaksVisibility(hash, c', c.writers[w].grant.k)
  {
    var k := c.writers[w].grant.k;
    var c1, g := ReserveAgain(hash, removals, c0, c, w2, k);
    c' := CommitUnwritten(hash, removals, c0, c1, w, g);
  }

  lemma ReserveAgain(hash: Hash, removals: Removals, c0: Cluster, c: Cluster, w: nat, k: ObjKey)
    returns (c': Cluster, g: Grant)
    requires Leads(hash, removals, c0, c) && Safe(hash, c) && w !in c.writers
    requires PutStart(c.master, k, 1, REPLICA_COUNT).1.Ok?
    ensures Leads(hash, removals, c0, c') && Safe(hash, c') && g.k == k && Reserves(c, c', w, g, true)
    ensures Shows(c', k, g) && !Written(hash, c', g)
  {
    c' := DoStart(c, w, k, [0], true, true);
    LeadsOn(hash, removals, c0, c, Start(w, k, [0], true, true), c');
    g := StartReserves(c, w, k, [0], true);
    ReservingIsSafe(hash, c, c', w, g, true);
    NewGrantIsUnwritten(hash, c, c', g);
  }

  lemma {:induction false} FreshId(ids: set<nat>) returns (n: nat)
    ensures forall i :: i in ids ==> i < n
    decreases |ids|
  {
    if ids == {} {
      n := 0;
    } else {
      var i :| i in ids;
      var m := FreshId(ids - {i});
      assert forall j :: j in ids ==> j == i || j in ids - {i};
      n := if m > i then m else i + 1;
    }
  }

  /** With room in the segment and the quota out of the way, a key that is gone can be reserved again. */
  lemma CanReserveAgain(m: Master, k: ObjKey)
    requires Accounted(m) && m.segments[0].nextOffset < m.segments[0].len && k !in m.objects
    requires k.tenant in m.quotas ==> m.quotas[k.tenant].dramBytes == U64_MAX
    ensures PutStart(m, k, 1, REPLICA_COUNT).1.Ok?
  {
    OneSegmentTotals(m.segments);
    TenantUsageWithinTotal(m.objects, k.tenant);
    PutStartSucceedsIff(m, k, 1, REPLICA_COUNT);
  }

  /** Lifting a tenant's quota, as an administrator may, leaves its missing keys free to be reserved. */
  lemma LiftQuota(hash: Hash, removals: Removals, c0: Cluster, c: Cluster, k: ObjKey) returns (c': Cluster)
    requires Leads(hash, removals, c0, c) && Safe(hash, c) && Accounted(c.master) && HasRoom(c) && k !in c.master.objects
    ensures Leads(hash, removals, c0, c') && Safe(hash, c')
    ensures c'.writers == c.writers && c'.store == c.store && PutStart(c'.master, k, 1, REPLICA_COUNT).1.Ok?
  {
    var a := AdminSetQuota(k.tenant, U64_MAX, 0);
    c' := c.(master := SetTenantQuota(c.master, k.tenant, U64_MAX, 0).0);
    assert Step(hash, c, a, c');
    LeadsOn(hash, removals, c0, c, a, c');
    ActionIsSafe(hash, c, a);
    StepKeepsAccounts(hash, c, a, c');
    CanReserveAgain(c'.master, k);
  }

  lemma StoreStep(hash: Hash, removals: Removals, c0: Cluster, c: Cluster, w: nat) returns (c': Cluster)
    requires Leads(hash, removals, c0, c) && Safe(hash, c) && w in c.writers && c.writers[w].Reserved?
    requires c.writers[w].grant.replica.offset + c.writers[w].grant.replica.len <= |c.store.arena|
    ensures Leads(hash, removals, c0, c') && Safe(hash, c')
    ensures c'.master == c.master && c'.writers == c.writers[w := Stored(c.writers[w].grant)]
    ensures |c'.store.arena| == |c.store.arena|
  {
    var grant := c.writers[w].grant;
    var i :| 0 <= i < |c.grants| && c.grants[i] == grant;
    WriteThenRead(hash, c.store, FromReplica(grant.replica), grant.bytes);
    c' := DoWriteBytes(hash, c, w, true, true);
    assert Step(hash, c, WriteBytes(w, true, true), c');
    LeadsOn(hash, removals, c0, c, WriteBytes(w, true, true), c');
    WriteBytesIsSafe(hash, c, WriteBytes(w, true, true));
  }

  /** Once its key is gone, an able writer goes on to break visibility. */
  lemma AbleWriterBreaks(hash: Hash, c: Cluster, w: nat) returns (c': Cluster)
    requires Safe(hash, c) && Accounted(c.master) && HasRoom(c)
    requires w in c.writers && InFlight(c.writers[w]) && Able(false, c, c.writers[w])
    requires c.writers[w].grant.k !in c.master.objects
    ensures Leads(hash, NoKey, c, c') && BreaksVisibility(hash, c', c.writers[w].grant.k)
  {
    LeadsHere(hash, NoKey, c);
    var c1 := LiftQuota(hash, NoKey, c, c, c.writers[w].grant.k);
    if c.writers[w].Reserved? {
      c1 := StoreStep(hash, NoKey, c, c1, w);
    }
    var w2 := FreshId(c1.writers.Keys);
    c' := StoredWriterBreaks(hash, NoKey, c, c1, w, w2);
  }

  lemma UndisturbedRemovalKeeps(hash: Hash, c: Cluster, k: ObjKey, c1: Cluster, c2: Cluster, q: ObjKey)
    requires Safe(hash, c) && Owned(false, hash, c) && Undisturbed(false, c, AdminRemove(k))
    requires Step(hash, c, AdminRemove(k), c1) && Leads(hash, NoKey, c1, c2)
    ensures !BreaksVisibility(hash, c2, q)
  {
    ActionIsSafe(hash, c, AdminRemove(k));
    ActionKeepsOwned(false, hash, c, AdminRemove(k));
    var states, actions :| Path(hash, NoKey, c1, c2, states, actions);
    assert QuietSteps(false, hash, states, actions);
    QuietStepsStayOwned(false, hash, states, actions, |actions|);
    StepsAreSafe(hash, states, actions, |actions|);
    if BreaksVisibility(hash, c2, q) {
      var g := OwnedIsReadable(false, hash, c2, q);
    }
  }

  /**
   * After any quiet run, the removal of a key can lead, without further removals, to a visible object that does not read
   * if and only if the segment has room and a writer of that key is under way that stored its bytes or has room for them.
   */
  lemma RemovalBreaksIffDisturbing(hash: Hash, states: seq<Cluster>, actions: seq<Action>, j: nat, k: ObjKey)
    requires QuietInterleaving(false, hash, states, actions) && j < |states|
    ensures RemovalCanBreak(hash, states[j], k) <==>
      && HasRoom(states[j])
      && exists w :: w in states[j].writers && InFlight(states[j].writers[w])
           && Able(false, states[j], states[j].writers[w]) && states[j].writers[w].grant.k == k
  {
    var c := states[j];
    QuietRunsStayOwned(false, hash, states, actions, j);
    InterleavingsKeepAccounts(hash, states, actions, j);
    RemovalBreaksFrom(hash, c, k);
  }

  lemma RemovalBreaksFrom(hash: Hash, c: Cluster, k: ObjKey)
    requires Safe(hash, c) && Owned(false, hash, c) && Accounted(c.master)
    ensures RemovalCanBreak(hash, c, k) <==> !Undisturbed(false, c, AdminRemove(k))
  {
    if Undisturbed(false, c, AdminRemove(k)) {
      forall c1, c2, q ensures !Breaking(hash, c, k, c1, c2, q) {
        if Breaking(hash, c, k, c1, c2, q) {
          UndisturbedRemovalKeeps(hash, c, k, c1, c2, q);
        }
      }
    } else {
      DisturbingRemovalBreaks(hash, c, k);
    }
  }

  lemma DisturbingRemovalBreaks(hash: Hash, c: Cluster, k: ObjKey)
    requires Safe(hash, c) && Owned(false, hash, c) && Accounted(c.master) && !Undisturbed(false, c, AdminRemove(k))
    ensures RemovalCanBreak(hash, c, k)
  {
    var w :| w in c.writers && InFlight(c.writers[w]) && Able(false, c, c.writers[w]) && c.writers[w].grant.k == k;
    var c1 := c.(master := Remove(c.master, k).0);
    assert Step(hash, c, AdminRemove(k), c1);
    ActionIsSafe(hash, c, AdminRemove(k));
    StepKeepsAccounts(hash, c, AdminRemove(k), c1);
    var c2 := AbleWriterBreaks(hash, c1, w);
    assert Breaking(hash, c, k, c1, c2, k);
  }

  // ---- Stray revokes ----

  /** The writer's next call revokes a reservation that is not its own. */
  ghost predicate Stray(c: Cluster, w: nat) {
    && w in c.writers && c.writers[w].Failing? && c.writers[w].grant.k in c.master.objects
    && !Shows(c, c.writers[w].grant.k, c.writers[w].grant)
  }

  ghost predicate Straying(hash: Hash, c: Cluster, k: ObjKey, c1: Cluster, c2: Cluster, w: nat) {
    Step(hash, c, AdminRemove(k), c1) && Leads(hash, NoKey, c1, c2) && Stray(c2, w)
  }

  ghost predicate RemovalCanStray(hash: Hash, c: Cluster, k: ObjKey) {
    exists c1, c2, w :: Straying(hash, c, k, c1, c2, w)
  }

  /** A writer whose next request is lost is left with nothing but its revoke. */
  lemma FailStep(hash: Hash, removals: Removals, c0: Cluster, c: Cluster, w: nat) returns (c': Cluster)
    requires Leads(hash, removals, c0, c) && Safe(hash, c) && w in c.writers && InFlight(c.writers[w])
    requires c.writers[w].Reserved? ==> |c.writers[w].grant.bytes| <= U64_MAX
    ensures Leads(hash, removals, c0, c') && Safe(hash, c') && c'.master == c.master && c'.grants == c.grants
    ensures c'.writers == c.writers[w := Failing(c.writers[w].grant)]
  {
    c' := c;
    if !c.writers[w].Failing? {
      var a := if c.writers[w].Reserved? then WriteBytes(w, false, false) else Commit(w, false, false);
      c' := Act(hash, c, a);
      LeadsOn(hash, removals, c0, c, a, c');
      ActionIsSafe(hash, c, a);
    }
  }

  lemma GrantFitsU64(c: Cluster, g: Grant)
    requires GrantsStacked(c) && g in c.grants
    ensures |g.bytes| <= U64_MAX
  {
    var i :| 0 <= i < |c.grants| && c.grants[i] == g;
  }

  lemma ReservedByAnother(c: Cluster, c': Cluster, w: nat, w2: nat, g: Grant)
    requires GrantsStacked(c) && GrantsStacked(c') && Reserves(c, c', w2, g, true) && Shows(c', g.k, g)
    requires w in c.writers && c.writers[w].Failing? && w2 !in c.writers
    requires c.writers[w].grant in c.grants && c.writers[w].grant.k == g.k
    ensures Stray(c', w)
  {
    var own := c.writers[w].grant;
    var i :| 0 <= i < |c.grants| && c.grants[i] == own;
    assert own.replica.offset + own.replica.len <= g.replica.offset;
  }

  lemma InFlightWriterStrays(hash: Hash, c: Cluster, w: nat) returns (c': Cluster)
    requires Safe(hash, c) && Accounted(c.master) && HasRoom(c)
    requires w in c.writers && InFlight(c.writers[w]) && c.writers[w].grant.k !in c.master.objects
    ensures Leads(hash, NoKey, c, c') && Stray(c', w)
  {
    var k := c.writers[w].grant.k;
    LeadsHere(hash, NoKey, c);
    var c1 := LiftQuota(hash, NoKey, c, c, k);
    GrantFitsU64(c1, c1.writers[w].grant);
    var c2 := FailStep(hash, NoKey, c, c1, w);
    var w2 := FreshId(c2.writers.Keys);
    var c3, g := ReserveAgain(hash, NoKey, c, c2, w2, k);
    ReservedByAnother(c2, c3, w, w2, g);
    c' := c3;
  }

  lemma UndisturbedRevokesStay(hash: Hash, c: Cluster, k: ObjKey, c1: Cluster, c2: Cluster, w: nat)
    requires Safe(hash, c) && Owned(true, hash, c) && Undisturbed(true, c, AdminRemove(k))
    requires Step(hash, c, AdminRemove(k), c1) && Leads(hash, NoKey, c1, c2)
    ensures !Stray(c2, w)
  {
    ActionIsSafe(hash, c, AdminRemove(k));
    ActionKeepsOwned(true, hash, c, AdminRemove(k));
    var states, actions :| Path(hash, NoKey, c1, c2, states, actions);
    assert QuietSteps(true, hash, states, actions);
    QuietStepsStayOwned(true, hash, states, actions, |actions|);
  }

  lemma DisturbingRemovalStrays(hash: Hash, c: Cluster, k: ObjKey)
    requires Safe(hash, c) && Owned(true, hash, c) && Accounted(c.master) && !Undisturbed(true, c, AdminRemove(k))
    ensures RemovalCanStray(hash, c, k)
  {
    var w :| w in c.writers && InFlight(c.writers[w]) && Able(true, c, c.writers[w]) && c.writers[w].grant.k == k;
    var c1 := c.(master := Remove(c.master, k).0);
    assert Step(hash, c, AdminRemove(k), c1);
    ActionIsSafe(hash, c, AdminRemove(k));
    StepKeepsAccounts(hash, c, AdminRemove(k), c1);
    var c2 := InFlightWriterStrays(hash, c1, w);
    assert Straying(hash, c, k, c1, c2, w);
  }

  /**
   * After any strictly quiet run, the removal of a key can lead, without further removals, to a writer about to revoke a
   * rival's reservation if and only if the segment has room and some writer of that key is under way.
   */
  lemma RevokeStraysIffDisturbing(hash: Hash, states: seq<Cluster>, actions: seq<Action>, j: nat, k: ObjKey)
    requires QuietInterleaving(true, hash, states, actions) && j < |states|
    ensures RemovalCanStray(hash, states[j], k) <==>
      && HasRoom(states[j])
      && exists w :: w in states[j].writers && InFlight(states[j].writers[w]) && states[j].writers[w].grant.k == k
  {
    var c := states[j];
    QuietRunsStayOwned(true, hash, states, actions, j);
    InterleavingsKeepAccounts(hash, states, actions, j);
    if Undisturbed(true, c, AdminRemove(k)) {
      forall c1, c2, w ensures !Straying(hash, c, k, c1, c2, w) {
        if Straying(hash, c, k, c1, c2, w) {
          UndisturbedRevokesStay(hash, c, k, c1, c2, w);
        }
      }
    } else {
      DisturbingRemovalStrays(hash, c, k);
    }
  }

  // ---- Runs from an empty cluster ----

  /** An empty cluster with eight bytes on either side. */
  ghost function SmallCluster(): Cluster {
    Cluster(MountSegment(EMPTY, "node", 8), Store([0, 0, 0, 0, 0, 0, 0, 0], 0, map[]), map[], map[], [])
  }

  /** A safe cluster of that size, no quotas, with `used` bytes granted. */
  ghost predicate Small(hash: Hash, c: Cluster, used: nat) {
    && Safe(hash, c) && c.master.quotas == map[] && |c.store.arena| == 8
    && c.master.segments[0].len == 8 && c.master.segments[0].nextOffset == used
  }

  lemma SmallStart(hash: Hash, removals: Removals)
    ensures Init(SmallCluster()) && Small(hash, SmallCluster(), 0)
    ensures Leads(hash, removals, SmallCluster(), SmallCluster())
  {
    InitIsSafe(hash, SmallCluster());
    LeadsHere(hash, removals, SmallCluster());
  }

  lemma ReserveStep(hash: Hash, removals: Removals, c: Cluster, w: nat, k: ObjKey, used: nat) returns (c': Cluster)
    requires Leads(hash, removals, SmallCluster(), c) && Small(hash, c, used) && used < 8
    requires w !in c.writers && k !in c.master.objects
    ensures Leads(hash, removals, SmallCluster(), c') && Small(hash, c', used + 1)
    ensures k in c'.master.objects && c'.master.objects[k].status == Reserving
    ensures w in c'.writers && c'.writers[w].Reserved? && c'.writers == c.writers[w := c'.writers[w]]
    ensures c'.writers[w].grant.k == k
    ensures c'.writers[w].grant.replica.offset == used && c'.writers[w].grant.replica.len == 1
  {
    PutStartSucceedsIff(c.master, k, 1, REPLICA_COUNT);
    c' := DoStart(c, w, k, [0], true, true);
    LeadsOn(hash, removals, SmallCluster(), c, Start(w, k, [0], true, true), c');
    var g := StartReserves(c, w, k, [0], true);
    ReservingIsSafe(hash, c, c', w, g, true);
  }

  /** The writer's commit is served and its reply is lost. */
  lemma UnheardCommitStep(hash: Hash, removals: Removals, c: Cluster, w: nat, used: nat) returns (c': Cluster)
    requires Leads(hash, removals, SmallCluster(), c) && Small(hash, c, used) && w in c.writers && c.writers[w].Stored?
    requires c.writers[w].grant.k in c.master.objects && c.master.objects[c.writers[w].grant.k].status == Reserving
    ensures Leads(hash, removals, SmallCluster(), c') && Small(hash, c', used)
    ensures var k := c.writers[w].grant.k; k in c'.master.objects && c'.master.objects[k].status == Committed
    ensures c'.writers == c.writers[w := Failing(c.writers[w].grant)]
  {
    c' := DoCommit(c, w, true, false);
    LeadsOn(hash, removals, SmallCluster(), c, Commit(w, true, false), c');
    CommitIsSafe(hash, c, w, true, false);
  }

  lemma RevokeStep(hash: Hash, removals: Removals, c: Cluster, w: nat, used: nat) returns (c': Cluster)
    requires Leads(hash, removals, SmallCluster(), c) && Small(hash, c, used) && w in c.writers && c.writers[w].Failing?
    requires c.writers[w].grant.k in c.master.objects
    ensures Leads(hash, removals, SmallCluster(), c') && Small(hash, c', used)
    ensures var k := c.writers[w].grant.k; k in c'.master.objects && c'.master.objects[k].status == Revoked
    ensures c'.writers == c.writers[w := Done]
  {
    c' := DoRevoke(c, w, true);
    LeadsOn(hash, removals, SmallCluster(), c, Revoke(w, true), c');
    RevokeIsSafe(hash, c, w, true);
  }

  lemma RemoveStep(hash: Hash, removals: Removals, c: Cluster, k: ObjKey, used: nat) returns (c': Cluster)
    requires Leads(hash, removals, SmallCluster(), c) && Small(hash, c, used) && k in c.master.objects
    requires Allowed(removals, c, AdminRemove(k))
    ensures Leads(hash, removals, SmallCluster(), c') && Small(hash, c', used)
    ensures k !in c'.master.objects && c'.writers == c.writers
  {
    c' := c.(master := Remove(c.master, k).0);
    LeadsOn(hash, removals, SmallCluster(), c, AdminRemove(k), c');
    LifecycleKeepsReplicas(c.master, k);
    AdminIsSafe(hash, c, c'.master);
  }

  lemma BreakStep(hash: Hash, removals: Removals, c: Cluster, w: nat, w2: nat, used: nat) returns (c': Cluster)
    requires Leads(hash, removals, SmallCluster(), c) && Small(hash, c, used) && used < 8
    requires w in c.writers && c.writers[w].Stored? && w2 !in c.writers && c.writers[w].grant.k !in c.master.objects
    ensures Leads(hash, removals, SmallCluster(), c') && BreaksVisibility(hash, c', c.writers[w].grant.k)
  {
    PutStartSucceedsIff(c.master, c.writers[w].grant.k, 1, REPLICA_COUNT);
    c' := StoredWriterBreaks(hash, removals, SmallCluster(), c, w, w2);
  }

  /** Removing the key of a writer that has only reserved it, and letting that writer finish, breaks visibility. */
  lemma PendingRemovalRun(hash: Hash, k: ObjKey) returns (states: seq<Cluster>, actions: seq<Action>)
    ensures Interleaving(hash, states, actions) && BreaksVisibility(hash, states[|actions|], k)
  {
    SmallStart(hash, AnyKey);
    var c1 := ReserveStep(hash, AnyKey, SmallCluster(), 1, k, 0);
    var c2 := RemoveStep(hash, AnyKey, c1, k, 1);
    var c3 := StoreStep(hash, AnyKey, SmallCluster(), c2, 1);
    var c4 := BreakStep(hash, AnyKey, c3, 1, 2, 1);
    states, actions := RunTo(hash, AnyKey, c4);
  }

  lemma RunTo(hash: Hash, removals: Removals, c: Cluster) returns (states: seq<Cluster>, actions: seq<Action>)
    requires Leads(hash, removals, SmallCluster(), c)
    ensures Interleaving(hash, states, actions) && states[|actions|] == c
    ensures forall i :: 0 <= i < |actions| ==> Allowed(removals, states[i], actions[i])
  {
    states, actions :| Path(hash, removals, SmallCluster(), c, states, actions);
  }

  /** A writer whose commit reply was lost comes back to revoke its key, which by then belongs to a second writer. */
  lemma StrayRevoke(hash: Hash, k: ObjKey) returns (c: Cluster)
    ensures Leads(hash, SettledKey, SmallCluster(), c) && Small(hash, c, 2)
    ensures k in c.master.objects && c.master.objects[k].status == Revoked
    ensures c.writers.Keys == {1, 2} && c.writers[2].Stored? && c.writers[2].grant.k == k
  {
    var c1 := UnheardCommit(hash, k);
    var c2 := RemoveStep(hash, SettledKey, c1, k, 1);
    var c3 := ReserveStep(hash, SettledKey, c2, 2, k, 1);
    var c4 := StoreStep(hash, SettledKey, SmallCluster(), c3, 2);
    c := RevokeStep(hash, SettledKey, c4, 1, 2);
  }

  lemma UnheardCommit(hash: Hash, k: ObjKey) returns (c: Cluster)
    ensures Leads(hash, SettledKey, SmallCluster(), c) && Small(hash, c, 1)
    ensures k in c.master.objects && c.master.objects[k].status == Committed
    ensures c.writers.Keys == {1} && c.writers[1].Failing? && c.writers[1].grant.k == k
  {
    var c1 := ReservedAndStored(hash, k);
    c := UnheardCommitStep(hash, SettledKey, c1, 1, 1);
  }

  lemma ReservedAndStored(hash: Hash, k: ObjKey) returns (c: Cluster)
    ensures Leads(hash, SettledKey, SmallCluster(), c) && Small(hash, c, 1)
    ensures k in c.master.objects && c.master.objects[k].status == Reserving
    ensures c.writers.Keys == {1} && c.writers[1].Stored? && c.writers[1].grant.k == k
  {
    SmallStart(hash, SettledKey);
    var c1 := ReserveStep(hash, SettledKey, SmallCluster(), 1, k, 0);
    c := StoreStep(hash, SettledKey, SmallCluster(), c1, 1);
  }

  /**
   * Forbidding only the removal of pending reservations is not enough: after a lost commit reply and the stray revoke it
   * causes, removing the revoked entry lets the second writer commit a third writer's unwritten region.
   */
  lemma LostReplyRun(hash: Hash, k: ObjKey) returns (states: seq<Cluster>, actions: seq<Action>)
    ensures Interleaving(hash, states, actions) && BreaksVisibility(hash, states[|actions|], k)
    ensures forall i :: 0 <= i < |actions| ==> Allowed(SettledKey, states[i], actions[i])
  {
    var c := StrayRevoke(hash, k);
    var c1 := RemoveStep(hash, SettledKey, c, k, 2);
    var c2 := BreakStep(hash, SettledKey, c1, 2, 3, 2);
    states, actions := RunTo(hash, SettledKey, c2);
  }
}
