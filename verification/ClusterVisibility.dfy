/** When a visible object is also readable. */
module ClusterVisibility {
  import opened Types
  import opened Objects
  import opened Master
  import opened MasterRuns
  import opened Store
  import opened Cluster
  import opened ClusterSafety

  /** The segment has a free byte, so a key that is gone can be reserved again. */
  predicate HasRoom(c: Cluster) {
    |c.master.segments| == 1 && c.master.segments[0].nextOffset < c.master.segments[0].len
  }

  /**
   * The writer may yet commit: its bytes are stored, or there is room for them in the arena. A strict reading also counts
   * every writer that may yet revoke.
   */
  predicate Able(strict: bool, c: Cluster, writer: Writer) {
    || writer.Stored?
    || (writer.Reserved? && writer.grant.replica.offset + writer.grant.replica.len <= |c.store.arena|)
    || (strict && InFlight(writer))
  }

  /** No key is removed while there is room to reserve it again and an able writer of it is under way. */
  ghost predicate Undisturbed(strict: bool, c: Cluster, a: Action) {
    a.AdminRemove? && HasRoom(c) ==>
      forall w :: w in c.writers && InFlight(c.writers[w]) && Able(strict, c, c.writers[w]) ==> c.writers[w].grant.k != a.k
  }

  ghost predicate QuietSteps(strict: bool, hash: Hash, states: seq<Cluster>, actions: seq<Action>) {
    && Steps(hash, states, actions)
    && forall i :: 0 <= i < |actions| ==> Undisturbed(strict, states[i], actions[i])
  }

  ghost predicate QuietInterleaving(strict: bool, hash: Hash, states: seq<Cluster>, actions: seq<Action>) {
    QuietSteps(strict, hash, states, actions) && Init(states[0])
  }

  /** Every able writer owns the table entry of its key, unless that entry is gone for good. */
  ghost predicate WritersOwn(strict: bool, c: Cluster) {
    forall w :: w in c.writers && InFlight(c.writers[w]) && Able(strict, c, c.writers[w]) ==>
      (c.writers[w].grant.k in c.master.objects || HasRoom(c) ==> Shows(c, c.writers[w].grant.k, c.writers[w].grant))
  }

  ghost predicate VisibleWritten(hash: Hash, c: Cluster) {
    forall k :: k in c.master.objects && c.master.objects[k].status == Committed ==>
      exists g :: Shows(c, k, g) && Written(hash, c, g)
  }

  ghost predicate HandlesWritten(hash: Hash, c: Cluster) {
    forall r :: r in c.readers && c.readers[r].Holding? ==>
      exists g :: g in c.grants && g.k == c.readers[r].k && g.replica == c.readers[r].replica && Written(hash, c, g)
  }

  ghost predicate Owned(strict: bool, hash: Hash, c: Cluster) {
    WritersOwn(strict, c) && VisibleWritten(hash, c) && HandlesWritten(hash, c)
  }

  /** Entries keep their replicas, none outside `removed` disappears, and nothing becomes visible. */
  ghost predicate TableNarrows(m: Master, m': Master, removed: set<ObjKey>) {
    && KeepsReplicas(m, m')
    && (forall k :: k in m.objects && k !in removed ==> k in m'.objects)
    && (forall k :: k in m'.objects && m'.objects[k].status == Committed ==>
          k in m.objects && m.objects[k].status == Committed)
  }

  lemma NarrowingKeepsVisible(hash: Hash, c: Cluster, c': Cluster, removed: set<ObjKey>)
    requires VisibleWritten(hash, c) && TableNarrows(c.master, c'.master, removed)
    requires HistoryKept(hash, c, c')
    ensures VisibleWritten(hash, c')
  {
    forall k | k in c'.master.objects && c'.master.objects[k].status == Committed
      ensures exists g :: Shows(c', k, g) && Written(hash, c', g)
    {
      var g :| Shows(c, k, g) && Written(hash, c, g);
      assert Shows(c', k, g) && Written(hash, c', g);
    }
  }

  lemma HandlesStayWritten(hash: Hash, c: Cluster, c': Cluster)
    requires HandlesWritten(hash, c) && HistoryKept(hash, c, c') && c'.readers == c.readers
    ensures HandlesWritten(hash, c')
  {
    forall r | r in c'.readers && c'.readers[r].Holding?
      ensures exists g :: g in c'.grants && g.k == c'.readers[r].k && g.replica == c'.readers[r].replica && Written(hash, c', g)
    {
      var g :| g in c.grants && g.k == c.readers[r].k && g.replica == c.readers[r].replica && Written(hash, c, g);
      assert g in c'.grants && Written(hash, c', g);
    }
  }

  lemma StartKeepsOwned(strict: bool, hash: Hash, c: Cluster, w: nat, k: ObjKey, bytes: Bytes, delivered: bool, heard: bool)
    requires Safe(hash, c) && Owned(strict, hash, c) && w !in c.writers && |bytes| <= U64_MAX
    ensures Owned(strict, hash, DoStart(c, w, k, bytes, delivered, heard))
  {
    var c' := DoStart(c, w, k, bytes, delivered, heard);
    StartIsSafe(hash, c, w, k, bytes, delivered, heard);
    HandlesStayWritten(hash, c, c');
    if delivered && PutStart(c.master, k, |bytes|, REPLICA_COUNT).1.Ok? {
      var grant := StartReserves(c, w, k, bytes, heard);
      ReservingKeepsVisible(strict, hash, c, c', w, grant, heard);
    } else {
      PutStartAllOrNothing(c.master, k, |bytes|, REPLICA_COUNT);
      NarrowingKeepsVisible(hash, c, c', {});
    }
  }

  lemma ReservingKeepsVisible(strict: bool, hash: Hash, c: Cluster, c': Cluster, w: nat, grant: Grant, heard: bool)
    requires Owned(strict, hash, c) && Reserves(c, c', w, grant, heard)
    ensures WritersOwn(strict, c') && VisibleWritten(hash, c')
  {
    forall k | k in c'.master.objects && c'.master.objects[k].status == Committed
      ensures exists g :: Shows(c', k, g) && Written(hash, c', g)
    {
      var g :| Shows(c, k, g) && Written(hash, c, g);
      assert Shows(c', k, g) && Written(hash, c', g);
    }
  }

  lemma WriteBytesKeepsOwned(strict: bool, hash: Hash, c: Cluster, a: Action, c': Cluster)
    requires Owned(strict, hash, c) && a.WriteBytes? && Ready(c, a)
    requires c' == DoWriteBytes(hash, c, a.w, a.delivered, a.heard) && HistoryKept(hash, c, c')
    ensures Owned(strict, hash, c')
  {
    HandlesStayWritten(hash, c, c');
    NarrowingKeepsVisible(hash, c, c', {});
  }

  /** Committing publishes the writer's own, written region: the entry it flips is still its own. */
  lemma CommitKeepsOwned(strict: bool, hash: Hash, c: Cluster, w: nat, delivered: bool, heard: bool)
    requires Owned(strict, hash, c) && w in c.writers && c.writers[w].Stored? && Written(hash, c, c.writers[w].grant)
    ensures Owned(strict, hash, DoCommit(c, w, delivered, heard))
  {
    var c' := DoCommit(c, w, delivered, heard);
    CommitKeepsWriters(strict, c, w, delivered, heard);
    HandlesStayWritten(hash, c, c');
    LifecycleKeepsReplicas(c.master, c.writers[w].grant.k);
    if c.writers[w].grant.k in c.master.objects {
      PublishingKeepsVisible(hash, c, c', c.writers[w].grant);
    } else {
      NarrowingKeepsVisible(hash, c, c', {});
    }
  }

  lemma CommitKeepsWriters(strict: bool, c: Cluster, w: nat, delivered: bool, heard: bool)
    requires WritersOwn(strict, c) && w in c.writers && c.writers[w].Stored?
    ensures WritersOwn(strict, DoCommit(c, w, delivered, heard))
  {
  }

  lemma PublishingKeepsVisible(hash: Hash, c: Cluster, c': Cluster, grant: Grant)
    requires VisibleWritten(hash, c) && HistoryKept(hash, c, c') && KeepsReplicas(c.master, c'.master)
    requires Shows(c, grant.k, grant) && Written(hash, c, grant)
    requires forall k :: k in c'.master.objects && c'.master.objects[k].status == Committed && k != grant.k ==>
      k in c.master.objects && c.master.objects[k].status == Committed
    ensures VisibleWritten(hash, c')
  {
    forall k | k in c'.master.objects && c'.master.objects[k].status == Committed
      ensures exists g :: Shows(c', k, g) && Written(hash, c', g)
    {
      if k == grant.k {
        assert Shows(c', k, grant) && Written(hash, c', grant);
      } else {
        var g :| Shows(c, k, g) && Written(hash, c, g);
        assert Shows(c', k, g) && Written(hash, c', g);
      }
    }
  }

  lemma RevokeKeepsOwned(strict: bool, hash: Hash, c: Cluster, w: nat, delivered: bool)
    requires Owned(strict, hash, c) && w in c.writers && c.writers[w].Failing?
    ensures Owned(strict, hash, DoRevoke(c, w, delivered))
  {
    var c' := DoRevoke(c, w, delivered);
    HandlesStayWritten(hash, c, c');
    NarrowingKeepsVisible(hash, c, c', {});
  }

  lemma StopKeepsOwned(strict: bool, hash: Hash, c: Cluster, w: nat)
    requires Owned(strict, hash, c) && w in c.writers
    ensures Owned(strict, hash, c.(writers := c.writers[w := Done]))
  {
    var c' := c.(writers := c.writers[w := Done]);
    HandlesStayWritten(hash, c, c');
    NarrowingKeepsVisible(hash, c, c', {});
  }

  lemma LookUpKeepsOwned(strict: bool, hash: Hash, c: Cluster, r: nat, k: ObjKey, nowMs: u64)
    requires Owned(strict, hash, c) && r !in c.readers
    ensures Owned(strict, hash, DoLookUp(c, r, k, nowMs))
  {
    var c' := DoLookUp(c, r, k, nowMs);
    NarrowingKeepsVisible(hash, c, c', {});
    forall q | q in c'.readers && c'.readers[q].Holding?
      ensures exists g :: g in c'.grants && g.k == c'.readers[q].k && g.replica == c'.readers[q].replica && Written(hash, c', g)
    {
      if q == r {
        var g :| Shows(c, k, g) && Written(hash, c, g);
        assert g in c'.grants && Written(hash, c', g);
      } else {
        var g :| g in c.grants && g.k == c.readers[q].k && g.replica == c.readers[q].replica && Written(hash, c, g);
        assert g in c'.grants && Written(hash, c', g);
      }
    }
  }

  lemma ReadBytesKeepsOwned(strict: bool, hash: Hash, c: Cluster, r: nat)
    requires c.store.Sized() && Owned(strict, hash, c) && r in c.readers && c.readers[r].Holding?
    ensures Owned(strict, hash, DoReadBytes(hash, c, r))
  {
    var c' := DoReadBytes(hash, c, r);
    NarrowingKeepsVisible(hash, c, c', {});
    forall q | q in c'.readers && c'.readers[q].Holding?
      ensures exists g :: g in c'.grants && g.k == c'.readers[q].k && g.replica == c'.readers[q].replica && Written(hash, c', g)
    {
      var g :| g in c.grants && g.k == c.readers[q].k && g.replica == c.readers[q].replica && Written(hash, c, g);
      assert g in c'.grants && Written(hash, c', g);
    }
  }

  lemma AdminKeepsOwned(strict: bool, hash: Hash, c: Cluster, m: Master, removed: set<ObjKey>)
    requires Owned(strict, hash, c) && TableNarrows(c.master, m, removed)
    requires HasRoom(c) ==> forall w :: w in c.writers && InFlight(c.writers[w]) && Able(strict, c, c.writers[w]) ==>
      c.writers[w].grant.k !in removed
    ensures Owned(strict, hash, c.(master := m))
  {
    var c' := c.(master := m);
    HandlesStayWritten(hash, c, c');
    NarrowingKeepsVisible(hash, c, c', removed);
  }

  lemma AdminNarrows(c: Cluster, a: Action, m: Master)
    requires Ready(c, a)
    requires a.AdminRemove? ==> m == Remove(c.master, a.k).0
    requires a.AdminEvict? ==> m == EvictForTenant(c.master, a.tenant, a.target, a.normal, a.soft).0
    requires a.AdminSetQuota? ==> m == SetTenantQuota(c.master, a.tenant, a.dramBytes, a.ssdBytes).0
    requires a.AdminRemove? || a.AdminEvict? || a.AdminSetQuota?
    ensures TableNarrows(c.master, m, if a.AdminRemove? then {a.k} else {})
  {
    if a.AdminEvict? {
      EvictFrame(c.master, OpEvict(a.tenant, a.target, a.nowMs, a.normal, a.soft));
    }
  }

  lemma ActionKeepsOwned(strict: bool, hash: Hash, c: Cluster, a: Action)
    requires Safe(hash, c) && Owned(strict, hash, c) && Ready(c, a) && Undisturbed(strict, c, a)
    ensures Owned(strict, hash, Act(hash, c, a))
  {
    var c' := Act(hash, c, a);
    ActionIsSafe(hash, c, a);
    if a.Start? {
      StartKeepsOwned(strict, hash, c, a.w, a.k, a.bytes, a.delivered, a.heard);
    } else if a.WriteBytes? {
      WriteBytesKeepsOwned(strict, hash, c, a, c');
    } else if a.Commit? {
      CommitKeepsOwned(strict, hash, c, a.w, a.delivered, a.heard);
    } else if a.Revoke? {
      RevokeKeepsOwned(strict, hash, c, a.w, a.delivered);
    } else if a.Stop? {
      StopKeepsOwned(strict, hash, c, a.w);
    } else if a.LookUp? {
      LookUpKeepsOwned(strict, hash, c, a.r, a.k, a.nowMs);
    } else if a.ReadBytes? {
      ReadBytesKeepsOwned(strict, hash, c, a.r);
    } else {
      AdminNarrows(c, a, c'.master);
      AdminKeepsOwned(strict, hash, c, c'.master, if a.AdminRemove? then {a.k} else {});
    }
  }

  lemma {:induction false} QuietStepsStayOwned(
    strict: bool, hash: Hash, states: seq<Cluster>, actions: seq<Action>, j: nat)
    requires QuietSteps(strict, hash, states, actions) && Safe(hash, states[0]) && Owned(strict, hash, states[0])
    requires j < |states|
    ensures Owned(strict, hash, states[j])
    decreases j
  {
    if j > 0 {
      QuietStepsStayOwned(strict, hash, states, actions, j - 1);
      StepsAreSafe(hash, states, actions, j - 1);
      assert StepAt(hash, states, actions, j - 1);
      ActionKeepsOwned(strict, hash, states[j - 1], actions[j - 1]);
    }
  }

  lemma QuietRunsStayOwned(strict: bool, hash: Hash, states: seq<Cluster>, actions: seq<Action>, j: nat)
    requires QuietInterleaving(strict, hash, states, actions) && j < |states|
    ensures Safe(hash, states[j]) && Owned(strict, hash, states[j])
  {
    InitIsSafe(hash, states[0]);
    StepsAreSafe(hash, states, actions, j);
    QuietStepsStayOwned(strict, hash, states, actions, j);
  }

  /** What ownership means for readers: a visible object reads back, whole, as the bytes of its reservation. */
  lemma OwnedIsReadable(strict: bool, hash: Hash, c: Cluster, k: ObjKey) returns (g: Grant)
    requires Safe(hash, c) && Owned(strict, hash, c) && c.store.Sized()
    requires k in c.master.objects && c.master.objects[k].status == Committed
    ensures g in c.grants && g.k == k && c.master.objects[k].replicas == [g.replica]
    ensures ReadChunk(hash, c.store, FromReplica(g.replica)) == Ok(g.bytes)
  {
    g :| Shows(c, k, g) && Written(hash, c, g);
    GrantedRead(hash, c, g);
  }

  /** In quiet runs every visible object reads back, whole, as the bytes of its reservation. */
  lemma VisibleIsReadable(hash: Hash, states: seq<Cluster>, actions: seq<Action>, j: nat, k: ObjKey) returns (g: Grant)
    requires QuietInterleaving(false, hash, states, actions) && j < |states| && states[j].store.Sized()
    requires k in states[j].master.objects && states[j].master.objects[k].status == Committed
    ensures g in states[j].grants && g.k == k && states[j].master.objects[k].replicas == [g.replica]
    ensures ReadChunk(hash, states[j].store, FromReplica(g.replica)) == Ok(g.bytes)
  {
    QuietRunsStayOwned(false, hash, states, actions, j);
    g := OwnedIsReadable(false, hash, states[j], k);
  }

  /** A handle once handed out reads back the same bytes ever after, whatever happens to the object. */
  lemma HandlesStayReadable(hash: Hash, states: seq<Cluster>, actions: seq<Action>, i: nat, j: nat, r: nat)
    returns (bytes: Bytes)
    requires QuietInterleaving(false, hash, states, actions) && i <= j < |states| && states[j].store.Sized()
    requires r in states[i].readers && states[i].readers[r].Holding? && states[i].store.Sized()
    ensures ReadChunk(hash, states[i].store, FromReplica(states[i].readers[r].replica)) == Ok(bytes)
    ensures ReadChunk(hash, states[j].store, FromReplica(states[i].readers[r].replica)) == Ok(bytes)
  {
    QuietRunsStayOwned(false, hash, states, actions, i);
    QuietRunsStayOwned(false, hash, states, actions, j);
    InterleavingsKeepHistory(hash, states, actions, i, j);
    bytes := HandleReads(hash, states[i], states[j], states[i].readers[r]);
  }

  lemma HandleReads(hash: Hash, c: Cluster, c': Cluster, reader: Reader) returns (bytes: Bytes)
    requires Safe(hash, c) && Safe(hash, c') && HistoryKept(hash, c, c') && reader.Holding?
    requires exists g :: g in c.grants && g.k == reader.k && g.replica == reader.replica && Written(hash, c, g)
    ensures ReadChunk(hash, c.store, FromReplica(reader.replica)) == Ok(bytes)
    ensures ReadChunk(hash, c'.store, FromReplica(reader.replica)) == Ok(bytes)
  {
    var g :| g in c.grants && g.k == reader.k && g.replica == reader.replica && Written(hash, c, g);
    GrantedRead(hash, c, g);
    GrantedRead(hash, c', g);
    bytes := g.bytes;
  }

  /** In quiet runs a commit that finds its key flips the writer's own reservation, never a rival's. */
  lemma CommitsTouchOnlyTheirOwn(hash: Hash, states: seq<Cluster>, actions: seq<Action>, j: nat)
    requires QuietInterleaving(false, hash, states, actions) && j < |actions| && actions[j].Commit?
    ensures actions[j].w in states[j].writers && states[j].writers[actions[j].w].Stored?
    ensures var grant := states[j].writers[actions[j].w].grant;
      grant.k in states[j].master.objects ==> Shows(states[j], grant.k, grant)
  {
    QuietRunsStayOwned(false, hash, states, actions, j);
    assert StepAt(hash, states, actions, j);
  }

  /** In strictly quiet runs the same holds of a revoke. */
  lemma RevokesTouchOnlyTheirOwn(hash: Hash, states: seq<Cluster>, actions: seq<Action>, j: nat)
    requires QuietInterleaving(true, hash, states, actions) && j < |actions| && actions[j].Revoke?
    ensures actions[j].w in states[j].writers && states[j].writers[actions[j].w].Failing?
    ensures var grant := states[j].writers[actions[j].w].grant;
      grant.k in states[j].master.objects ==> Shows(states[j], grant.k, grant)
  {
    QuietRunsStayOwned(true, hash, states, actions, j);
    assert StepAt(hash, states, actions, j);
  }
}
