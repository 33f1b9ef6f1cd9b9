/** The cluster, with its regions, digests, leases and lost messages, behaves like the write-once map. */
module ClusterRefinement {
  import opened Types
  import opened Segments
  import opened Objects
  import opened Master
  import opened MasterRuns
  import opened Store
  import opened Cluster
  import opened ClusterSafety
  import W = WriteOnce

  function PhaseOf(status: ObjectStatus): W.Phase {
    match status
    case Reserving => W.Pending
    case Writing => W.Pending
    case Committed => W.Visible
    case Revoked => W.Gone
    case Evicted => W.Gone
  }

  /** The bytes a region was granted for. */
  ghost function BytesFor(grants: seq<Grant>, replica: Replica): Bytes {
    if exists g :: g in grants && g.replica == replica then
      var g :| g in grants && g.replica == replica;
      g.bytes
    else []
  }

  ghost function EntryOf(c: Cluster, k: ObjKey): W.Entry
    requires k in c.master.objects
  {
    var meta := c.master.objects[k];
    W.Entry(if meta.replicas == [] then [] else BytesFor(c.grants, meta.replicas[0]), PhaseOf(meta.status))
  }

  ghost function ClientOf(c: Cluster, reader: Reader): W.Client {
    match reader
    case Missed(_) => W.Miss
    case Holding(k, replica) => W.Looked(k, BytesFor(c.grants, replica))
    case Answered(k, Ok(bytes)) => W.Hit(k, bytes)
    case Answered(_, Err(_)) => W.Failed
  }

  ghost function Abstract(c: Cluster): W.Cache {
    W.Cache(map k | k in c.master.objects :: EntryOf(c, k),
            map r | r in c.readers :: ClientOf(c, c.readers[r]))
  }

  ghost function EvictedKeys(m: Master, m': Master): set<ObjKey> {
    set k | k in m.objects && k in m'.objects && m'.objects[k] != m.objects[k]
  }

  /** The event of the write-once map that an action amounts to. */
  ghost function EventOf(hash: Hash, c: Cluster, a: Action): W.Event
    requires Ready(c, a)
  {
    match a
    case Start(_, k, bytes, delivered, _) =>
      if delivered && PutStart(c.master, k, |bytes|, REPLICA_COUNT).1.Ok? then W.Claim(k, bytes) else W.Stutter
    case WriteBytes(_, _, _) => W.Stutter
    case Commit(w, delivered, _) =>
      var k := c.writers[w].grant.k;
      if delivered && PutEnd(c.master, k).1.Ok? then W.Publish(k) else W.Stutter
    case Revoke(w, delivered) =>
      var k := c.writers[w].grant.k;
      if delivered && k in c.master.objects then W.Retire({k}) else W.Stutter
    case Stop(_) => W.Stutter
    case LookUp(r, k, _) => W.Look(r, k)
    case ReadBytes(r) => W.Answer(r, ReadChunk(hash, c.store, FromReplica(c.readers[r].replica)).Ok?)
    case AdminRemove(k) => if k in c.master.objects then W.Forget(k) else W.Stutter
    case AdminEvict(_, _, _, _, _) => W.Retire(EvictedKeys(c.master, Act(hash, c, a).master))
    case AdminSetQuota(_, _, _) => W.Stutter
  }

  lemma GrantBytes(c: Cluster, g: Grant)
    requires GrantsStacked(c) && g in c.grants
    ensures BytesFor(c.grants, g.replica) == g.bytes
  {
    var h :| h in c.grants && h.replica == g.replica && BytesFor(c.grants, g.replica) == h.bytes;
    SameOffsetSameGrant(c, g, h);
  }

  /** More grants do not change what earlier regions were granted for. */
  lemma GrantBytesStable(c: Cluster, c': Cluster, replica: Replica)
    requires GrantsStacked(c) && GrantsStacked(c') && (forall g :: g in c.grants ==> g in c'.grants)
    requires exists g :: g in c.grants && g.replica == replica
    ensures BytesFor(c'.grants, replica) == BytesFor(c.grants, replica)
  {
    var g :| g in c.grants && g.replica == replica;
    GrantBytes(c, g);
    GrantBytes(c', g);
  }

  lemma EntriesStable(hash: Hash, c: Cluster, c': Cluster, k: ObjKey)
    requires Safe(hash, c) && Safe(hash, c') && HistoryKept(hash, c, c')
    requires k in c.master.objects && k in c'.master.objects
    requires c'.master.objects[k].replicas == c.master.objects[k].replicas
    ensures EntryOf(c', k) == EntryOf(c, k).(phase := PhaseOf(c'.master.objects[k].status))
  {
    var g :| Shows(c, k, g);
    GrantBytesStable(c, c', g.replica);
  }

  lemma ClientsStable(hash: Hash, c: Cluster, c': Cluster, r: nat)
    requires Safe(hash, c) && Safe(hash, c') && HistoryKept(hash, c, c')
    requires r in c.readers && r in c'.readers && c'.readers[r] == c.readers[r]
    ensures ClientOf(c', c'.readers[r]) == ClientOf(c, c.readers[r])
  {
    if c.readers[r].Holding? {
      assert ReaderOk(hash, c, c.readers[r]);
      GrantBytesStable(c, c', c.readers[r].replica);
    }
  }

  /** Entries whose replicas stay keep their bytes, and every client sees what it saw. */
  ghost predicate TracksEntries(c: Cluster, c': Cluster) {
    forall k :: k in c.master.objects && k in c'.master.objects ==>
      (c'.master.objects[k].replicas == c.master.objects[k].replicas ==>
         EntryOf(c', k) == EntryOf(c, k).(phase := PhaseOf(c'.master.objects[k].status)))
  }

  ghost predicate TracksClients(c: Cluster, c': Cluster) {
    forall r :: r in c.readers && r in c'.readers && c'.readers[r] == c.readers[r] ==>
      ClientOf(c', c'.readers[r]) == ClientOf(c, c.readers[r])
  }

  lemma StepTracks(hash: Hash, c: Cluster, c': Cluster)
    requires Safe(hash, c) && Safe(hash, c') && HistoryKept(hash, c, c')
    ensures TracksEntries(c, c') && TracksClients(c, c')
  {
    forall r | r in c.readers && r in c'.readers && c'.readers[r] == c.readers[r] { ClientsStable(hash, c, c', r); }
    forall k | k in c.master.objects && k in c'.master.objects
      ensures c'.master.objects[k].replicas == c.master.objects[k].replicas ==>
         EntryOf(c', k) == EntryOf(c, k).(phase := PhaseOf(c'.master.objects[k].status))
    {
      if c'.master.objects[k].replicas == c.master.objects[k].replicas {
        EntriesStable(hash, c, c', k);
      }
    }
  }

  lemma ClientsSame(c: Cluster, c': Cluster)
    requires TracksClients(c, c') && c'.readers == c.readers
    ensures Abstract(c').clients == Abstract(c).clients
  {
  }

  lemma EntriesSame(c: Cluster, c': Cluster)
    requires TracksEntries(c, c') && c'.master.objects == c.master.objects
    ensures Abstract(c').entries == Abstract(c).entries
  {
  }

  /** A step that changes neither the table's shape nor any status, nor any reader, is invisible. */
  lemma InvisibleStep(c: Cluster, c': Cluster)
    requires TracksEntries(c, c') && TracksClients(c, c')
    requires c'.master.objects == c.master.objects && c'.readers == c.readers
    ensures Abstract(c') == Abstract(c)
  {
    EntriesSame(c, c');
    ClientsSame(c, c');
  }

  lemma AddOne(e: map<ObjKey, W.Entry>, e': map<ObjKey, W.Entry>, k: ObjKey, entry: W.Entry)
    requires e'.Keys == e.Keys + {k} && k !in e && e'[k] == entry
    requires forall q :: q in e ==> e'[q] == e[q]
    ensures e' == e[k := entry]
  {
  }

  lemma ReservingClaims(c: Cluster, c': Cluster, w: nat, grant: Grant, heard: bool)
    requires TracksEntries(c, c') && TracksClients(c, c') && Reserves(c, c', w, grant, heard)
    requires BytesFor(c'.grants, grant.replica) == grant.bytes
    ensures W.Step(Abstract(c), W.Claim(grant.k, grant.bytes), Abstract(c'))
  {
    forall q | q in c.master.objects ensures EntryOf(c', q) == EntryOf(c, q) { UntouchedEntry(c, c', q); }
    AddOne(Abstract(c).entries, Abstract(c').entries, grant.k, W.Entry(grant.bytes, W.Pending));
    ClientsSame(c, c');
  }

  lemma StartRefines(hash: Hash, c: Cluster, w: nat, k: ObjKey, bytes: Bytes, delivered: bool, heard: bool)
    requires Safe(hash, c) && w !in c.writers && |bytes| <= U64_MAX
    ensures var e := if delivered && PutStart(c.master, k, |bytes|, REPLICA_COUNT).1.Ok? then W.Claim(k, bytes) else W.Stutter;
      W.Step(Abstract(c), e, Abstract(DoStart(c, w, k, bytes, delivered, heard)))
  {
    var c' := DoStart(c, w, k, bytes, delivered, heard);
    StartIsSafe(hash, c, w, k, bytes, delivered, heard);
    StepTracks(hash, c, c');
    if delivered && PutStart(c.master, k, |bytes|, REPLICA_COUNT).1.Ok? {
      var grant := StartReserves(c, w, k, bytes, heard);
      GrantBytes(c', grant);
      ReservingClaims(c, c', w, grant, heard);
    } else {
      PutStartAllOrNothing(c.master, k, |bytes|, REPLICA_COUNT);
      InvisibleStep(c, c');
    }
  }

  lemma WriteBytesRefines(hash: Hash, c: Cluster, a: Action)
    requires Safe(hash, c) && a.WriteBytes? && Ready(c, a)
    ensures Abstract(Act(hash, c, a)) == Abstract(c)
  {
    WriteBytesIsSafe(hash, c, a);
    StepTracks(hash, c, Act(hash, c, a));
    InvisibleStep(c, Act(hash, c, a));
  }

  lemma MoveOne(e: map<ObjKey, W.Entry>, e': map<ObjKey, W.Entry>, k: ObjKey, phase: W.Phase)
    requires e'.Keys == e.Keys && k in e
    requires forall q :: q in e ==> e'[q] == if q == k then e[q].(phase := phase) else e[q]
    ensures e' == e[k := e[k].(phase := phase)]
  {
  }

  lemma EntryMoves(c: Cluster, c': Cluster, k: ObjKey, status: ObjectStatus)
    requires TracksEntries(c, c') && k in c.master.objects
    requires c'.master.objects == c.master.objects[k := c.master.objects[k].(status := status)]
    ensures Abstract(c').entries == Abstract(c).entries[k := Abstract(c).entries[k].(phase := PhaseOf(status))]
  {
    forall q | q in c.master.objects
      ensures EntryOf(c', q) == if q == k then EntryOf(c, q).(phase := PhaseOf(status)) else EntryOf(c, q)
    {
      if q != k { UntouchedEntry(c, c', q); }
    }
    MoveOne(Abstract(c).entries, Abstract(c').entries, k, PhaseOf(status));
  }

  /** Only the status of one entry moved. */
  lemma StatusMoves(c: Cluster, c': Cluster, k: ObjKey, status: ObjectStatus)
    requires TracksEntries(c, c') && TracksClients(c, c') && c'.readers == c.readers && k in c.master.objects
    requires c'.master.objects == c.master.objects[k := c.master.objects[k].(status := status)]
    ensures Abstract(c') == Abstract(c).(entries :=
      Abstract(c).entries[k := Abstract(c).entries[k].(phase := PhaseOf(status))])
  {
    EntryMoves(c, c', k, status);
    ClientsSame(c, c');
  }

  lemma UntouchedEntry(c: Cluster, c': Cluster, q: ObjKey)
    requires TracksEntries(c, c') && q in c.master.objects && q in c'.master.objects
    requires c'.master.objects[q] == c.master.objects[q]
    ensures EntryOf(c', q) == EntryOf(c, q)
  {
  }

  lemma CommitRefines(hash: Hash, c: Cluster, w: nat, delivered: bool, heard: bool)
    requires Safe(hash, c) && w in c.writers && c.writers[w].Stored?
    ensures var k := c.writers[w].grant.k;
      W.Step(Abstract(c), if delivered && PutEnd(c.master, k).1.Ok? then W.Publish(k) else W.Stutter,
             Abstract(DoCommit(c, w, delivered, heard)))
  {
    var c', k := DoCommit(c, w, delivered, heard), c.writers[w].grant.k;
    assert TracksEntries(c, c') && TracksClients(c, c') by {
      CommitIsSafe(hash, c, w, delivered, heard);
      StepTracks(hash, c, c');
    }
    if delivered && PutEnd(c.master, k).1.Ok? {
      StatusMoves(c, c', k, Committed);
    } else {
      InvisibleStep(c, c');
    }
  }

  lemma RetireOne(a: W.Cache, a': W.Cache, k: ObjKey)
    requires k in a.entries && a'.clients == a.clients
    requires a'.entries == a.entries[k := a.entries[k].(phase := W.Gone)]
    ensures W.Step(a, W.Retire({k}), a')
  {
    assert a'.entries == map q | q in a.entries :: if q in {k} then a.entries[q].(phase := W.Gone) else a.entries[q];
  }

  lemma RevokeRefines(hash: Hash, c: Cluster, w: nat, delivered: bool)
    requires Safe(hash, c) && w in c.writers && c.writers[w].Failing?
    ensures var k := c.writers[w].grant.k;
      W.Step(Abstract(c), if delivered && k in c.master.objects then W.Retire({k}) else W.Stutter,
             Abstract(DoRevoke(c, w, delivered)))
  {
    var c', k := DoRevoke(c, w, delivered), c.writers[w].grant.k;
    RevokeIsSafe(hash, c, w, delivered);
    StepTracks(hash, c, c');
    if delivered && k in c.master.objects {
      RevokedEntryRetires(c, c', k);
    } else {
      InvisibleStep(c, c');
    }
  }

  lemma RevokedEntryRetires(c: Cluster, c': Cluster, k: ObjKey)
    requires TracksEntries(c, c') && TracksClients(c, c') && c'.readers == c.readers && k in c.master.objects
    requires c'.master.objects == c.master.objects[k := c.master.objects[k].(status := Revoked)]
    ensures W.Step(Abstract(c), W.Retire({k}), Abstract(c'))
  {
    EntryMoves(c, c', k, Revoked);
    ClientsSame(c, c');
    RetireOne(Abstract(c), Abstract(c'), k);
  }

  lemma ReaderSteps(c: Cluster, c': Cluster, r: nat)
    requires TracksEntries(c, c') && TracksClients(c, c') && c'.master.objects == c.master.objects
    requires r in c'.readers && c'.readers == c.readers[r := c'.readers[r]]
    ensures Abstract(c') == Abstract(c).(clients := Abstract(c).clients[r := ClientOf(c', c'.readers[r])])
  {
    EntriesSame(c, c');
    assert Abstract(c').clients == Abstract(c).clients[r := ClientOf(c', c'.readers[r])];
  }

  lemma LookUpRefines(hash: Hash, c: Cluster, r: nat, k: ObjKey, nowMs: u64)
    requires Safe(hash, c) && r !in c.readers
    ensures W.Step(Abstract(c), W.Look(r, k), Abstract(DoLookUp(c, r, k, nowMs)))
  {
    var c' := DoLookUp(c, r, k, nowMs);
    LookUpIsSafe(hash, c, r, k, nowMs);
    StepTracks(hash, c, c');
    if k in c.master.objects {
      var g :| Shows(c, k, g);
      assert c.master.objects[k].replicas[0] == g.replica;
    }
    LookUpSteps(c, r, k, nowMs);
  }

  lemma LookUpSteps(c: Cluster, r: nat, k: ObjKey, nowMs: u64)
    requires r !in c.readers && (k in c.master.objects ==> c.master.objects[k].replicas != [])
    requires var c' := DoLookUp(c, r, k, nowMs); TracksEntries(c, c') && TracksClients(c, c')
    ensures W.Step(Abstract(c), W.Look(r, k), Abstract(DoLookUp(c, r, k, nowMs)))
  {
    ReaderSteps(c, DoLookUp(c, r, k, nowMs), r);
  }

  lemma ReadBytesRefines(hash: Hash, c: Cluster, r: nat)
    requires Safe(hash, c) && r in c.readers && c.readers[r].Holding?
    ensures W.Step(Abstract(c), W.Answer(r, ReadChunk(hash, c.store, FromReplica(c.readers[r].replica)).Ok?),
                   Abstract(DoReadBytes(hash, c, r)))
  {
    var c' := DoReadBytes(hash, c, r);
    ReadBytesIsSafe(hash, c, r);
    StepTracks(hash, c, c');
    ReaderSteps(c, c', r);
    HeldHandleReads(hash, c, c.readers[r]);
  }

  lemma HeldHandleReads(hash: Hash, c: Cluster, reader: Reader)
    requires Safe(hash, c) && reader.Holding? && ReaderOk(hash, c, reader)
    ensures var r := ReadChunk(hash, c.store, FromReplica(reader.replica));
      r.Ok? ==> r.value == BytesFor(c.grants, reader.replica)
  {
    var g :| g in c.grants && g.k == reader.k && g.replica == reader.replica;
    GrantBytes(c, g);
    GrantedRead(hash, c, g);
  }

  lemma RemoveRefines(hash: Hash, c: Cluster, k: ObjKey)
    requires Safe(hash, c)
    ensures W.Step(Abstract(c), if k in c.master.objects then W.Forget(k) else W.Stutter,
                   Abstract(c.(master := Remove(c.master, k).0)))
  {
    var c' := c.(master := Remove(c.master, k).0);
    LifecycleKeepsReplicas(c.master, k);
    AdminIsSafe(hash, c, c'.master);
    StepTracks(hash, c, c');
    if k in c.master.objects {
      EntryGoes(c, c', k);
    } else {
      InvisibleStep(c, c');
    }
  }

  lemma EntryGoes(c: Cluster, c': Cluster, k: ObjKey)
    requires TracksEntries(c, c') && TracksClients(c, c') && c'.readers == c.readers
    requires c'.master.objects == c.master.objects - {k}
    ensures Abstract(c') == Abstract(c).(entries := Abstract(c).entries - {k})
  {
    assert Abstract(c').entries == Abstract(c).entries - {k};
    ClientsSame(c, c');
  }

  lemma RetireMany(e: map<ObjKey, W.Entry>, e': map<ObjKey, W.Entry>, keys: set<ObjKey>)
    requires e'.Keys == e.Keys
    requires forall q :: q in e ==> e'[q] == if q in keys then e[q].(phase := W.Gone) else e[q]
    ensures e' == map q | q in e :: if q in keys then e[q].(phase := W.Gone) else e[q]
  {
  }

  lemma EntriesRetire(c: Cluster, c': Cluster, keys: set<ObjKey>)
    requires TracksEntries(c, c') && TracksClients(c, c') && c'.readers == c.readers
    requires c'.master.objects.Keys == c.master.objects.Keys && keys <= c.master.objects.Keys
    requires forall k :: k in c.master.objects ==>
      c'.master.objects[k] == if k in keys then c.master.objects[k].(status := Evicted) else c.master.objects[k]
    ensures W.Step(Abstract(c), W.Retire(keys), Abstract(c'))
  {
    forall q | q in c.master.objects
      ensures EntryOf(c', q) == if q in keys then EntryOf(c, q).(phase := W.Gone) else EntryOf(c, q)
    {
      if q !in keys { UntouchedEntry(c, c', q); }
    }
    RetireMany(Abstract(c).entries, Abstract(c').entries, keys);
    ClientsSame(c, c');
  }

  lemma EvictRefines(hash: Hash, c: Cluster, a: Action)
    requires Safe(hash, c) && a.AdminEvict? && Ready(c, a)
    ensures W.Step(Abstract(c), EventOf(hash, c, a), Abstract(Act(hash, c, a)))
  {
    var m := EvictForTenant(c.master, a.tenant, a.target, a.normal, a.soft).0;
    AdminKeepsReplicas(c, a, m);
    AdminIsSafe(hash, c, m);
    StepTracks(hash, c, c.(master := m));
    EvictSteps(hash, c, a);
  }

  lemma EvictSteps(hash: Hash, c: Cluster, a: Action)
    requires a.AdminEvict? && Ready(c, a)
    requires TracksEntries(c, Act(hash, c, a)) && TracksClients(c, Act(hash, c, a))
    ensures W.Step(Abstract(c), EventOf(hash, c, a), Abstract(Act(hash, c, a)))
  {
    EvictFrame(c.master, OpEvict(a.tenant, a.target, a.nowMs, a.normal, a.soft));
    EvictedRetire(c, Act(hash, c, a), Candidates(c.master, a.tenant, a.nowMs));
  }

  lemma EvictedRetire(c: Cluster, c': Cluster, listed: set<ObjKey>)
    requires TracksEntries(c, c') && TracksClients(c, c') && c'.readers == c.readers
    requires EvictFramed(c.master, c'.master, listed)
    ensures W.Step(Abstract(c), W.Retire(EvictedKeys(c.master, c'.master)), Abstract(c'))
  {
    EntriesRetire(c, c', EvictedKeys(c.master, c'.master));
  }

  lemma ActionRefines(hash: Hash, c: Cluster, a: Action)
    requires Safe(hash, c) && Ready(c, a)
    ensures W.Step(Abstract(c), EventOf(hash, c, a), Abstract(Act(hash, c, a)))
  {
    if a.Start? || a.WriteBytes? || a.Commit? || a.Revoke? || a.Stop? {
      WriterRefines(hash, c, a);
    } else {
      match a {
        case LookUp(r, k, nowMs) => LookUpRefines(hash, c, r, k, nowMs);
        case ReadBytes(r) => ReadBytesRefines(hash, c, r);
        case AdminRemove(k) => RemoveRefines(hash, c, k);
        case AdminEvict(_, _, _, _, _) => EvictRefines(hash, c, a);
        case AdminSetQuota(tenant, dram, ssd) => SetQuotaRefines(hash, c, tenant, dram, ssd);
      }
    }
  }

  lemma WriterRefines(hash: Hash, c: Cluster, a: Action)
    requires Safe(hash, c) && Ready(c, a) && (a.Start? || a.WriteBytes? || a.Commit? || a.Revoke? || a.Stop?)
    ensures W.Step(Abstract(c), EventOf(hash, c, a), Abstract(Act(hash, c, a)))
  {
    match a {
      case Start(w, k, bytes, delivered, heard) => StartRefines(hash, c, w, k, bytes, delivered, heard);
      case WriteBytes(_, _, _) => WriteBytesRefines(hash, c, a);
      case Commit(w, delivered, heard) => CommitRefines(hash, c, w, delivered, heard);
      case Revoke(w, delivered) => RevokeRefines(hash, c, w, delivered);
      case Stop(w) => StopRefines(hash, c, w);
    }
  }

  lemma StopRefines(hash: Hash, c: Cluster, w: nat)
    requires Safe(hash, c) && w in c.writers
    ensures Abstract(c.(writers := c.writers[w := Done])) == Abstract(c)
  {
    var c' := c.(writers := c.writers[w := Done]);
    StopIsSafe(hash, c, w);
    StepTracks(hash, c, c');
    InvisibleStep(c, c');
  }

  lemma SetQuotaRefines(hash: Hash, c: Cluster, tenant: string, dram: u64, ssd: u64)
    requires Safe(hash, c)
    ensures Abstract(c.(master := SetTenantQuota(c.master, tenant, dram, ssd).0)) == Abstract(c)
  {
    var c' := c.(master := SetTenantQuota(c.master, tenant, dram, ssd).0);
    AdminIsSafe(hash, c, c'.master);
    StepTracks(hash, c, c');
    InvisibleStep(c, c');
  }

  /** Every interleaving of the cluster is, step by step, a run of the write-once map from empty. */
  lemma ClusterRefinesWriteOnceMap(hash: Hash, states: seq<Cluster>, actions: seq<Action>)
    requires Interleaving(hash, states, actions)
    ensures Abstract(states[0]) == W.EMPTY_CACHE
    ensures forall i :: 0 <= i < |actions| ==>
      Ready(states[i], actions[i])
      && W.Step(Abstract(states[i]), EventOf(hash, states[i], actions[i]), Abstract(states[i + 1]))
  {
    forall i | 0 <= i < |actions|
      ensures Ready(states[i], actions[i])
        && W.Step(Abstract(states[i]), EventOf(hash, states[i], actions[i]), Abstract(states[i + 1]))
    {
      assert StepAt(hash, states, actions, i);
      InterleavingsAreSafe(hash, states, actions, i);
      ActionRefines(hash, states[i], actions[i]);
    }
  }
}
