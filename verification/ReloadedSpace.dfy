/** What the space granted after a reload does to the objects that lay there before. */
module ReloadedSpace {
  import opened Types
  import opened Segments
  import opened Objects
  import opened Master
  import opened MasterTheorems
  import opened Placement
  import opened Store
  import opened Snapshots
  import opened MasterApp

  // ---- Writes over an old chunk ----

  ghost predicate WriteHappens(hash: Hash, stores: seq<Store>, writes: seq<PastWrite>, i: nat) {
    && i < |writes| && i + 1 < |stores| && stores[i].Sized() && 0 < |writes[i].bytes| <= U64_MAX
    && WritePreallocated(hash, stores[i], ChunkHandle(writes[i].offset, |writes[i].bytes|), writes[i].bytes)
       == (stores[i + 1], Ok(()))
  }

  /** Successful writes, one after the other. */
  ghost predicate WritesHappen(hash: Hash, stores: seq<Store>, writes: seq<PastWrite>) {
    |stores| == |writes| + 1 && forall i :: 0 <= i < |writes| ==> WriteHappens(hash, stores, writes, i)
  }

  predicate Clear(w: PastWrite, offset: nat, len: nat) {
    DisjointRegions(w.offset, |w.bytes|, offset, len)
  }

  /** Two writes go to the same region or to disjoint ones. */
  predicate Separate(writes: seq<PastWrite>) {
    forall i, j :: 0 <= i < j < |writes| ==>
      (writes[i].offset == writes[j].offset && |writes[i].bytes| == |writes[j].bytes|)
      || Clear(writes[i], writes[j].offset, |writes[j].bytes|)
  }

  predicate NoneEmpty(writes: seq<PastWrite>) {
    forall i :: 0 <= i < |writes| ==> writes[i].bytes != []
  }

  /** What the store still knows of a chunk it held before. */
  ghost predicate Remains(hash: Hash, s: Store, writes: seq<PastWrite>, offset: u64, held: Bytes) {
    && s.Sized()
    && match LastAt(writes, offset)
       case Some(bytes) => Holds(hash, s, offset, bytes)
       case None =>
         && |held| <= U64_MAX && offset in s.allocations && s.allocations[offset] == ChunkMeta(|held|, Some(hash(held)))
         && offset + |held| <= |s.arena|
         && ((forall i :: 0 <= i < |writes| ==> Clear(writes[i], offset, |held|)) ==> s.arena[offset..offset + |held|] == held)
  }

  lemma {:induction false} LastAtWrites(writes: seq<PastWrite>, offset: u64) returns (i: nat)
    requires LastAt(writes, offset).Some?
    ensures i < |writes| && writes[i] == PastWrite(offset, LastAt(writes, offset).value)
    decreases |writes|
  {
    if writes[|writes| - 1].offset == offset {
      i := |writes| - 1;
    } else {
      i := LastAtWrites(writes[..|writes| - 1], offset);
    }
  }

  lemma WriteLeaves(hash: Hash, s: Store, s': Store, w: PastWrite, before: seq<PastWrite>, offset: u64, held: Bytes)
    requires s.Sized() && 0 < |w.bytes| <= U64_MAX && held != [] && |held| <= U64_MAX
    requires WritePreallocated(hash, s, ChunkHandle(w.offset, |w.bytes|), w.bytes) == (s', Ok(()))
    requires Remains(hash, s, before, offset, held) && Separate(before + [w])
    requires NoneEmpty(before)
    ensures Remains(hash, s', before + [w], offset, held)
  {
    WriteThenRead(hash, s, ChunkHandle(w.offset, |w.bytes|), w.bytes);
    LastAtSnoc(before, w, offset);
    var after := before + [w];
    if w.offset != offset {
      match LastAt(before, offset) {
        case Some(bytes) =>
          var i := LastAtWrites(before, offset);
          assert after[i] == before[i] && after[|before|] == w;
          HeldBytesSurvive(hash, s, ChunkHandle(w.offset, |w.bytes|), w.bytes, offset, bytes);
        case None =>
          if forall i :: 0 <= i < |after| ==> Clear(after[i], offset, |held|) {
            assert forall i :: 0 <= i < |before| ==> after[i] == before[i];
            assert after[|before|] == w;
          }
      }
    }
  }

  lemma PrefixWrites(hash: Hash, stores: seq<Store>, writes: seq<PastWrite>, j: nat)
    requires WritesHappen(hash, stores, writes) && Separate(writes) && 0 < j <= |writes|
    ensures Separate(writes[..j - 1] + [writes[j - 1]])
    ensures NoneEmpty(writes[..j - 1])
  {
    var before := writes[..j - 1];
    var prefix := before + [writes[j - 1]];
    assert forall i :: 0 <= i < j ==> prefix[i] == writes[i];
    forall i | 0 <= i < |before| ensures before[i].bytes != [] {
      assert WriteHappens(hash, stores, writes, i);
    }
  }

  lemma {:induction false} WritesLeave(hash: Hash, stores: seq<Store>, writes: seq<PastWrite>, j: nat, offset: u64, held: Bytes)
    requires WritesHappen(hash, stores, writes) && Separate(writes) && j <= |writes|
    requires stores[0].Sized() && held != [] && Holds(hash, stores[0], offset, held)
    ensures Remains(hash, stores[j], writes[..j], offset, held)
    decreases j
  {
    if j > 0 {
      WritesLeave(hash, stores, writes, j - 1, offset, held);
      assert WriteHappens(hash, stores, writes, j - 1);
      assert writes[..j] == writes[..j - 1] + [writes[j - 1]];
      PrefixWrites(hash, stores, writes, j);
      WriteLeaves(hash, stores[j - 1], stores[j], writes[j - 1], writes[..j - 1], offset, held);
    }
  }

  /** What an old handle reads: another write that took its place, itself if nothing came near, else at most a collision. */
  ghost predicate OldRead(hash: Hash, writes: seq<PastWrite>, offset: u64, held: Bytes, r: Result<Bytes, StoreError>) {
    match LastAt(writes, offset)
    case Some(bytes) => if |bytes| == |held| then r == Ok(bytes) else r.Err?
    case None =>
      && ((forall i :: 0 <= i < |writes| ==> Clear(writes[i], offset, |held|)) ==> r == Ok(held))
      && (r.Ok? ==> hash(r.value) == hash(held))
  }

  lemma RemainsReads(hash: Hash, s: Store, writes: seq<PastWrite>, offset: u64, held: Bytes)
    requires Remains(hash, s, writes, offset, held) && |held| <= U64_MAX
    ensures OldRead(hash, writes, offset, held, ReadChunk(hash, s, ChunkHandle(offset, |held|)))
  {
  }

  // ---- Grants after a reload ----

  /** A run of a reloaded master that mounts nothing more. */
  ghost predicate ReloadedRun(register: Option<Shot>, states: seq<Master>, ops: seq<Op>) {
    Behaviour(states, ops) && states[0] == Reload(register) && forall p :: 0 <= p < |ops| ==> !ops[p].OpMount?
  }

  lemma ReloadedSegments(register: Option<Shot>, states: seq<Master>, ops: seq<Op>, j: nat)
    requires ReloadedRun(register, states, ops) && j < |states|
    ensures |states[j].segments| == 1 && Bounded(states[j].segments) && states[j].segments[0].nodeId == "default"
  {
    NothingMounted(states, ops, 0, j);
    RunGrowsSegments(states, ops, 0, j);
  }

  /**
   * All grants after a reload lie on the one segment, from offset 0 on, each where the last one ended: disjoint, in the
   * order of granting; and without a gap, as every byte below the bump pointer was granted.
   */
  lemma ReloadedGrantsStack(register: Option<Shot>, states: seq<Master>, ops: seq<Op>)
    requires ReloadedRun(register, states, ops)
    ensures RegionsDisjoint(states, ops) && |states[|ops|].segments| == 1
    ensures forall i: nat, a: nat, s: nat, r :: Granted(states, ops, i, a, s, r) ==>
      s == 0 && r.nodeId == "default" && |states[i].segments| == 1 && r.offset == states[i].segments[0].nextOffset
      && r.len > 0 && r.offset + r.len <= states[|ops|].segments[0].nextOffset
  {
    ReloadedSegments(register, states, ops, |ops|);
    GrantedRegionsAreDisjoint(states, ops);
    forall i: nat, a: nat, s: nat, r | Granted(states, ops, i, a, s, r)
      ensures s == 0 && r.nodeId == "default" && |states[i].segments| == 1 && r.offset == states[i].segments[0].nextOffset
        && r.len > 0 && r.offset + r.len <= states[|ops|].segments[0].nextOffset
    {
      ReloadedSegments(register, states, ops, i);
      GrantFacts(states, ops, i, a, s, r);
      GrantedRegionsFit(states, ops, i, a, s, r);
    }
  }

  lemma ReloadedBytesGranted(register: Option<Shot>, states: seq<Master>, ops: seq<Op>, x: nat)
    returns (i: nat, a: nat, r: Replica)
    requires ReloadedRun(register, states, ops) && |states[|ops|].segments| == 1
    requires x < states[|ops|].segments[0].nextOffset
    ensures Granted(states, ops, i, a, 0, r) && r.offset <= x < r.offset + r.len
  {
    i, a, r := EveryByteWasGranted(states, ops, |ops|, 0, x);
  }

  /** The write fills a region granted in the run. */
  ghost predicate Fills(states: seq<Master>, ops: seq<Op>, w: PastWrite) {
    exists i, a, s, r :: Granted(states, ops, i, a, s, r) && r.offset == w.offset && r.len == |w.bytes|
  }

  lemma FillsAreSeparate(register: Option<Shot>, states: seq<Master>, ops: seq<Op>, writes: seq<PastWrite>)
    requires ReloadedRun(register, states, ops) && forall i :: 0 <= i < |writes| ==> Fills(states, ops, writes[i])
    ensures Separate(writes)
  {
    ReloadedGrantsStack(register, states, ops);
    forall x, y | 0 <= x < y < |writes|
      ensures (writes[x].offset == writes[y].offset && |writes[x].bytes| == |writes[y].bytes|)
        || Clear(writes[x], writes[y].offset, |writes[y].bytes|)
    {
      assert Fills(states, ops, writes[x]) && Fills(states, ops, writes[y]);
      TwoFills(states, ops, writes[x], writes[y]);
    }
  }

  lemma TwoFills(states: seq<Master>, ops: seq<Op>, v: PastWrite, w: PastWrite)
    requires Fills(states, ops, v) && Fills(states, ops, w) && RegionsDisjoint(states, ops)
    requires forall i: nat, a: nat, s: nat, r :: Granted(states, ops, i, a, s, r) ==> r.nodeId == "default"
    ensures (v.offset == w.offset && |v.bytes| == |w.bytes|) || Clear(v, w.offset, |w.bytes|)
  {
    var i, a, s, r :| Granted(states, ops, i, a, s, r) && r.offset == v.offset && r.len == |v.bytes|;
    var j, b, t, q :| Granted(states, ops, j, b, t, q) && q.offset == w.offset && q.len == |w.bytes|;
    SameOrApart(states, ops, i, a, s, r, j, b, t, q);
  }

  lemma SameOrApart(
    states: seq<Master>, ops: seq<Op>, i: nat, a: nat, s: nat, r: Replica, j: nat, b: nat, t: nat, q: Replica)
    requires Granted(states, ops, i, a, s, r) && Granted(states, ops, j, b, t, q) && RegionsDisjoint(states, ops)
    ensures r == q || Apart(r, q)
  {
  }

  /**
   * After any run of the reloaded master, whichever of its grants were written, in whatever order and however often, a
   * handle from before the reload returns another write's bytes exactly where one began at its offset with its length; it
   * returns its own where no write came near, in particular above all that was granted; in every other case it fails,
   * unless the digest of what is there collides with that of what was.
   */
  lemma OldHandlesAfterReload(
    hash: Hash, register: Option<Shot>, states: seq<Master>, ops: seq<Op>, stores: seq<Store>, writes: seq<PastWrite>,
    offset: u64, held: Bytes)
    requires ReloadedRun(register, states, ops) && WritesHappen(hash, stores, writes)
    requires forall i :: 0 <= i < |writes| ==> Fills(states, ops, writes[i])
    requires stores[0].Sized() && stores[|writes|].Sized() && held != [] && Holds(hash, stores[0], offset, held)
    ensures var r := ReadChunk(hash, stores[|writes|], ChunkHandle(offset, |held|));
      && OldRead(hash, writes, offset, held, r)
      && (|states[|ops|].segments| == 1 && states[|ops|].segments[0].nextOffset <= offset ==> r == Ok(held))
  {
    FillsAreSeparate(register, states, ops, writes);
    WritesLeave(hash, stores, writes, |writes|, offset, held);
    assert writes[..|writes|] == writes;
    RemainsReads(hash, stores[|writes|], writes, offset, held);
    ReloadedSegments(register, states, ops, |ops|);
    if states[|ops|].segments[0].nextOffset <= offset {
      forall i | 0 <= i < |writes| ensures Clear(writes[i], offset, |held|) && writes[i].offset != offset {
        FillsLieBelow(register, states, ops, writes[i]);
      }
      if LastAt(writes, offset).Some? {
        var i := LastAtWrites(writes, offset);
      }
    }
  }

  lemma FillsLieBelow(register: Option<Shot>, states: seq<Master>, ops: seq<Op>, w: PastWrite)
    requires ReloadedRun(register, states, ops) && Fills(states, ops, w)
    ensures |states[|ops|].segments| == 1 && 0 < |w.bytes|
    ensures w.offset + |w.bytes| <= states[|ops|].segments[0].nextOffset
  {
    ReloadedSegments(register, states, ops, |ops|);
    ReloadedGrantsStack(register, states, ops);
  }

  // ---- A run in which a hit returns another key's bytes ----

  /** The service and the one store; `filled` is history: the bytes last written for each key. */
  datatype World = World(app: App, store: Store, filled: map<ObjKey, Bytes>)

  /** A step of the service, or a writer filling the region its pending reservation shows. */
  datatype WorldAction = Service(a: AppAction) | Fill(k: ObjKey, bytes: Bytes)

  ghost predicate WorldReady(w: World, a: WorldAction) {
    match a
    case Service(sa) => AppReady(w.app, sa)
    case Fill(k, bytes) =>
      && w.store.Sized() && |bytes| <= U64_MAX && Pending(w.app.master.objects, k)
      && |w.app.master.objects[k].replicas| == 1 && w.app.master.objects[k].replicas[0].len == |bytes|
  }

  ghost function WorldAct(hash: Hash, w: World, a: WorldAction): World
    requires WorldReady(w, a)
  {
    match a
    case Service(sa) => w.(app := AppAct(w.app, sa))
    case Fill(k, bytes) =>
      var (store, r) := WritePreallocated(hash, w.store, FromReplica(w.app.master.objects[k].replicas[0]), bytes);
      w.(store := store, filled := if r.Ok? then w.filled[k := bytes] else w.filled)
  }

  ghost predicate WorldStep(hash: Hash, w: World, a: WorldAction, w': World) {
    WorldReady(w, a) && w' == WorldAct(hash, w, a)
  }

  ghost predicate WorldRun(hash: Hash, worlds: seq<World>, actions: seq<WorldAction>) {
    && |worlds| == |actions| + 1
    && worlds[0].app == START_APP && IsEmptyStore(worlds[0].store) && worlds[0].filled == map[]
    && forall i :: 0 <= i < |actions| ==> WorldStep(hash, worlds[i], actions[i], worlds[i + 1])
  }

  ghost predicate WorldReached(hash: Hash, w: World) {
    exists worlds, actions :: WorldRun(hash, worlds, actions) && worlds[|actions|] == w
  }

  lemma WorldOn(hash: Hash, w: World, a: WorldAction, w': World)
    requires WorldReached(hash, w) && WorldStep(hash, w, a, w')
    ensures WorldReached(hash, w')
  {
    var worlds, actions :| WorldRun(hash, worlds, actions) && worlds[|actions|] == w;
    var s, t := worlds + [w'], actions + [a];
    forall i | 0 <= i < |t| ensures WorldStep(hash, s[i], t[i], s[i + 1]) {
      if i < |actions| {
        assert s[i] == worlds[i] && s[i + 1] == worlds[i + 1] && t[i] == actions[i];
      }
    }
    assert WorldRun(hash, s, t);
  }

  lemma {:induction false} WorldsStayOk(hash: Hash, worlds: seq<World>, actions: seq<WorldAction>, j: nat)
    requires WorldRun(hash, worlds, actions) && j < |worlds|
    ensures AppOk(worlds[j].app)
    decreases j
  {
    if j > 0 {
      WorldsStayOk(hash, worlds, actions, j - 1);
      assert WorldStep(hash, worlds[j - 1], actions[j - 1], worlds[j]);
      match actions[j - 1] {
        case Service(a) => StepKeepsOk(worlds[j - 1].app, a, worlds[j].app);
        case Fill(_, _) =>
      }
    }
  }

  lemma WorldReachedIsOk(hash: Hash, w: World)
    requires WorldReached(hash, w)
    ensures AppOk(w.app)
  {
    var worlds, actions :| WorldRun(hash, worlds, actions) && worlds[|actions|] == w;
    WorldsStayOk(hash, worlds, actions, |actions|);
  }

  lemma ReserveInWorld(hash: Hash, w: World, h: nat, k: ObjKey, keys: set<ObjKey>) returns (w': World)
    requires WorldReached(hash, w) && h !in w.app.handlers && Roomy(w.app, 0, keys) && k !in keys
    ensures WorldReached(hash, w') && w'.store == w.store && w'.filled == w.filled
    ensures Roomy(w'.app, 1, keys + {k}) && Pending(w'.app.master.objects, k)
    ensures w'.app.master.objects[k].replicas == [Replica("default", 0, 1)]
    ensures w'.app.master.objects == w.app.master.objects[k := w'.app.master.objects[k]]
    ensures w'.app.handlers.Keys == w.app.handlers.Keys + {h}
  {
    var app := ReserveEffect(w.app, h, k, 0, keys);
    w' := w.(app := app);
    WorldOn(hash, w, Service(Change(h, OpPutStart(k, 1, 1))), w');
  }

  lemma FillInWorld(hash: Hash, w: World, k: ObjKey, b: byte) returns (w': World)
    requires WorldReached(hash, w) && w.store.Sized() && |w.store.arena| > 0 && Pending(w.app.master.objects, k)
    requires w.app.master.objects[k].replicas == [Replica("default", 0, 1)]
    ensures WorldReached(hash, w') && w'.app == w.app && w'.filled == w.filled[k := [b]]
    ensures w'.store.Sized() && |w'.store.arena| == |w.store.arena|
    ensures ReadChunk(hash, w'.store, ChunkHandle(0, 1)) == Ok([b])
  {
    WriteThenRead(hash, w.store, ChunkHandle(0, 1), [b]);
    w' := WorldAct(hash, w, Fill(k, [b]));
    WorldOn(hash, w, Fill(k, [b]), w');
  }

  /** One service step in the world. */
  lemma ServiceInWorld(hash: Hash, w: World, a: AppAction) returns (w': World)
    requires WorldReached(hash, w) && AppReady(w.app, a)
    ensures WorldReached(hash, w') && w' == w.(app := AppAct(w.app, a))
  {
    w' := w.(app := AppAct(w.app, a));
    WorldOn(hash, w, Service(a), w');
  }

  /** The key is committed, and its commit saved. */
  lemma CommitAndSave(hash: Hash, w: World, h: nat, k: ObjKey) returns (w': World)
    requires WorldReached(hash, w) && AppOk(w.app) && h !in w.app.handlers && Pending(w.app.master.objects, k)
    ensures WorldReached(hash, w') && w'.store == w.store && w'.filled == w.filled
    ensures w'.app.register.Some? && w'.app.handlers.Keys == w.app.handlers.Keys && h !in w'.app.handlers
    ensures var saved := Restore(w'.app.register.value.snapshot);
      && saved.objects == w.app.master.objects[k := w.app.master.objects[k].(status := Committed)]
      && saved.quotas == w.app.master.quotas
  {
    var w1 := CommitInWorld(hash, w, h, k);
    var s := SomeSnapshot(w1.app.master);
    RestoreUndoesSnapshot(w1.app.master, s);
    var w2 := ServiceInWorld(hash, w1, Snap(h, s));
    w' := ServiceInWorld(hash, w2, Save(h));
  }

  lemma CommitInWorld(hash: Hash, w: World, h: nat, k: ObjKey) returns (w': World)
    requires WorldReached(hash, w) && AppOk(w.app) && h !in w.app.handlers && Pending(w.app.master.objects, k)
    ensures WorldReached(hash, w') && w'.store == w.store && w'.filled == w.filled && AppOk(w'.app)
    ensures w'.app.master == w.app.master.(objects := w'.app.master.objects)
    ensures w'.app.master.objects == w.app.master.objects[k := w.app.master.objects[k].(status := Committed)]
    ensures w'.app.handlers.Keys == w.app.handlers.Keys + {h} && w'.app.handlers[h].shot.None?
  {
    w' := ServiceInWorld(hash, w, Change(h, OpPutEnd(k)));
    WorldReachedIsOk(hash, w');
  }

  lemma FailoverInWorld(hash: Hash, w: World, k: ObjKey) returns (w': World)
    requires WorldReached(hash, w) && w.app.register.Some?
    requires Restore(w.app.register.value.snapshot).quotas == map[]
    ensures WorldReached(hash, w') && w'.store == w.store && w'.filled == w.filled
    ensures w'.app.master.objects == Restore(w.app.register.value.snapshot).objects
    ensures Roomy(w'.app, 0, w'.app.master.objects.Keys) && w'.app.handlers.Keys <= w.app.handlers.Keys
  {
    w' := ServiceInWorld(hash, w, Failover);
  }

  /** A key is reserved, written, committed and saved on a fresh service. */
  lemma FirstObject(hash: Hash, k: ObjKey, b: byte, empty: Store) returns (w: World)
    requires IsEmptyStore(empty) && |empty.arena| > 0
    ensures WorldReached(hash, w) && w.store.Sized() && |w.store.arena| > 0 && w.filled == map[k := [b]]
    ensures w.app.register.Some? && Restore(w.app.register.value.snapshot).quotas == map[]
    ensures var objects := Restore(w.app.register.value.snapshot).objects;
      && objects.Keys == {k} && objects[k].status == Committed && objects[k].replicas == [Replica("default", 0, 1)]
    ensures w.app.handlers.Keys == {1}
  {
    var w0 := World(START_APP, empty, map[]);
    assert WorldRun(hash, [w0], []);
    FreshService(false);
    var w1 := ReserveInWorld(hash, w0, 1, k, {});
    var w2 := FillInWorld(hash, w1, k, b);
    WorldReachedIsOk(hash, w2);
    w := CommitAndSave(hash, w2, 2, k);
  }

  /** A listed key whose handle reads other bytes than were last written for it. */
  ghost predicate Misread(hash: Hash, w: World, k: ObjKey, nowMs: u64) {
    && k in w.filled && w.store.Sized()
    && var listed := GetReplicaList(w.app.master, k, nowMs).1;
       listed.Ok? && |listed.value.replicas| == 1
       && var read := ReadChunk(hash, w.store, FromReplica(listed.value.replicas[0])); read.Ok? && read.value != w.filled[k]
  }

  lemma MisreadState(hash: Hash, k: ObjKey, k2: ObjKey, b: byte, b2: byte, empty: Store, nowMs: u64) returns (w: World)
    requires k != k2 && b != b2 && IsEmptyStore(empty) && |empty.arena| > 0
    ensures WorldReached(hash, w) && Misread(hash, w, k, nowMs) && k2 in w.filled
  {
    var w1 := FirstObject(hash, k, b, empty);
    var w2 := FailoverInWorld(hash, w1, k);
    var w3 := ReserveInWorld(hash, w2, 3, k2, {k});
    w := FillInWorld(hash, w3, k2, b2);
  }

  /**
   * A service started fresh, a key committed and written, a failover, another key of the same length reserved and written:
   * the first key is still listed, and its handle reads the second key's bytes.
   */
  lemma MisreadRun(hash: Hash, k: ObjKey, k2: ObjKey, b: byte, b2: byte, empty: Store, nowMs: u64)
    returns (worlds: seq<World>, actions: seq<WorldAction>)
    requires k != k2 && b != b2 && IsEmptyStore(empty) && |empty.arena| > 0
    ensures WorldRun(hash, worlds, actions) && Misread(hash, worlds[|actions|], k, nowMs)
  {
    var w := MisreadState(hash, k, k2, b, b2, empty, nowMs);
    worlds, actions :| WorldRun(hash, worlds, actions) && worlds[|actions|] == w;
  }
}
