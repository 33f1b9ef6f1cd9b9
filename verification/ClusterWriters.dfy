/** What becomes of writers and their reservations: who moves when, what each step leaves behind, and how it all ends. */
module ClusterWriters {
  import opened Types
  import opened Segments
  import opened Objects
  import opened Master
  import opened MasterRuns
  import opened MasterOutcomes
  import opened Store
  import opened Cluster
  import opened ClusterSafety
  import opened ClusterRemoval

  // ---- One writer, step by step ----

  /** The writer's region lies inside the arena. */
  predicate RegionFits(c: Cluster, g: Grant) {
    g.replica.offset + g.replica.len <= |c.store.arena|
  }

  /** How a writer moves: on after a success it hears of, to failing after anything else, and to done at its end. */
  ghost predicate WriterMoves(c: Cluster, a: Action, w: nat, was: Writer, next: Writer) {
    && (a == Stop(w) ==> next == Done)
    && (a.WriteBytes? && a.w == w ==>
          && was.Reserved?
          && next == if a.delivered && a.heard && RegionFits(c, was.grant) then Stored(was.grant) else Failing(was.grant))
    && (a.Commit? && a.w == w ==>
          && was.Stored?
          && next == if a.delivered && a.heard && Awaiting(c.master.objects, was.grant.k) then Done else Failing(was.grant))
    && (a.Revoke? && a.w == w ==> was.Failing? && next == Done)
    && (next != was ==> a == Stop(w) || ((a.WriteBytes? || a.Commit? || a.Revoke?) && a.w == w))
  }

  lemma WriterStep(hash: Hash, c: Cluster, a: Action, w: nat)
    requires Safe(hash, c) && Ready(c, a) && w in c.writers
    ensures w in Act(hash, c, a).writers && WriterMoves(c, a, w, c.writers[w], Act(hash, c, a).writers[w])
  {
    if a.WriteBytes? && a.w == w {
      var g := c.writers[w].grant;
      GrantSizes(c, g);
      WriteThenRead(hash, c.store, FromReplica(g.replica), g.bytes);
    } else if a.Commit? && a.w == w {
      PutEndOutcome(c.master, c.writers[w].grant.k);
    }
  }

  lemma GrantSizes(c: Cluster, g: Grant)
    requires GrantsStacked(c) && g in c.grants
    ensures 0 < |g.bytes| == g.replica.len
  {
    var i :| 0 <= i < |c.grants| && c.grants[i] == g;
  }

  /**
   * In every interleaving: after a write or commit that was lost, went wrong or went unheard, a writer goes on to revoke
   * its own reservation; after those that succeed it goes on to commit and is then done; nothing else moves it.
   */
  lemma WritersMoveAsTold(hash: Hash, states: seq<Cluster>, actions: seq<Action>, i: nat, w: nat)
    requires Interleaving(hash, states, actions) && i < |actions| && w in states[i].writers
    ensures w in states[i + 1].writers
    ensures WriterMoves(states[i], actions[i], w, states[i].writers[w], states[i + 1].writers[w])
  {
    InterleavingsAreSafe(hash, states, actions, i);
    assert StepAt(hash, states, actions, i);
    WriterStep(hash, states[i], actions[i], w);
  }

  /** The action ends the writer: it stops, it revokes, or it hears that its commit made its pending key visible. */
  ghost predicate Settles(states: seq<Cluster>, actions: seq<Action>, p: nat, w: nat)
  {
    && p < |actions| && p + 1 < |states| && w in states[p].writers
    && match actions[p]
       case Stop(v) => v == w
       case Revoke(v, _) => v == w && states[p].writers[w].Failing?
       case Commit(v, delivered, heard) =>
         && v == w && delivered && heard && states[p].writers[w].Stored?
         && var k := states[p].writers[w].grant.k;
            Awaiting(states[p].master.objects, k)
            && k in states[p + 1].master.objects && states[p + 1].master.objects[k].status == Committed
       case _ => false
  }

  lemma DoneIsSettled(hash: Hash, states: seq<Cluster>, actions: seq<Action>, p: nat, w: nat)
    requires Interleaving(hash, states, actions) && p < |actions|
    requires w in states[p].writers && InFlight(states[p].writers[w])
    requires w in states[p + 1].writers && states[p + 1].writers[w].Done?
    ensures Settles(states, actions, p, w)
  {
    WritersMoveAsTold(hash, states, actions, p, w);
    assert StepAt(hash, states, actions, p);
    if actions[p].Commit? {
      PutEndOutcome(states[p].master, states[p].writers[w].grant.k);
    }
  }

  /** In every interleaving a writer once in flight is done only after it stopped, revoked, or heard of its commit. */
  lemma {:induction false} WritersAreSettled(
    hash: Hash, states: seq<Cluster>, actions: seq<Action>, i: nat, j: nat, w: nat) returns (p: nat)
    requires Interleaving(hash, states, actions) && i <= j < |states|
    requires w in states[i].writers && InFlight(states[i].writers[w])
    requires w in states[j].writers && states[j].writers[w].Done?
    ensures i <= p < j && Settles(states, actions, p, w)
    decreases j
  {
    WriterStays(hash, states, actions, i, j - 1, w);
    if InFlight(states[j - 1].writers[w]) {
      p := j - 1;
      DoneIsSettled(hash, states, actions, p, w);
    } else {
      p := WritersAreSettled(hash, states, actions, i, j - 1, w);
    }
  }

  lemma {:induction false} WriterStays(hash: Hash, states: seq<Cluster>, actions: seq<Action>, i: nat, j: nat, w: nat)
    requires Interleaving(hash, states, actions) && i <= j < |states| && w in states[i].writers
    ensures w in states[j].writers
    decreases j
  {
    if i < j {
      WriterStays(hash, states, actions, i, j - 1, w);
      WritersMoveAsTold(hash, states, actions, j - 1, w);
    }
  }

  // ---- What a step leaves behind ----

  /** A reservation can be granted: free key, quota, something to store, room in the segment. */
  ghost predicate Grantable(c: Cluster, k: ObjKey, bytes: Bytes) {
    && k !in c.master.objects && bytes != []
    && (k.tenant in c.master.quotas ==>
          c.master.quotas[k.tenant].usedDramBytes + |bytes| <= c.master.quotas[k.tenant].dramBytes)
    && |c.master.segments| == 1 && c.master.segments[0].nextOffset + |bytes| <= c.master.segments[0].len
  }

  /** The next region, a pending entry, and a writer that goes on with it if it hears of it; or nothing at all. */
  ghost predicate StartMoves(c: Cluster, a: Action, c': Cluster)
    requires a.Start?
  {
    && a.w !in c.writers && c'.writers.Keys == c.writers.Keys + {a.w} && c'.store == c.store && c'.readers == c.readers
    && |c.master.segments| == 1
    && if a.delivered && Grantable(c, a.k, a.bytes) then
         && |c'.grants| == |c.grants| + 1 && c'.grants[..|c.grants|] == c.grants
         && var g := c'.grants[|c.grants|];
            && g.k == a.k && g.bytes == a.bytes
            && g.replica.offset == c.master.segments[0].nextOffset && g.replica.len == |a.bytes|
            && Shows(c', a.k, g) && Awaiting(c'.master.objects, a.k)
            && c'.writers[a.w] == if a.heard then Reserved(g) else Done
       else c'.grants == c.grants && c'.master == c.master && c'.writers[a.w] == Done
  }

  /**
   * In every interleaving a request for a reservation that is delivered is granted exactly if it can be; any other leaves
   * the cluster as it was, and its writer done.
   */
  lemma StartsMoveAsTold(hash: Hash, states: seq<Cluster>, actions: seq<Action>, i: nat)
    requires Interleaving(hash, states, actions) && i < |actions| && actions[i].Start?
    ensures StartMoves(states[i], actions[i], states[i + 1])
  {
    InterleavingsAreSafe(hash, states, actions, i);
    assert StepAt(hash, states, actions, i);
    StartStep(hash, states[i], actions[i]);
  }

  lemma StartStep(hash: Hash, c: Cluster, a: Action)
    requires Safe(hash, c) && Ready(c, a) && a.Start?
    ensures StartMoves(c, a, Act(hash, c, a))
  {
    GrantableIff(c, a.k, a.bytes);
    if a.delivered {
      if Grantable(c, a.k, a.bytes) {
        var g := StartReserves(c, a.w, a.k, a.bytes, a.heard);
        assert Act(hash, c, a).grants[|c.grants|] == g;
      } else {
        PutStartAllOrNothing(c.master, a.k, |a.bytes|, REPLICA_COUNT);
      }
    }
  }

  lemma GrantableIff(c: Cluster, k: ObjKey, bytes: Bytes)
    requires |c.master.segments| == 1 && |bytes| <= U64_MAX
    ensures PutStart(c.master, k, |bytes|, REPLICA_COUNT).1.Ok? <==> Grantable(c, k, bytes)
  {
    PutStartSucceedsIff(c.master, k, |bytes|, REPLICA_COUNT);
    var m := c.master;
    assert FittingCount(m.segments, |bytes|, 1) == 0;
  }

  /** What a writer's later steps do to master and store. */
  ghost predicate LeavesBehind(hash: Hash, c: Cluster, a: Action, c': Cluster) {
    match a
    case WriteBytes(w, delivered, _) =>
      && c'.master == c.master && w in c.writers && InFlight(c.writers[w])
      && if delivered && RegionFits(c, c.writers[w].grant) then Written(hash, c', c.writers[w].grant) else c'.store == c.store
    case Commit(w, delivered, _) =>
      && c'.store == c.store && w in c.writers && InFlight(c.writers[w])
      && var k := c.writers[w].grant.k;
         c'.master == if delivered && Awaiting(c.master.objects, k)
                      then c.master.(objects := c.master.objects[k := c.master.objects[k].(status := Committed)])
                      else c.master
    case Revoke(w, delivered) =>
      && c'.store == c.store && w in c.writers && InFlight(c.writers[w])
      && var k := c.writers[w].grant.k;
         if delivered && k in c.master.objects then
           c'.master.objects == c.master.objects[k := c.master.objects[k].(status := Revoked)]
           && GivesBack(c.master, c'.master, k)
         else c'.master == c.master
    case Stop(_) => c'.master == c.master && c'.store == c.store
    case _ => true
  }

  /**
   * In every interleaving: a delivered write that fits is in the store, a delivered commit of a pending key shows it, a
   * delivered revoke of a present key takes it back together with its bytes, and a lost one changes nothing.
   */
  lemma StepsLeaveBehind(hash: Hash, states: seq<Cluster>, actions: seq<Action>, i: nat)
    requires Interleaving(hash, states, actions) && i < |actions|
    ensures LeavesBehind(hash, states[i], actions[i], states[i + 1])
  {
    InterleavingsAreSafe(hash, states, actions, i);
    InterleavingsKeepAccounts(hash, states, actions, i);
    assert StepAt(hash, states, actions, i);
    StepLeavesBehind(hash, states[i], actions[i]);
  }

  lemma StepLeavesBehind(hash: Hash, c: Cluster, a: Action)
    requires Safe(hash, c) && QuotasExact(c.master) && Ready(c, a)
    ensures LeavesBehind(hash, c, a, Act(hash, c, a))
  {
    match a {
      case WriteBytes(w, _, _) =>
        var g := c.writers[w].grant;
        GrantSizes(c, g);
        WriteThenRead(hash, c.store, FromReplica(g.replica), g.bytes);
      case Commit(w, _, _) => PutEndOutcome(c.master, c.writers[w].grant.k);
      case Revoke(w, _) => RevokeOutcome(c.master, c.writers[w].grant.k);
      case _ =>
    }
  }

  // ---- No reservation is left behind without a loss ----

  /** Nothing is lost and no writer stops. */
  predicate Lossless(a: Action) {
    match a
    case Start(_, _, _, delivered, heard) => delivered && heard
    case WriteBytes(_, delivered, heard) => delivered && heard
    case Commit(_, delivered, heard) => delivered && heard
    case Revoke(_, delivered) => delivered
    case Stop(_) => false
    case _ => true
  }

  /** Every pending entry is the reservation of a writer that is still under way. */
  ghost predicate PendingHeld(c: Cluster) {
    forall k :: Awaiting(c.master.objects, k) ==> exists w :: HeldBy(c, k, w)
  }

  ghost predicate HeldBy(c: Cluster, k: ObjKey, w: nat) {
    w in c.writers && InFlight(c.writers[w]) && Shows(c, k, c.writers[w].grant)
  }

  /** The table of pending keys does not grow, and no writer moves. */
  lemma NothingNewPending(c: Cluster, c': Cluster)
    requires PendingHeld(c) && c'.writers == c.writers && c'.grants == c.grants && KeepsReplicas(c.master, c'.master)
    requires forall k :: Awaiting(c'.master.objects, k) ==> Awaiting(c.master.objects, k)
    ensures PendingHeld(c')
  {
    forall k | Awaiting(c'.master.objects, k) ensures exists w :: HeldBy(c', k, w) {
      var w :| HeldBy(c, k, w);
      assert HeldBy(c', k, w);
    }
  }

  /** A writer moved; if it is done, its key is no longer pending. */
  lemma WriterKeepsPending(c: Cluster, c': Cluster, w: nat)
    requires PendingHeld(c) && w in c.writers && InFlight(c.writers[w])
    requires w in c'.writers && c'.writers == c.writers[w := c'.writers[w]]
    requires c'.grants == c.grants && KeepsReplicas(c.master, c'.master)
    requires InFlight(c'.writers[w]) ==> c'.writers[w].grant == c.writers[w].grant
    requires c'.writers[w].Done? ==> !Awaiting(c'.master.objects, c.writers[w].grant.k)
    requires forall k :: Awaiting(c'.master.objects, k) ==> Awaiting(c.master.objects, k)
    ensures PendingHeld(c')
  {
    forall k | Awaiting(c'.master.objects, k) ensures exists v :: HeldBy(c', k, v) {
      var v :| HeldBy(c, k, v);
      assert HeldBy(c', k, v);
    }
  }

  lemma ReservingKeepsPending(c: Cluster, c': Cluster, w: nat, g: Grant)
    requires PendingHeld(c) && w !in c.writers && Reserves(c, c', w, g, true)
    ensures PendingHeld(c')
  {
    forall k | Awaiting(c'.master.objects, k) ensures exists v :: HeldBy(c', k, v) {
      if k == g.k {
        assert HeldBy(c', k, w);
      } else {
        assert Awaiting(c.master.objects, k);
        var v :| HeldBy(c, k, v);
        assert HeldBy(c', k, v);
      }
    }
  }

  lemma RefusalKeepsPending(c: Cluster, c': Cluster, w: nat)
    requires PendingHeld(c) && w !in c.writers && c'.writers == c.writers[w := Done]
    requires c'.master == c.master && c'.grants == c.grants
    ensures PendingHeld(c')
  {
    forall k | Awaiting(c'.master.objects, k) ensures exists v :: HeldBy(c', k, v) {
      var v :| HeldBy(c, k, v);
      assert HeldBy(c', k, v);
    }
  }

  lemma StartKeepsPending(c: Cluster, w: nat, k: ObjKey, bytes: Bytes)
    requires GrantsStacked(c) && PendingHeld(c) && w !in c.writers && |bytes| <= U64_MAX
    ensures PendingHeld(DoStart(c, w, k, bytes, true, true))
  {
    var c' := DoStart(c, w, k, bytes, true, true);
    if PutStart(c.master, k, |bytes|, REPLICA_COUNT).1.Ok? {
      var g := StartReserves(c, w, k, bytes, true);
      ReservingKeepsPending(c, c', w, g);
    } else {
      PutStartAllOrNothing(c.master, k, |bytes|, REPLICA_COUNT);
      RefusalKeepsPending(c, c', w);
    }
  }

  /** A writer's later steps move no other writer, and grant nothing. */
  lemma WriterFrame(hash: Hash, c: Cluster, a: Action)
    requires Ready(c, a) && (a.WriteBytes? || a.Commit? || a.Revoke?)
    ensures var c' := Act(hash, c, a);
      a.w in c.writers && a.w in c'.writers && c'.writers == c.writers[a.w := c'.writers[a.w]] && c'.grants == c.grants
  {
  }

  lemma LeavingKeepsPending(hash: Hash, c: Cluster, a: Action, c': Cluster)
    requires PendingHeld(c) && LeavesBehind(hash, c, a, c') && Lossless(a) && (a.WriteBytes? || a.Commit? || a.Revoke?)
    requires a.w in c'.writers && c'.writers == c.writers[a.w := c'.writers[a.w]] && c'.grants == c.grants
    requires InFlight(c'.writers[a.w]) ==> c'.writers[a.w].grant == c.writers[a.w].grant
    requires c'.writers[a.w].Done? ==> a.Commit? || a.Revoke?
    ensures PendingHeld(c')
  {
    WriterKeepsPending(c, c', a.w);
  }

  lemma WriterActionKeepsPending(hash: Hash, c: Cluster, a: Action)
    requires Safe(hash, c) && QuotasExact(c.master) && PendingHeld(c) && Ready(c, a) && Lossless(a)
    requires a.WriteBytes? || a.Commit? || a.Revoke?
    ensures PendingHeld(Act(hash, c, a))
  {
    WriterFrame(hash, c, a);
    WriterStep(hash, c, a, a.w);
    StepLeavesBehind(hash, c, a);
    LeavingKeepsPending(hash, c, a, Act(hash, c, a));
  }

  lemma ReaderKeepsPending(hash: Hash, c: Cluster, a: Action)
    requires PendingHeld(c) && Ready(c, a) && (a.LookUp? || a.ReadBytes?)
    ensures PendingHeld(Act(hash, c, a))
  {
    NothingNewPending(c, Act(hash, c, a));
  }

  lemma AdminAddsNothingPending(c: Cluster, a: Action, m: Master)
    requires Ready(c, a)
    requires a.AdminRemove? ==> m == Remove(c.master, a.k).0
    requires a.AdminEvict? ==> m == EvictForTenant(c.master, a.tenant, a.target, a.normal, a.soft).0
    requires a.AdminSetQuota? ==> m == SetTenantQuota(c.master, a.tenant, a.dramBytes, a.ssdBytes).0
    requires a.AdminRemove? || a.AdminEvict? || a.AdminSetQuota?
    ensures forall k :: Awaiting(m.objects, k) ==> Awaiting(c.master.objects, k)
  {
    if a.AdminEvict? {
      EvictFrame(c.master, OpEvict(a.tenant, a.target, a.nowMs, a.normal, a.soft));
    }
  }

  lemma AdminKeepsPending(hash: Hash, c: Cluster, a: Action)
    requires PendingHeld(c) && Ready(c, a) && (a.AdminRemove? || a.AdminEvict? || a.AdminSetQuota?)
    ensures PendingHeld(Act(hash, c, a))
  {
    var m := Act(hash, c, a).master;
    AdminKeepsReplicas(c, a, m);
    AdminAddsNothingPending(c, a, m);
    NothingNewPending(c, c.(master := m));
  }

  ghost predicate LosslessRun(hash: Hash, states: seq<Cluster>, actions: seq<Action>) {
    Interleaving(hash, states, actions) && forall i :: 0 <= i < |actions| ==> Lossless(actions[i])
  }

  /**
   * In every interleaving in which nothing is lost and no writer stops, however evictions and removals fall, every pending
   * entry is the reservation of a writer that is still under way: none is left behind.
   */
  lemma {:induction false} NothingIsLeftPending(hash: Hash, states: seq<Cluster>, actions: seq<Action>, j: nat)
    requires LosslessRun(hash, states, actions) && j < |states|
    ensures PendingHeld(states[j])
    decreases j
  {
    if j > 0 {
      NothingIsLeftPending(hash, states, actions, j - 1);
      InterleavingsAreSafe(hash, states, actions, j - 1);
      InterleavingsKeepAccounts(hash, states, actions, j - 1);
      assert StepAt(hash, states, actions, j - 1);
      var a := actions[j - 1];
      if a.Start? {
        StartKeepsPending(states[j - 1], a.w, a.k, a.bytes);
      } else if a.WriteBytes? || a.Commit? || a.Revoke? {
        WriterActionKeepsPending(hash, states[j - 1], a);
      } else if a.LookUp? || a.ReadBytes? {
        ReaderKeepsPending(hash, states[j - 1], a);
      } else {
        AdminKeepsPending(hash, states[j - 1], a);
      }
    }
  }

  // ---- Every writer can finish ----

  function StepsLeft(writer: Writer): nat {
    match writer
    case Reserved(_) => 3
    case Stored(_) => 2
    case Failing(_) => 1
    case Done => 0
  }

  function NextOf(writer: Writer, w: nat): Action
    requires InFlight(writer)
  {
    match writer
    case Reserved(_) => WriteBytes(w, true, true)
    case Stored(_) => Commit(w, true, true)
    case Failing(_) => Revoke(w, true)
  }

  lemma NextIsReady(hash: Hash, c: Cluster, w: nat)
    requires Safe(hash, c) && w in c.writers && InFlight(c.writers[w])
    ensures Ready(c, NextOf(c.writers[w], w))
  {
    GrantSizes(c, c.writers[w].grant);
  }

  /** Once it is done, its key is settled. */
  lemma DoneSettles(hash: Hash, c: Cluster, a: Action, c': Cluster)
    requires LeavesBehind(hash, c, a, c') && (a.Commit? || a.Revoke?) && Lossless(a)
    ensures a.w in c.writers && InFlight(c.writers[a.w]) && !Awaiting(c'.master.objects, c.writers[a.w].grant.k)
  {
  }

  lemma StepIsSafe(hash: Hash, c: Cluster, a: Action, c': Cluster)
    requires Safe(hash, c) && Accounted(c.master) && Step(hash, c, a, c')
    ensures Safe(hash, c') && Accounted(c'.master)
  {
    ActionIsSafe(hash, c, a);
    StepKeepsAccounts(hash, c, a, c');
  }

  /** A lossless step of its own brings a writer closer to its end, and settles its key once it is done. */
  lemma WriterAdvances(hash: Hash, c: Cluster, a: Action, c': Cluster)
    requires Safe(hash, c) && QuotasExact(c.master) && Step(hash, c, a, c')
    requires Lossless(a) && (a.WriteBytes? || a.Commit? || a.Revoke?)
    ensures a.w in c.writers && InFlight(c.writers[a.w]) && a.w in c'.writers
    ensures StepsLeft(c'.writers[a.w]) < StepsLeft(c.writers[a.w])
    ensures if c'.writers[a.w].Done? then !Awaiting(c'.master.objects, c.writers[a.w].grant.k)
            else c'.writers[a.w].grant == c.writers[a.w].grant
  {
    WriterStep(hash, c, a, a.w);
    StepLeavesBehind(hash, c, a);
    if !a.WriteBytes? {
      DoneSettles(hash, c, a, c');
    }
  }

  lemma NextStep(hash: Hash, c: Cluster, w: nat) returns (a: Action, c': Cluster)
    requires Safe(hash, c) && Accounted(c.master) && w in c.writers && InFlight(c.writers[w])
    ensures Step(hash, c, a, c') && Safe(hash, c') && Accounted(c'.master)
    ensures w in c'.writers && StepsLeft(c'.writers[w]) < StepsLeft(c.writers[w])
    ensures if c'.writers[w].Done? then !Awaiting(c'.master.objects, c.writers[w].grant.k)
            else c'.writers[w].grant == c.writers[w].grant
  {
    a := NextOf(c.writers[w], w);
    NextIsReady(hash, c, w);
    c' := Act(hash, c, a);
    StepIsSafe(hash, c, a, c');
    WriterAdvances(hash, c, a, c');
  }

  lemma OneStep(hash: Hash, c: Cluster, a: Action, c': Cluster)
    requires Step(hash, c, a, c')
    ensures Steps(hash, [c, c'], [a])
  {
    assert StepAt(hash, [c, c'], [a], 0);
  }

  lemma StepsFrom(hash: Hash, c: Cluster, a: Action, states: seq<Cluster>, actions: seq<Action>)
    requires Steps(hash, states, actions) && Step(hash, c, a, states[0])
    ensures Steps(hash, [c] + states, [a] + actions)
  {
    var s, t := [c] + states, [a] + actions;
    forall i | 0 <= i < |t| ensures StepAt(hash, s, t, i) {
      if i > 0 {
        assert StepAt(hash, states, actions, i - 1) && s[i] == states[i - 1] && s[i + 1] == states[i] && t[i] == actions[i - 1];
      }
    }
  }

  /** The steps take the writer from `c` to its end, and settle `k`. */
  ghost predicate Finishes(hash: Hash, c: Cluster, w: nat, k: ObjKey, states: seq<Cluster>, actions: seq<Action>) {
    && Steps(hash, states, actions) && states[0] == c
    && EndsAt(states[|actions|], w, k)
  }

  predicate EndsAt(c: Cluster, w: nat, k: ObjKey) {
    w in c.writers && c.writers[w].Done? && !Awaiting(c.master.objects, k)
  }

  lemma FinishOn(
    hash: Hash, c: Cluster, a: Action, c': Cluster, w: nat, k: ObjKey, states: seq<Cluster>, actions: seq<Action>)
    requires Step(hash, c, a, c') && Finishes(hash, c', w, k, states, actions)
    ensures Finishes(hash, c, w, k, [c] + states, [a] + actions)
  {
    StepsFrom(hash, c, a, states, actions);
    assert ([c] + states)[|[a] + actions|] == states[|actions|];
  }

  lemma FinishNow(hash: Hash, c: Cluster, a: Action, c': Cluster, w: nat, k: ObjKey)
    requires Step(hash, c, a, c') && EndsAt(c', w, k)
    ensures Finishes(hash, c, w, k, [c, c'], [a])
  {
    OneStep(hash, c, a, c');
  }

  lemma {:induction false} FinishFrom(hash: Hash, c: Cluster, w: nat) returns (states: seq<Cluster>, actions: seq<Action>)
    requires Safe(hash, c) && Accounted(c.master) && w in c.writers && InFlight(c.writers[w])
    ensures Finishes(hash, c, w, c.writers[w].grant.k, states, actions) && |actions| <= StepsLeft(c.writers[w])
    decreases StepsLeft(c.writers[w])
  {
    var a, c' := NextStep(hash, c, w);
    if c'.writers[w].Done? {
      FinishNow(hash, c, a, c', w, c.writers[w].grant.k);
      states, actions := [c, c'], [a];
    } else {
      var s, t := FinishFrom(hash, c', w);
      FinishOn(hash, c, a, c', w, c.writers[w].grant.k, s, t);
      states, actions := [c] + s, [a] + t;
    }
  }

  /**
   * From every state an interleaving reaches, each writer under way can be done within three more steps of its own, and
   * its key is then no longer pending: committed, revoked or gone.
   */
  lemma WritersCanFinish(hash: Hash, states: seq<Cluster>, actions: seq<Action>, j: nat, w: nat)
    returns (later: seq<Cluster>, more: seq<Action>)
    requires Interleaving(hash, states, actions) && j < |states| && w in states[j].writers && InFlight(states[j].writers[w])
    ensures Finishes(hash, states[j], w, states[j].writers[w].grant.k, later, more) && |more| <= 3
  {
    InterleavingsAreSafe(hash, states, actions, j);
    InterleavingsKeepAccounts(hash, states, actions, j);
    later, more := FinishFrom(hash, states[j], w);
  }


  /**
   * In every state an interleaving reaches, whoever has not acted yet may start, write-once identities aside: new writers
   * and readers, a reader that holds a handle, any writer giving up, and the administrator at any time.
   */
  lemma AnyoneMayAct(hash: Hash, states: seq<Cluster>, actions: seq<Action>, j: nat, a: Action)
    requires Interleaving(hash, states, actions) && j < |states|
    requires match a
      case Start(w, _, bytes, _, _) => w !in states[j].writers && |bytes| <= U64_MAX
      case Stop(w) => w in states[j].writers
      case LookUp(r, _, _) => r !in states[j].readers
      case ReadBytes(r) => r in states[j].readers && states[j].readers[r].Holding?
      case AdminEvict(tenant, _, nowMs, normal, soft) =>
        Enumerates(states[j].master, tenant, nowMs, Normal, normal) && Enumerates(states[j].master, tenant, nowMs, SoftPinned, soft)
      case AdminRemove(_) => true
      case AdminSetQuota(_, _, _) => true
      case _ => false
    ensures Ready(states[j], a)
  {
    InterleavingsAreSafe(hash, states, actions, j);
  }
}
