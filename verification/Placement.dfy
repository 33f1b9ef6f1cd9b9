/** Where granted regions lie: disjoint for ever, exactly while no node has two usable segments. */
module Placement {
  import opened Types
  import opened Segments
  import opened Objects
  import opened Master
  import opened MasterRuns
  import opened MasterTheorems

  /** Step `i` of a run granted `r` as its `a`-th replica, on segment `s`. */
  ghost predicate Granted(states: seq<Master>, ops: seq<Op>, i: nat, a: nat, s: nat, r: Replica) {
    && i < |ops| && i < |states| && ops[i].OpPutStart?
    && var idx := FirstFit(states[i].segments, ops[i].len, ops[i].count, 0);
       var granted := PutStart(states[i], ops[i].k, ops[i].len, ops[i].count).1;
       a < |idx| && idx[a] == s && granted.Ok? && a < |granted.value| && granted.value[a] == r
  }

  /** A granted region starts at its segment's bump pointer, is not empty, and the pointer moves past it. */
  lemma GrantFacts(states: seq<Master>, ops: seq<Op>, i: nat, a: nat, s: nat, r: Replica)
    requires Behaviour(states, ops) && Granted(states, ops, i, a, s, r) && Bounded(states[i].segments)
    ensures s < |states[i].segments| && |states[i + 1].segments| == |states[i].segments|
    ensures var before, after := states[i].segments[s], states[i + 1].segments[s];
      && r.nodeId == before.nodeId && r.offset == before.nextOffset && r.len > 0
      && after.nextOffset == r.offset + r.len <= before.len
  {
    assert NextAt(states, ops, i);
    PutStartGrants(states[i], ops[i].k, ops[i].len, ops[i].count);
    PutStartSucceedsIff(states[i], ops[i].k, ops[i].len, ops[i].count);
  }

  /** A bump pointer moves only where a reservation is granted. */
  lemma PointerMoves(m: Master, op: Op, m': Master, s: nat)
    requires Next(m, op, m') && Bounded(m.segments) && s < |m'.segments|
    requires m'.segments[s].nextOffset > if s < |m.segments| then m.segments[s].nextOffset else 0
    ensures op.OpPutStart? && PutStart(m, op.k, op.len, op.count).1.Ok?
    ensures s < |m.segments| && s in FirstFit(m.segments, op.len, op.count, 0)
  {
    if op.OpEvict? {
      EvictFrame(m, op);
    } else if op.OpPutStart? {
      if PutStart(m, op.k, op.len, op.count).1.Ok? {
        PutStartGrants(m, op.k, op.len, op.count);
      } else {
        PutStartAllOrNothing(m, op.k, op.len, op.count);
      }
    }
  }

  ghost predicate Unused(segments: seq<Segment>) {
    forall i :: 0 <= i < |segments| ==> segments[i].nextOffset == 0
  }

  /** In every run from unused segments, every byte below a bump pointer was granted on that segment. */
  lemma {:induction false} EveryByteWasGranted(states: seq<Master>, ops: seq<Op>, j: nat, s: nat, x: nat)
    returns (i: nat, a: nat, r: Replica)
    requires Behaviour(states, ops) && Unused(states[0].segments) && j < |states|
    requires s < |states[j].segments| && x < states[j].segments[s].nextOffset
    ensures i < j && Granted(states, ops, i, a, s, r) && r.nodeId == states[j].segments[s].nodeId
    ensures r.offset <= x < r.offset + r.len
    decreases j
  {
    assert j > 0;
    var m, op, m' := states[j - 1], ops[j - 1], states[j];
    assert NextAt(states, ops, j - 1);
    RunGrowsSegments(states, ops, j - 1, j - 1);
    StepGrowsSegments(m, op, m');
    if s < |m.segments| && x < m.segments[s].nextOffset {
      i, a, r := EveryByteWasGranted(states, ops, j - 1, s, x);
    } else {
      PointerMoves(m, op, m', s);
      PutStartGrants(m, op.k, op.len, op.count);
      i := j - 1;
      a :| 0 <= a < |FirstFit(m.segments, op.len, op.count, 0)| && FirstFit(m.segments, op.len, op.count, 0)[a] == s;
      r := PutStart(m, op.k, op.len, op.count).1.value[a];
    }
  }

  // ---- Disjointness ----

  predicate Apart(r: Replica, q: Replica) {
    r.nodeId != q.nodeId || r.offset + r.len <= q.offset || q.offset + q.len <= r.offset
  }

  /** All regions ever granted, by one reservation or by different ones, are pairwise disjoint. */
  ghost predicate RegionsDisjoint(states: seq<Master>, ops: seq<Op>) {
    forall i, a, s, r, j, b, t, q ::
      Granted(states, ops, i, a, s, r) && Granted(states, ops, j, b, t, q) && (i != j || a != b) ==> Apart(r, q)
  }

  /** No node has two segments that can hold anything. */
  ghost predicate SoloNodes(segments: seq<Segment>) {
    forall i, j :: 0 <= i < j < |segments| && segments[i].nodeId == segments[j].nodeId ==>
      segments[i].len == 0 || segments[j].len == 0
  }

  lemma SoloPair(states: seq<Master>, ops: seq<Op>, i: nat, a: nat, s: nat, r: Replica, j: nat, b: nat, t: nat, q: Replica)
    requires Behaviour(states, ops) && Bounded(states[0].segments) && SoloNodes(states[|ops|].segments) && i <= j
    requires Granted(states, ops, i, a, s, r) && Granted(states, ops, j, b, t, q) && (i != j || a != b)
    ensures Apart(r, q)
  {
    GrantStays(states, ops, i, a, s, r, |ops|);
    GrantStays(states, ops, j, b, t, q, |ops|);
    if s != t {
      SoloApart(states[|ops|].segments, s, t);
    } else if i < j {
      GrantStays(states, ops, i, a, s, r, j);
      RunGrowsSegments(states, ops, j, j);
      GrantFacts(states, ops, j, b, t, q);
    }
  }

  /** From the next step on a granted region lies below its segment's bump pointer, inside the segment. */
  lemma GrantStays(states: seq<Master>, ops: seq<Op>, i: nat, a: nat, s: nat, r: Replica, p: nat)
    requires Behaviour(states, ops) && Bounded(states[0].segments) && Granted(states, ops, i, a, s, r) && i < p < |states|
    ensures var segments := states[p].segments;
      && s < |segments| && segments[s].nodeId == r.nodeId && r.len > 0
      && r.offset + r.len <= segments[s].nextOffset <= segments[s].len
  {
    RunGrowsSegments(states, ops, i, i);
    GrantFacts(states, ops, i, a, s, r);
    RunGrowsSegments(states, ops, i, i + 1);
    RunGrowsSegments(states, ops, i + 1, p);
  }

  lemma SoloApart(segments: seq<Segment>, s: nat, t: nat)
    requires SoloNodes(segments) && s < |segments| && t < |segments| && s != t
    requires segments[s].len > 0 && segments[t].len > 0
    ensures segments[s].nodeId != segments[t].nodeId
  {
  }

  /** In every run that gives no node two usable segments, all regions it grants are disjoint. */
  lemma GrantedRegionsAreDisjoint(states: seq<Master>, ops: seq<Op>)
    requires Behaviour(states, ops) && Bounded(states[0].segments) && SoloNodes(states[|ops|].segments)
    ensures RegionsDisjoint(states, ops)
  {
    forall i, a, s, r, j, b, t, q |
      Granted(states, ops, i, a, s, r) && Granted(states, ops, j, b, t, q) && (i != j || a != b)
      ensures Apart(r, q)
    {
      if i <= j {
        SoloPair(states, ops, i, a, s, r, j, b, t, q);
      } else {
        SoloPair(states, ops, j, b, t, q, i, a, s, r);
      }
    }
  }

  /** ... and they lie below their segment's bump pointer, inside the segment, at the end of the run. */
  lemma GrantedRegionsFit(states: seq<Master>, ops: seq<Op>, i: nat, a: nat, s: nat, r: Replica)
    requires Behaviour(states, ops) && Bounded(states[0].segments) && Granted(states, ops, i, a, s, r)
    ensures var segments := states[|ops|].segments;
      && s < |segments| && segments[s].nodeId == r.nodeId && r.len > 0
      && r.offset + r.len <= segments[s].nextOffset <= segments[s].len
  {
    GrantStays(states, ops, i, a, s, r, |ops|);
  }

  /** The replicas of one reservation are on different nodes. */
  lemma ReplicasOnDistinctNodes(m: Master, k: ObjKey, len: u64, count: u64, i: nat, j: nat)
    requires Bounded(m.segments) && SoloNodes(m.segments)
    requires PutStart(m, k, len, count).1.Ok? && i < j < |PutStart(m, k, len, count).1.value|
    ensures var replicas := PutStart(m, k, len, count).1.value; replicas[i].nodeId != replicas[j].nodeId
  {
    PutStartGrants(m, k, len, count);
    PutStartSucceedsIff(m, k, len, count);
    var idx := FirstFit(m.segments, len, count, 0);
    SoloApart(m.segments, idx[i], idx[j]);
  }

  // ---- The other direction ----

  lemma {:induction false} FirstFitTakesAll(segments: seq<Segment>, len: u64, from: nat, i: nat)
    requires from <= i < |segments| && segments[i].CanFit(len)
    ensures i in FirstFit(segments, len, FittingCount(segments, len, from), from)
    decreases |segments| - from
  {
    if from < i {
      FirstFitTakesAll(segments, len, from + 1, i);
    } else {
      assert FirstFit(segments, len, FittingCount(segments, len, from), from)[0] == i;
    }
  }

  lemma {:induction false} FittingCountBounds(segments: seq<Segment>, len: u64, from: nat)
    requires from <= |segments|
    ensures FittingCount(segments, len, from) <= |segments| - from
    decreases |segments| - from
  {
    if from < |segments| {
      FittingCountBounds(segments, len, from + 1);
    }
  }

  lemma {:induction false} FreshString(used: set<string>) returns (s: string)
    ensures s != [] && !IsWhitespace(s[0]) && forall u :: u in used ==> |u| < |s|
    decreases |used|
  {
    if used == {} {
      s := "x";
    } else {
      var u :| u in used;
      var t := FreshString(used - {u});
      s := t + u;
      forall v | v in used ensures |v| < |s| {
        if v != u { assert v in used - {u}; }
      }
    }
  }

  /** Some reservation of one byte on every segment with room succeeds, for a tenant not seen before. */
  lemma TakeOneEverywhere(m: Master, s: nat) returns (op: Op)
    requires Bounded(m.segments) && |m.segments| <= U64_MAX
    requires s < |m.segments| && m.segments[s].CanFit(1)
    ensures op.OpPutStart? && Nameable(op.k) && Next(m, op, Apply(m, op)) && OneMoreEach(m.segments, Apply(m, op).segments)
  {
    var k := FreshKey(m);
    var count := FittingCount(m.segments, 1, 0);
    FittingCountBounds(m.segments, 1, 0);
    FirstFitTakesAll(m.segments, 1, 0, s);
    assert count > 0;
    op := OpPutStart(k, 1, count);
    PutStartSucceedsIff(m, k, 1, count);
    OneByteAdvances(m, k, count);
  }

  lemma FreshKey(m: Master) returns (k: ObjKey)
    ensures k !in m.objects && k.tenant !in m.quotas && Nameable(k)
  {
    var tenants := set k | k in m.objects :: k.tenant;
    var tenant := FreshString(m.quotas.Keys + tenants);
    k := ObjKey(tenant, seq(64, i => '0'));
    assert k in m.objects ==> tenant in tenants;
  }

  /** Every segment that had room for a byte has given one. */
  ghost predicate OneMoreEach(a: seq<Segment>, b: seq<Segment>) {
    && |a| == |b|
    && forall i :: 0 <= i < |a| ==>
      b[i] == if a[i].CanFit(1) then a[i].(nextOffset := a[i].nextOffset + 1) else a[i]
  }

  lemma OneByteAdvances(m: Master, k: ObjKey, count: u64)
    requires Bounded(m.segments) && count == FittingCount(m.segments, 1, 0) && PutStart(m, k, 1, count).1.Ok?
    ensures OneMoreEach(m.segments, PutStart(m, k, 1, count).0.segments)
  {
    PutStartGrants(m, k, 1, count);
    forall i | 0 <= i < |m.segments| && m.segments[i].CanFit(1) ensures i in FirstFit(m.segments, 1, count, 0) {
      FirstFitTakesAll(m.segments, 1, 0, i);
    }
  }

  /** Two usable segments of one node that have both been granted from have granted the node's first byte twice. */
  lemma FirstByteTwice(states: seq<Master>, ops: seq<Op>, s: nat, t: nat)
    requires Behaviour(states, ops) && states[0] == EMPTY
    requires var segments := states[|ops|].segments;
      s < t < |segments| && segments[s].nodeId == segments[t].nodeId
      && segments[s].nextOffset > 0 && segments[t].nextOffset > 0
    ensures !RegionsDisjoint(states, ops)
  {
    var i, a, r := EveryByteWasGranted(states, ops, |ops|, s, 0);
    var j, b, q := EveryByteWasGranted(states, ops, |ops|, t, 0);
    assert i != j || a != b;
    assert !Apart(r, q);
  }

  /** `states'` goes on from `states` without mounting anything more; what it reserves has a name a request can carry. */
  ghost predicate Continues(states: seq<Master>, ops: seq<Op>, states': seq<Master>, ops': seq<Op>) {
    && Behaviour(states', ops') && states <= states' && ops <= ops'
    && forall p :: |ops| <= p < |ops'| ==> !ops'[p].OpMount? && (ops'[p].OpPutStart? ==> Nameable(ops'[p].k))
  }

  /** A node with two usable segments, mounted twice that is, ends up with overlapping regions after at most one more step. */
  lemma DoubleMountOverlaps(states: seq<Master>, ops: seq<Op>) returns (states': seq<Master>, ops': seq<Op>)
    requires Behaviour(states, ops) && states[0] == EMPTY && |states[|ops|].segments| <= U64_MAX
    requires !SoloNodes(states[|ops|].segments)
    ensures Continues(states, ops, states', ops') && |ops'| <= |ops| + 1 && !RegionsDisjoint(states', ops')
  {
    var m := states[|ops|];
    RunGrowsSegments(states, ops, |ops|, |ops|);
    var s, t :| 0 <= s < t < |m.segments| && m.segments[s].nodeId == m.segments[t].nodeId
      && m.segments[s].len != 0 && m.segments[t].len != 0;
    if m.segments[s].nextOffset > 0 && m.segments[t].nextOffset > 0 {
      states', ops' := states, ops;
    } else {
      var op := TakeOneEverywhere(m, if m.segments[s].nextOffset == 0 then s else t);
      states', ops' := states + [Apply(m, op)], ops + [op];
      ContinuesOne(states, ops, op);
    }
    FirstByteTwice(states', ops', s, t);
  }

  lemma ContinuesOne(states: seq<Master>, ops: seq<Op>, op: Op)
    requires Behaviour(states, ops) && Next(states[|ops|], op, Apply(states[|ops|], op))
    requires op.OpPutStart? && Nameable(op.k)
    ensures Continues(states, ops, states + [Apply(states[|ops|], op)], ops + [op])
  {
    var s, t := states + [Apply(states[|ops|], op)], ops + [op];
    forall i | 0 <= i < |t| ensures NextAt(s, t, i) {
      if i < |ops| {
        assert NextAt(states, ops, i);
      }
    }
  }

  lemma StepMountsNothing(m: Master, op: Op, m': Master)
    requires Next(m, op, m') && Bounded(m.segments) && !op.OpMount?
    ensures |m'.segments| == |m.segments|
  {
    if op.OpEvict? {
      EvictFrame(m, op);
    }
  }

  lemma {:induction false} CountChains(states: seq<Master>, i: nat, j: nat)
    requires i <= j < |states|
    requires forall p :: i <= p < j ==> |states[p + 1].segments| == |states[p].segments|
    ensures |states[j].segments| == |states[i].segments|
    decreases j
  {
    if i < j {
      CountChains(states, i, j - 1);
      assert |states[j - 1 + 1].segments| == |states[j - 1].segments|;
    }
  }

  lemma NothingMounted(states: seq<Master>, ops: seq<Op>, i: nat, j: nat)
    requires Behaviour(states, ops) && Bounded(states[0].segments) && i <= j < |states|
    requires forall p :: i <= p < j ==> !ops[p].OpMount?
    ensures |states[j].segments| == |states[i].segments|
  {
    forall p | i <= p < j ensures |states[p + 1].segments| == |states[p].segments| {
      RunGrowsSegments(states, ops, p, p);
      assert NextAt(states, ops, p);
      StepMountsNothing(states[p], ops[p], states[p + 1]);
    }
    CountChains(states, i, j);
  }

  lemma SoloStaysSolo(states: seq<Master>, ops: seq<Op>, states': seq<Master>, ops': seq<Op>)
    requires Behaviour(states, ops) && states[0] == EMPTY && Continues(states, ops, states', ops')
    requires SoloNodes(states[|ops|].segments)
    ensures SoloNodes(states'[|ops'|].segments)
  {
    assert states'[0] == states[0] && states'[|ops|] == states[|ops|];
    NothingMounted(states', ops', |ops|, |ops'|);
    RunGrowsSegments(states', ops', |ops|, |ops'|);
  }

  /**
   * After any run from an empty master, every continuation that mounts nothing more keeps all regions ever granted
   * disjoint if and only if no node has two usable segments. (A list's length fits in 64 bits.)
   */
  lemma DisjointForeverIffSolo(states: seq<Master>, ops: seq<Op>)
    requires Behaviour(states, ops) && states[0] == EMPTY && |states[|ops|].segments| <= U64_MAX
    ensures (forall states', ops' :: Continues(states, ops, states', ops') ==> RegionsDisjoint(states', ops'))
       <==> SoloNodes(states[|ops|].segments)
  {
    if SoloNodes(states[|ops|].segments) {
      forall states', ops' | Continues(states, ops, states', ops') ensures RegionsDisjoint(states', ops') {
        SoloStaysSolo(states, ops, states', ops');
        assert states'[0] == states[0];
        GrantedRegionsAreDisjoint(states', ops');
      }
    } else {
      var states', ops' := DoubleMountOverlaps(states, ops);
    }
  }
}
