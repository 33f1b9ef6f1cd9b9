/** Bump allocation over mounted segments (first fit, one replica per segment). */
module Segments {
  import opened Types

  datatype Replica = Replica(nodeId: string, offset: u64, len: u64)

  datatype Segment = Segment(nodeId: string, len: u64, nextOffset: u64) {
    predicate CanFit(objectLen: u64) {
      match CheckedAdd(nextOffset, objectLen)
      case Some(end) => end <= len
      case None => false
    }
  }

  datatype AllocError = EmptyObject | NoReplicas | NoSegmentFits

  /** The positions of the first `count` segments, from `from` on, that can still take `len` bytes. */
  function FirstFit(segments: seq<Segment>, len: u64, count: nat, from: nat): (idx: seq<nat>)
    requires from <= |segments|
    ensures |idx| <= count
    ensures forall j :: 0 <= j < |idx| ==> from <= idx[j] < |segments| && segments[idx[j]].CanFit(len)
    ensures forall i, j :: 0 <= i < j < |idx| ==> idx[i] < idx[j]
    decreases |segments| - from
  {
    if from == |segments| || count == 0 then
      []
    else if segments[from].CanFit(len) then
      [from] + FirstFit(segments, len, count - 1, from + 1)
    else
      FirstFit(segments, len, count, from + 1)
  }

  function Advanced(segments: seq<Segment>, idx: seq<nat>, len: u64): (r: seq<Segment>)
    ensures |r| == |segments|
  {
    seq(|segments|, i requires 0 <= i < |segments| =>
      if i in idx then segments[i].(nextOffset := SaturatingAdd(segments[i].nextOffset, len))
      else segments[i])
  }

  function ReplicasAt(segments: seq<Segment>, idx: seq<nat>, len: u64): (r: seq<Replica>)
    requires forall j :: 0 <= j < |idx| ==> idx[j] < |segments|
    ensures |r| == |idx|
  {
    seq(|idx|, j requires 0 <= j < |idx| =>
      Replica(segments[idx[j]].nodeId, segments[idx[j]].nextOffset, len))
  }

  function Allocate(segments: seq<Segment>, len: u64, count: nat)
    : (r: Result<(seq<Segment>, seq<Replica>), AllocError>)
  {
    if len == 0 then Err(EmptyObject)
    else if count == 0 then Err(NoReplicas)
    else
      var idx := FirstFit(segments, len, count, 0);
      if |idx| != count then Err(NoSegmentFits)
      else Ok((Advanced(segments, idx, len), ReplicasAt(segments, idx, len)))
  }

  /** How many of the segments from `from` on can take `len` bytes. */
  function FittingCount(segments: seq<Segment>, len: u64, from: nat): nat
    requires from <= |segments|
    decreases |segments| - from
  {
    if from == |segments| then 0
    else (if segments[from].CanFit(len) then 1 else 0) + FittingCount(segments, len, from + 1)
  }

  lemma {:induction false} FirstFitLength(segments: seq<Segment>, len: u64, count: nat, from: nat)
    requires from <= |segments|
    ensures |FirstFit(segments, len, count, from)|
         == if FittingCount(segments, len, from) < count then FittingCount(segments, len, from) else count
    decreases |segments| - from
  {
    if from < |segments| && count > 0 {
      FirstFitLength(segments, len, if segments[from].CanFit(len) then count - 1 else count, from + 1);
    }
  }

  /** No fitting segment before the last chosen one is skipped. */
  lemma {:induction false} FirstFitSkipsNone(segments: seq<Segment>, len: u64, count: nat, from: nat, i: nat)
    requires from <= i < |segments| && segments[i].CanFit(len)
    ensures var idx := FirstFit(segments, len, count, from);
      i in idx || (|idx| == count && forall j :: 0 <= j < count ==> idx[j] < i)
    decreases |segments| - from
  {
    if count > 0 && from < i {
      FirstFitSkipsNone(segments, len, if segments[from].CanFit(len) then count - 1 else count, from + 1, i);
    }
  }

  ghost predicate Bounded(segments: seq<Segment>) {
    forall i :: 0 <= i < |segments| ==> segments[i].nextOffset <= segments[i].len
  }

  ghost function CapacityTotal(segments: seq<Segment>): nat {
    if segments == [] then 0 else CapacityTotal(segments[..|segments| - 1]) + segments[|segments| - 1].len
  }

  ghost function AllocatedTotal(segments: seq<Segment>): nat {
    if segments == [] then 0 else AllocatedTotal(segments[..|segments| - 1]) + segments[|segments| - 1].nextOffset
  }

  lemma {:induction false} AllocatedWithinCapacity(segments: seq<Segment>)
    requires Bounded(segments)
    ensures AllocatedTotal(segments) <= CapacityTotal(segments)
  {
    if segments != [] {
      AllocatedWithinCapacity(segments[..|segments| - 1]);
    }
  }

  lemma {:induction false} TotalsMonotone(a: seq<Segment>, b: seq<Segment>)
    requires |a| == |b|
    requires forall i :: 0 <= i < |a| ==> a[i].len == b[i].len && a[i].nextOffset <= b[i].nextOffset
    ensures CapacityTotal(a) == CapacityTotal(b)
    ensures forall i :: 0 <= i < |a| ==>
      AllocatedTotal(a) + (b[i].nextOffset - a[i].nextOffset) <= AllocatedTotal(b)
    ensures AllocatedTotal(a) <= AllocatedTotal(b)
  {
    if a != [] {
      TotalsMonotone(a[..|a| - 1], b[..|b| - 1]);
    }
  }

  /** Exactly when an allocation is granted, and which error is reported otherwise. */
  lemma AllocateOutcome(segments: seq<Segment>, len: u64, count: nat)
    ensures Allocate(segments, len, count).Ok? <==> len > 0 && count > 0 && FittingCount(segments, len, 0) >= count
    ensures Allocate(segments, len, count) == Err(EmptyObject) <==> len == 0
    ensures Allocate(segments, len, count) == Err(NoReplicas) <==> len > 0 && count == 0
  {
    FirstFitLength(segments, len, count, 0);
  }

  /** A granted allocation starts each replica at its segment's bump pointer and moves that pointer past it. */
  lemma AllocateEffect(segments: seq<Segment>, len: u64, count: nat)
    requires Bounded(segments) && Allocate(segments, len, count).Ok?
    ensures var idx := FirstFit(segments, len, count, 0);
      var (after, replicas) := Allocate(segments, len, count).value;
      && len > 0 && count > 0 && |replicas| == |idx| == count
      && |after| == |segments|
      && (forall i :: 0 <= i < |segments| ==>
            after[i] == if i in idx then segments[i].(nextOffset := segments[i].nextOffset + len) else segments[i])
      && (forall j :: 0 <= j < count ==>
            replicas[j] == Replica(segments[idx[j]].nodeId, segments[idx[j]].nextOffset, len))
  {
  }

  lemma AllocateTotals(segments: seq<Segment>, len: u64, count: nat)
    requires Bounded(segments) && Allocate(segments, len, count).Ok?
    ensures var after := Allocate(segments, len, count).value.0;
      && Bounded(after)
      && CapacityTotal(after) == CapacityTotal(segments)
      && AllocatedTotal(segments) + len <= AllocatedTotal(after)
  {
    AllocateEffect(segments, len, count);
    var idx := FirstFit(segments, len, count, 0);
    TotalsMonotone(segments, Allocate(segments, len, count).value.0);
    assert idx[0] in idx;
  }

  /** The allocator as the master holds it: a list of segments updated in place. */
  class SegmentAllocator {
    var segments: seq<Segment>

    constructor ()
      ensures segments == []
    {
      segments := [];
    }

    method MountSegment(nodeId: string, len: u64)
      modifies this
      ensures segments == old(segments) + [Segment(nodeId, len, 0)]
    {
      segments := segments + [Segment(nodeId, len, 0)];
    }

    method AllocateReplicas(len: u64, count: u64) returns (r: Result<seq<Replica>, AllocError>)
      modifies this
      ensures match Allocate(old(segments), len, count)
        case Ok((after, replicas)) => segments == after && r == Ok(replicas)
        case Err(e) => segments == old(segments) && r == Err(e)
    {
      if len == 0 {
        return Err(EmptyObject);
      }
      if count == 0 {
        return Err(NoReplicas);
      }
      var idx := FirstFit(segments, len, count, 0);
      if |idx| != count {
        return Err(NoSegmentFits);
      }
      var allocations: seq<Replica> := [];
      for j := 0 to |idx|
        invariant segments == Advanced(old(segments), idx[..j], len)
        invariant allocations == ReplicasAt(old(segments), idx[..j], len)
      {
        var segment := segments[idx[j]];
        assert idx[..j + 1] == idx[..j] + [idx[j]];
        segments := segments[idx[j] := segment.(nextOffset := SaturatingAdd(segment.nextOffset, len))];
        allocations := allocations + [Replica(segment.nodeId, segment.nextOffset, len)];
      }
      assert idx[..|idx|] == idx;
      return Ok(allocations);
    }
  }
}
