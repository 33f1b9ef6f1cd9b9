/** The DRAM arena of a store node: chunks of bytes guarded by a digest. */
module Store {
  import opened Types
  import opened Segments

  /** SHA-256 is any function from bytes to digests; nothing below assumes that it has no collisions. */
  type Digest = Bytes
  type Hash = Bytes -> Digest

  datatype ChunkHandle = ChunkHandle(offset: u64, len: u64)

  function FromReplica(replica: Replica): ChunkHandle {
    ChunkHandle(replica.offset, replica.len)
  }

  datatype ChunkMeta = ChunkMeta(len: u64, checksum: Option<Digest>)

  datatype StoreError =
    | EmptyChunk
    | InsufficientCapacity(requested: u64, available: u64)
    | InvalidHandle(offset: u64, len: u64)
    | LengthMismatch(expected: u64, actual: u64)
    | UnwrittenChunk
    | ChecksumMismatch(offset: u64)

  datatype Store = Store(arena: Bytes, nextOffset: u64, allocations: map<u64, ChunkMeta>) {
    ghost predicate Sized() {
      |arena| <= U64_MAX
    }
  }

  ghost predicate IsEmptyStore(s: Store) {
    s.Sized() && s.nextOffset == 0 && s.allocations == map[] && forall i :: 0 <= i < |s.arena| ==> s.arena[i] == 0
  }

  function ChunkEnd(h: ChunkHandle): Result<u64, StoreError> {
    match CheckedAdd(h.offset, h.len)
    case Some(end) => Ok(end)
    case None => Err(InvalidHandle(h.offset, h.len))
  }

  function Available(s: Store, from: u64): u64
    requires s.Sized()
  {
    SaturatingSub(|s.arena|, from)
  }

  function ValidateAllocated(s: Store, h: ChunkHandle): (r: Result<ChunkMeta, StoreError>)
    requires s.Sized()
    ensures r.Ok? ==>
      && h.offset in s.allocations && r.value == s.allocations[h.offset]
      && r.value.len == h.len && h.offset + h.len <= |s.arena|
    ensures r.Err? ==> r.error == InvalidHandle(h.offset, h.len)
  {
    if h.offset !in s.allocations || s.allocations[h.offset].len != h.len then Err(InvalidHandle(h.offset, h.len))
    else
      match ChunkEnd(h)
      case Err(e) => Err(e)
      case Ok(end) => if end > |s.arena| then Err(InvalidHandle(h.offset, h.len)) else Ok(s.allocations[h.offset])
  }

  function ValidatePreallocated(s: Store, h: ChunkHandle, writeLen: u64): (r: Result<u64, StoreError>)
    requires s.Sized()
    ensures r.Ok? <==> h.len > 0 && writeLen == h.len && h.offset + h.len <= |s.arena|
    ensures r.Ok? ==> r.value == h.offset + h.len
  {
    if h.len == 0 then Err(EmptyChunk)
    else if writeLen != h.len then Err(LengthMismatch(h.len, writeLen))
    else
      match ChunkEnd(h)
      case Err(e) => Err(e)
      case Ok(end) =>
        if end > |s.arena| then Err(InsufficientCapacity(h.len, Available(s, h.offset))) else Ok(end)
  }

  function Overwritten(arena: Bytes, offset: nat, bytes: Bytes): (r: Bytes)
    requires offset + |bytes| <= |arena|
    ensures |r| == |arena|
    ensures r[offset..offset + |bytes|] == bytes
    ensures forall i :: 0 <= i < |arena| && !(offset <= i < offset + |bytes|) ==> r[i] == arena[i]
  {
    arena[..offset] + bytes + arena[offset + |bytes|..]
  }

  // ---- Operations ----

  function AllocateChunk(s: Store, len: u64): (Store, Result<ChunkHandle, StoreError>)
    requires s.Sized()
  {
    if len == 0 then (s, Err(EmptyChunk))
    else
      match CheckedAdd(s.nextOffset, len)
      case None => (s, Err(InsufficientCapacity(len, Available(s, s.nextOffset))))
      case Some(end) =>
        if end > |s.arena| then (s, Err(InsufficientCapacity(len, Available(s, s.nextOffset))))
        else
          (s.(allocations := s.allocations[s.nextOffset := ChunkMeta(len, None)], nextOffset := end),
           Ok(ChunkHandle(s.nextOffset, len)))
  }

  function WriteChunk(hash: Hash, s: Store, h: ChunkHandle, bytes: Bytes): (Store, Result<(), StoreError>)
    requires s.Sized() && |bytes| <= U64_MAX
  {
    match ValidateAllocated(s, h)
    case Err(e) => (s, Err(e))
    case Ok(meta) =>
      if |bytes| != h.len then (s, Err(LengthMismatch(h.len, |bytes|)))
      else
        (s.(arena := Overwritten(s.arena, h.offset, bytes),
            allocations := s.allocations[h.offset := meta.(checksum := Some(hash(bytes)))]), Ok(()))
  }

  function WritePreallocated(hash: Hash, s: Store, h: ChunkHandle, bytes: Bytes): (Store, Result<(), StoreError>)
    requires s.Sized() && |bytes| <= U64_MAX
  {
    match ValidatePreallocated(s, h, |bytes|)
    case Err(e) => (s, Err(e))
    case Ok(end) =>
      var s1 := s.(allocations := s.allocations[h.offset := ChunkMeta(h.len, None)],
                   nextOffset := if end > s.nextOffset then end else s.nextOffset);
      WriteChunk(hash, s1, h, bytes)
  }

  function ReadChunk(hash: Hash, s: Store, h: ChunkHandle): Result<Bytes, StoreError>
    requires s.Sized()
  {
    match ValidateAllocated(s, h)
    case Err(e) => Err(e)
    case Ok(meta) =>
      if meta.checksum.None? then Err(UnwrittenChunk)
      else
        var bytes := s.arena[h.offset..h.offset + h.len];
        if hash(bytes) != meta.checksum.value then Err(ChecksumMismatch(h.offset)) else Ok(bytes)
  }

  // ---- Runs and what they remember ----

  datatype StoreOp =
    | OpAllocate(len: u64)
    | OpWrite(h: ChunkHandle, bytes: Bytes)
    | OpWritePreallocated(h: ChunkHandle, bytes: Bytes)

  predicate Writable(op: StoreOp) {
    !op.OpAllocate? ==> |op.bytes| <= U64_MAX
  }

  function ApplyStore(hash: Hash, s: Store, op: StoreOp): (Store, bool)
    requires s.Sized() && Writable(op)
  {
    match op
    case OpAllocate(len) => var (s', r) := AllocateChunk(s, len); (s', r.Ok?)
    case OpWrite(h, bytes) => var (s', r) := WriteChunk(hash, s, h, bytes); (s', r.Ok?)
    case OpWritePreallocated(h, bytes) => var (s', r) := WritePreallocated(hash, s, h, bytes); (s', r.Ok?)
  }

  /** A successful write, as history remembers it. */
  datatype PastWrite = PastWrite(offset: u64, bytes: Bytes)

  function Remember(history: seq<PastWrite>, op: StoreOp, ok: bool): seq<PastWrite> {
    if ok && !op.OpAllocate? then history + [PastWrite(op.h.offset, op.bytes)] else history
  }

  /** The most recent successful write that began at `offset`. */
  function LastAt(history: seq<PastWrite>, offset: u64): Option<Bytes> {
    if history == [] then None
    else if history[|history| - 1].offset == offset then Some(history[|history| - 1].bytes)
    else LastAt(history[..|history| - 1], offset)
  }

  /** Every state of a run from an empty arena, with its history of successful writes. */
  ghost predicate StoreRun(hash: Hash, states: seq<Store>, histories: seq<seq<PastWrite>>, ops: seq<StoreOp>) {
    && |states| == |histories| == |ops| + 1
    && IsEmptyStore(states[0]) && histories[0] == []
    && forall i :: 0 <= i < |ops| ==> StoreStepAt(hash, states, histories, ops, i)
  }

  ghost predicate StoreStepAt(
    hash: Hash, states: seq<Store>, histories: seq<seq<PastWrite>>, ops: seq<StoreOp>, i: nat)
  {
    && i < |ops| && i + 1 < |states| && i + 1 < |histories|
    && states[i].Sized() && Writable(ops[i])
    && states[i + 1] == ApplyStore(hash, states[i], ops[i]).0
    && histories[i + 1] == Remember(histories[i], ops[i], ApplyStore(hash, states[i], ops[i]).1)
  }

  /** Bookkeeping: chunks are non-empty and end at or below the bump pointer, which stays inside the arena. */
  ghost predicate Tidy(s: Store) {
    && s.Sized() && s.nextOffset <= |s.arena|
    && forall o :: o in s.allocations ==> s.allocations[o].len > 0 && o + s.allocations[o].len <= s.nextOffset
  }

  /** Every recorded digest is that of the last write at its offset, which filled exactly that chunk. */
  ghost predicate Faithful(hash: Hash, s: Store, history: seq<PastWrite>) {
    forall o :: o in s.allocations && s.allocations[o].checksum.Some? ==>
      match LastAt(history, o)
      case None => false
      case Some(bytes) => |bytes| == s.allocations[o].len && s.allocations[o].checksum == Some(hash(bytes))
  }

  lemma LastAtSnoc(history: seq<PastWrite>, w: PastWrite, o: u64)
    ensures LastAt(history + [w], o) == if o == w.offset then Some(w.bytes) else LastAt(history, o)
  {
    assert (history + [w])[..|history|] == history;
  }

  lemma StoreStep(hash: Hash, s: Store, history: seq<PastWrite>, op: StoreOp)
    requires Tidy(s) && Faithful(hash, s, history) && Writable(op)
    ensures var (s', ok) := ApplyStore(hash, s, op);
      && Tidy(s') && Faithful(hash, s', Remember(history, op, ok))
      && s.nextOffset <= s'.nextOffset && |s'.arena| == |s.arena|
      && (!ok ==> s' == s)
  {
    if !op.OpAllocate? {
      forall o: u64 {
        LastAtSnoc(history, PastWrite(op.h.offset, op.bytes), o);
      }
    }
  }

  lemma {:induction false} StoreRunsStayTidy(
    hash: Hash, states: seq<Store>, histories: seq<seq<PastWrite>>, ops: seq<StoreOp>, j: nat)
    requires StoreRun(hash, states, histories, ops) && j < |states|
    ensures Tidy(states[j]) && Faithful(hash, states[j], histories[j])
    decreases j
  {
    if j > 0 {
      StoreRunsStayTidy(hash, states, histories, ops, j - 1);
      assert StoreStepAt(hash, states, histories, ops, j - 1);
      StoreStep(hash, states[j - 1], histories[j - 1], ops[j - 1]);
    }
  }

  /**
   * In every run of allocations and possibly overlapping writes, a successful read returns exactly the bytes last
   * written at that offset with that length, or else two different byte strings with the same digest.
   */
  lemma ReadsAreLastWrites(
    hash: Hash, states: seq<Store>, histories: seq<seq<PastWrite>>, ops: seq<StoreOp>, j: nat, h: ChunkHandle)
    requires StoreRun(hash, states, histories, ops) && j < |states| && states[j].Sized()
    requires ReadChunk(hash, states[j], h).Ok?
    ensures var bytes := ReadChunk(hash, states[j], h).value;
      match LastAt(histories[j], h.offset)
      case None => false
      case Some(last) => |last| == h.len == |bytes| && (bytes == last || (bytes != last && hash(bytes) == hash(last)))
  {
    StoreRunsStayTidy(hash, states, histories, ops, j);
  }

  predicate DisjointRegions(o1: nat, l1: nat, o2: nat, l2: nat) {
    o1 + l1 <= o2 || o2 + l2 <= o1
  }

  /** What one write leaves behind: it reads back, and disjoint chunks are untouched. */
  lemma WriteThenRead(hash: Hash, s: Store, h: ChunkHandle, bytes: Bytes)
    requires s.Sized() && |bytes| <= U64_MAX
    ensures var (s', r) := WritePreallocated(hash, s, h, bytes);
      && (r.Ok? <==> h.len > 0 && |bytes| == h.len && h.offset + h.len <= |s.arena|)
      && (r.Err? ==> s' == s)
      && (r.Ok? ==>
            && s' == Store(Overwritten(s.arena, h.offset, bytes),
                           if h.offset + h.len > s.nextOffset then h.offset + h.len else s.nextOffset,
                           s.allocations[h.offset := ChunkMeta(h.len, Some(hash(bytes)))])
            && ReadChunk(hash, s', h) == Ok(bytes)
            && forall g: ChunkHandle :: g.len > 0 && DisjointRegions(g.offset, g.len, h.offset, h.len) ==>
                 ReadChunk(hash, s', g) == ReadChunk(hash, s, g))
  {
    var (s', r) := WritePreallocated(hash, s, h, bytes);
    if r.Ok? {
      var arena := Overwritten(s.arena, h.offset, bytes);
      forall g: ChunkHandle | g.len > 0 && DisjointRegions(g.offset, g.len, h.offset, h.len)
        ensures ReadChunk(hash, s', g) == ReadChunk(hash, s, g)
      {
        if g.offset + g.len <= |s.arena| {
          assert arena[g.offset..g.offset + g.len] == s.arena[g.offset..g.offset + g.len];
        }
      }
    }
  }

  /** The last write at `offset`, provided no later write overlapped it. */
  function IntactAt(history: seq<PastWrite>, offset: u64): Option<Bytes> {
    if history == [] then None
    else
      var last := history[|history| - 1];
      if last.offset == offset then Some(last.bytes)
      else
        match IntactAt(history[..|history| - 1], offset)
        case None => None
        case Some(bytes) =>
          if DisjointRegions(offset, |bytes|, last.offset, |last.bytes|) then Some(bytes) else None
  }

  ghost predicate Holds(hash: Hash, s: Store, offset: u64, bytes: Bytes) {
    && |bytes| <= U64_MAX
    && offset in s.allocations && s.allocations[offset] == ChunkMeta(|bytes|, Some(hash(bytes)))
    && offset + |bytes| <= |s.arena| && s.arena[offset..offset + |bytes|] == bytes
  }

  lemma HeldBytesRead(hash: Hash, s: Store, offset: u64, bytes: Bytes)
    requires s.Sized() && Holds(hash, s, offset, bytes)
    ensures ReadChunk(hash, s, ChunkHandle(offset, |bytes|)) == Ok(bytes)
  {
  }

  /** Held bytes survive a write to a disjoint region. */
  lemma HeldBytesSurvive(hash: Hash, s: Store, h: ChunkHandle, bytes: Bytes, offset: u64, held: Bytes)
    requires s.Sized() && |bytes| <= U64_MAX && WritePreallocated(hash, s, h, bytes).1.Ok?
    requires held != [] && Holds(hash, s, offset, held)
    requires DisjointRegions(offset, |held|, h.offset, h.len)
    ensures Holds(hash, WritePreallocated(hash, s, h, bytes).0, offset, held)
  {
    WriteThenRead(hash, s, h, bytes);
    var arena := Overwritten(s.arena, h.offset, bytes);
    assert arena[offset..offset + |held|] == s.arena[offset..offset + |held|];
  }

  ghost predicate IntactHeld(hash: Hash, s: Store, history: seq<PastWrite>) {
    forall o: u64 :: IntactAt(history, o).Some? ==> Holds(hash, s, o, IntactAt(history, o).value)
  }

  /** Overwriting one region leaves bytes held at a disjoint one. */
  lemma OverwriteKeepsHeld(hash: Hash, s: Store, s': Store, offset: u64, bytes: Bytes, o: u64, held: Bytes)
    requires offset + |bytes| <= |s.arena| && s'.arena == Overwritten(s.arena, offset, bytes)
    requires o in s.allocations && o in s'.allocations && s'.allocations[o] == s.allocations[o]
    requires Holds(hash, s, o, held) && DisjointRegions(o, |held|, offset, |bytes|)
    ensures Holds(hash, s', o, held)
  {
    assert s'.arena[o..o + |held|] == s.arena[o..o + |held|];
  }

  lemma IntactStep(hash: Hash, s: Store, history: seq<PastWrite>, op: StoreOp)
    requires Tidy(s) && IntactHeld(hash, s, history) && Writable(op)
    ensures var (s', ok) := ApplyStore(hash, s, op); IntactHeld(hash, s', Remember(history, op, ok))
  {
    var (s', ok) := ApplyStore(hash, s, op);
    if op.OpAllocate? || !ok {
      AllocateKeepsHeld(hash, s, s', history, op);
    } else {
      var after := Remember(history, op, ok);
      assert after[..|history|] == history;
      forall o: u64 | IntactAt(after, o).Some?
        ensures Holds(hash, s', o, IntactAt(after, o).value)
      {
        if o != op.h.offset {
          assert IntactAt(history, o) == IntactAt(after, o);
          OverwriteKeepsHeld(hash, s, s', op.h.offset, op.bytes, o, IntactAt(history, o).value);
        }
      }
    }
  }

  lemma AllocateKeepsHeld(hash: Hash, s: Store, s': Store, history: seq<PastWrite>, op: StoreOp)
    requires Tidy(s) && IntactHeld(hash, s, history) && Writable(op)
    requires s' == ApplyStore(hash, s, op).0 && (op.OpAllocate? || !ApplyStore(hash, s, op).1)
    ensures IntactHeld(hash, s', history)
  {
  }

  lemma {:induction false} StoreRunsHoldIntact(
    hash: Hash, states: seq<Store>, histories: seq<seq<PastWrite>>, ops: seq<StoreOp>, j: nat)
    requires StoreRun(hash, states, histories, ops) && j < |states|
    ensures IntactHeld(hash, states[j], histories[j])
    decreases j
  {
    if j > 0 {
      StoreRunsHoldIntact(hash, states, histories, ops, j - 1);
      StoreRunsStayTidy(hash, states, histories, ops, j - 1);
      assert StoreStepAt(hash, states, histories, ops, j - 1);
      IntactStep(hash, states[j - 1], histories[j - 1], ops[j - 1]);
    }
  }

  /** In every run, a write that nothing later overlapped reads back exactly. */
  lemma UndisturbedWritesReadBack(
    hash: Hash, states: seq<Store>, histories: seq<seq<PastWrite>>, ops: seq<StoreOp>, j: nat, o: u64, bytes: Bytes)
    requires StoreRun(hash, states, histories, ops) && j < |states| && states[j].Sized()
    requires IntactAt(histories[j], o) == Some(bytes)
    ensures |bytes| <= U64_MAX && ReadChunk(hash, states[j], ChunkHandle(o, |bytes|)) == Ok(bytes)
  {
    StoreRunsHoldIntact(hash, states, histories, ops, j);
    assert Holds(hash, states[j], o, bytes);
  }

  /** A fresh allocation never touches a chunk recorded through either path. */
  lemma AllocationsAreFresh(
    hash: Hash, states: seq<Store>, histories: seq<seq<PastWrite>>, ops: seq<StoreOp>, j: nat, len: u64, o: u64)
    requires StoreRun(hash, states, histories, ops) && j < |states| && states[j].Sized()
    requires AllocateChunk(states[j], len).1.Ok? && o in states[j].allocations
    ensures var h := AllocateChunk(states[j], len).1.value;
      h.len == len && h.offset + h.len <= |states[j].arena|
      && DisjointRegions(h.offset, h.len, o, states[j].allocations[o].len)
  {
    StoreRunsStayTidy(hash, states, histories, ops, j);
  }

  // ---- Exactly when an operation succeeds, and why it does not ----

  /** The chunk is recorded under exactly this handle, inside the arena. */
  predicate Recorded(s: Store, h: ChunkHandle) {
    h.offset in s.allocations && s.allocations[h.offset].len == h.len && h.offset + h.len <= |s.arena|
  }

  /** An allocation succeeds exactly if it fits behind what was handed out before, to the last byte, and changes nothing else. */
  lemma AllocateOutcome(s: Store, len: u64)
    requires s.Sized()
    ensures var (s', r) := AllocateChunk(s, len);
      && (r.Ok? <==> len > 0 && s.nextOffset + len <= |s.arena|)
      && (r == Err(EmptyChunk) <==> len == 0)
      && (r.Err? && len > 0 ==>
            r == Err(InsufficientCapacity(len, if s.nextOffset <= |s.arena| then |s.arena| - s.nextOffset else 0)))
      && (r.Err? ==> s' == s)
      && (r.Ok? ==>
            && r.value == ChunkHandle(s.nextOffset, len) && s'.arena == s.arena && s'.nextOffset == s.nextOffset + len
            && Recorded(s', r.value) && s'.allocations[s.nextOffset].checksum.None?
            && s'.allocations == s.allocations[s.nextOffset := s'.allocations[s.nextOffset]])
  {
  }

  /** Writing an allocated chunk: it must be recorded as it is named, and be filled exactly; it may be rewritten. */
  lemma WriteOutcome(hash: Hash, s: Store, h: ChunkHandle, bytes: Bytes)
    requires s.Sized() && |bytes| <= U64_MAX
    ensures var (s', r) := WriteChunk(hash, s, h, bytes);
      && (r.Ok? <==> Recorded(s, h) && |bytes| == h.len)
      && (r == Err(InvalidHandle(h.offset, h.len)) <==> !Recorded(s, h))
      && (r == Err(LengthMismatch(h.len, |bytes|)) <==> Recorded(s, h) && |bytes| != h.len)
      && (r.Err? ==> s' == s)
      && (r.Ok? ==>
            && Holds(hash, s', h.offset, bytes) && s'.nextOffset == s.nextOffset && |s'.arena| == |s.arena|
            && (forall i :: 0 <= i < |s.arena| && !(h.offset <= i < h.offset + h.len) ==> s'.arena[i] == s.arena[i])
            && s'.allocations == s.allocations[h.offset := s'.allocations[h.offset]])
  {
  }

  /** Why a write to a granted region is refused, in the order in which the store looks. */
  lemma PreallocatedRefusals(hash: Hash, s: Store, h: ChunkHandle, bytes: Bytes)
    requires s.Sized() && |bytes| <= U64_MAX
    ensures var r := WritePreallocated(hash, s, h, bytes).1;
      && (r == Err(EmptyChunk) <==> h.len == 0)
      && (h.len > 0 ==> (r == Err(LengthMismatch(h.len, |bytes|)) <==> |bytes| != h.len))
      && (h.len > 0 && |bytes| == h.len && h.offset + h.len > U64_MAX ==> r == Err(InvalidHandle(h.offset, h.len)))
      && (h.len > 0 && |bytes| == h.len && |s.arena| < h.offset + h.len <= U64_MAX ==>
            r == Err(InsufficientCapacity(h.len, if h.offset <= |s.arena| then |s.arena| - h.offset else 0)))
  {
  }

  /** A read gives the bytes where they lie exactly if their digest is the recorded one; each refusal has its own cause. */
  lemma ReadOutcome(hash: Hash, s: Store, h: ChunkHandle)
    requires s.Sized()
    ensures var r := ReadChunk(hash, s, h);
      if !Recorded(s, h) then r == Err(InvalidHandle(h.offset, h.len))
      else if s.allocations[h.offset].checksum.None? then r == Err(UnwrittenChunk)
      else if s.allocations[h.offset].checksum == Some(hash(s.arena[h.offset..h.offset + h.len])) then
        r == Ok(s.arena[h.offset..h.offset + h.len])
      else r == Err(ChecksumMismatch(h.offset))
  {
  }
}
