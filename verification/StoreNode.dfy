/** A store node: DRAM arena in front of encrypted files, with promotion on a DRAM miss. */
module StoreNode {
  import opened Types
  import opened Objects
  import opened Store
  import opened Ssd
  import M = MemoryStore
  import S = Store

  datatype NodeError = Dram(store: StoreError) | Tier(ssd: SsdError)

  datatype Tier = FromDram | FromSsd

  /** What stays fixed while a node runs and restarts. */
  datatype Config = Config(hash: Hash, aead: Aead, root: string)

  datatype Node = Node(dram: Store, files: Files)

  /** DRAM first; then, for an identified object, its file. */
  function WriteNode(cfg: Config, n: Node, h: ChunkHandle, bytes: Bytes, id: Option<ObjKey>, nonce: Bytes, suffix: string)
    : (Node, Result<(), NodeError>)
    requires n.dram.Sized() && |bytes| <= U64_MAX
  {
    var (dram, r) := WritePreallocated(cfg.hash, n.dram, h, bytes);
    match r
    case Err(e) => (n.(dram := dram), Err(Dram(e)))
    case Ok(_) =>
      match id
      case None => (n.(dram := dram), Ok(()))
      case Some(o) =>
        var (files, p) := PersistObject(cfg.aead, cfg.root, n.files, o, nonce, suffix, bytes);
        match p
        case Err(e) => (Node(dram, files), Err(Tier(e)))
        case Ok(_) => (Node(dram, files), Ok(()))
  }

  predicate Promotable(e: StoreError) {
    e.InvalidHandle? || e.UnwrittenChunk?
  }

  /** DRAM if it has the chunk; otherwise the file, which is written back into DRAM. */
  function ReadNode(cfg: Config, n: Node, h: ChunkHandle, id: Option<ObjKey>): (Node, Result<(Bytes, Tier), NodeError>)
    requires n.dram.Sized()
  {
    match ReadChunk(cfg.hash, n.dram, h)
    case Ok(bytes) => (n, Ok((bytes, FromDram)))
    case Err(e) =>
      if !Promotable(e) || id.None? then (n, Err(Dram(e)))
      else
        match ReadObject(cfg.aead, cfg.root, n.files, id.value)
        case Err(f) => (n, Err(Tier(f)))
        case Ok(bytes) =>
          if |bytes| > U64_MAX then (n, Err(Dram(e)))
          else
            var (dram, w) := WritePreallocated(cfg.hash, n.dram, h, bytes);
            match w
            case Err(g) => (n.(dram := dram), Err(Dram(g)))
            case Ok(_) => (n.(dram := dram), Ok((bytes, FromSsd)))
  }

  // ---- Runs ----

  /** The one region each object is ever placed at, as the master assigns them. */
  type Placement = map<ObjKey, ChunkHandle>

  ghost predicate GoodPlacement(place: Placement) {
    && (forall o :: o in place ==> ValidId(o) && place[o].len > 0)
    && (forall o, p :: o in place && p in place && o != p ==>
          DisjointRegions(place[o].offset, place[o].len, place[p].offset, place[p].len))
  }

  /** `PersistFails` is a write whose file operations fail before the rename, with or without clearing up after itself. */
  datatype NodeAction =
    | NodeWrite(o: ObjKey, bytes: Bytes, nonce: Bytes, suffix: string)
    | PersistFails(o: ObjKey, bytes: Bytes, suffix: string, leftover: Option<Bytes>)
    | NodeRead(o: ObjKey)
    | Restart(blank: Store)
    | CrashBeforeRename(o: ObjKey, suffix: string, junk: Bytes, blank: Store)

  /**
   * History: `last` has the bytes of each object's latest completed write, `torn` those of a later write that reached
   * DRAM but was answered with an error because its file could not be written.
   */
  datatype Tracked = Tracked(node: Node, last: map<ObjKey, Bytes>, torn: map<ObjKey, Bytes>)

  ghost predicate NodeReady(place: Placement, t: Tracked, a: NodeAction) {
    && t.node.dram.Sized()
    && match a
       case NodeWrite(o, bytes, nonce, suffix) => o in place && |bytes| <= U64_MAX && |nonce| == NONCE_LEN
       case PersistFails(o, bytes, _, _) => o in place && |bytes| <= U64_MAX
       case NodeRead(o) => o in place
       case Restart(blank) => IsEmptyStore(blank) && |blank.arena| == |t.node.dram.arena|
       case CrashBeforeRename(o, _, _, blank) => o in place && IsEmptyStore(blank) && |blank.arena| == |t.node.dram.arena|
  }

  function DoWrite(cfg: Config, t: Tracked, h: ChunkHandle, o: ObjKey, bytes: Bytes, nonce: Bytes, suffix: string): Tracked
    requires t.node.dram.Sized() && |bytes| <= U64_MAX
  {
    var (node, r) := WriteNode(cfg, t.node, h, bytes, Some(o), nonce, suffix);
    match r
    case Ok(_) => Tracked(node, t.last[o := bytes], t.torn - {o})
    case Err(Dram(_)) => t.(node := node)
    case Err(Tier(_)) => t.(node := node, torn := t.torn[o := bytes])
  }

  function DoFail(cfg: Config, t: Tracked, h: ChunkHandle, o: ObjKey, bytes: Bytes, suffix: string, leftover: Option<Bytes>)
    : Tracked
    requires t.node.dram.Sized() && |bytes| <= U64_MAX
  {
    var (dram, w) := WritePreallocated(cfg.hash, t.node.dram, h, bytes);
    if w.Err? then t
    else
      var temp := TempFile(cfg.root, o, suffix);
      var files := if leftover.Some? then t.node.files[temp := leftover.value] else t.node.files - {temp};
      Tracked(Node(dram, files), t.last, t.torn[o := bytes])
  }

  ghost function NodeAct(place: Placement, cfg: Config, t: Tracked, a: NodeAction): Tracked
    requires NodeReady(place, t, a)
  {
    match a
    case NodeWrite(o, bytes, nonce, suffix) => DoWrite(cfg, t, place[o], o, bytes, nonce, suffix)
    case PersistFails(o, bytes, suffix, leftover) => DoFail(cfg, t, place[o], o, bytes, suffix, leftover)
    case NodeRead(o) => t.(node := ReadNode(cfg, t.node, place[o], Some(o)).0)
    case Restart(blank) => t.(node := t.node.(dram := blank), torn := map[])
    case CrashBeforeRename(o, suffix, junk, blank) =>
      t.(node := Node(blank, t.node.files[TempFile(cfg.root, o, suffix) := junk]), torn := map[])
  }

  ghost predicate NodeRun(place: Placement, cfg: Config, states: seq<Tracked>, actions: seq<NodeAction>) {
    && |states| == |actions| + 1
    && IsEmptyStore(states[0].node.dram) && states[0].node.files == map[]
    && states[0].last == map[] && states[0].torn == map[]
    && forall i :: 0 <= i < |actions| ==>
      NodeReady(place, states[i], actions[i]) && states[i + 1] == NodeAct(place, cfg, states[i], actions[i])
  }

  // ---- Coherence ----

  /** What a reader should see of an object. */
  function Shown(t: Tracked, o: ObjKey): Option<Bytes> {
    if o in t.torn then Some(t.torn[o]) else if o in t.last then Some(t.last[o]) else None
  }

  /** The file of an object holds its last write, or does not exist. */
  ghost predicate FileCurrent(cfg: Config, t: Tracked, o: ObjKey) {
    if o in t.last then ReadObject(cfg.aead, cfg.root, t.node.files, o) == Ok(t.last[o])
    else ObjectFile(cfg.root, o) !in t.node.files
  }

  /** DRAM holds what is shown at an object's offset or, unless a torn write is there, knows nothing of it. */
  ghost predicate DramCurrent(cfg: Config, t: Tracked, o: ObjKey, h: ChunkHandle) {
    && (o in t.torn ==> h.offset in t.node.dram.allocations)
    && (h.offset in t.node.dram.allocations ==>
          Shown(t, o).Some? && Holds(cfg.hash, t.node.dram, h.offset, Shown(t, o).value))
  }

  ghost predicate Fits(t: Tracked, o: ObjKey, h: ChunkHandle) {
    && (o in t.last ==> |t.last[o]| == h.len && h.offset + h.len <= |t.node.dram.arena|)
    && (o in t.torn ==> |t.torn[o]| == h.len && h.offset + h.len <= |t.node.dram.arena|)
  }

  ghost predicate Coherent(place: Placement, cfg: Config, t: Tracked) {
    && t.node.dram.Sized()
    && forall o :: o in place ==> FileCurrent(cfg, t, o) && DramCurrent(cfg, t, o, place[o]) && Fits(t, o, place[o])
  }

  /** Putting an object's shown bytes into DRAM keeps every object current. */
  lemma DramWriteKeepsCurrent(place: Placement, cfg: Config, t: Tracked, t': Tracked, o: ObjKey, bytes: Bytes, p: ObjKey)
    requires GoodPlacement(place) && Coherent(place, cfg, t) && o in place && p in place && |bytes| <= U64_MAX
    requires WritePreallocated(cfg.hash, t.node.dram, place[o], bytes).1.Ok?
    requires t'.node.dram == WritePreallocated(cfg.hash, t.node.dram, place[o], bytes).0
    requires Shown(t', o) == Some(bytes)
    requires p != o ==> Shown(t', p) == Shown(t, p) && (p in t'.torn <==> p in t.torn)
    ensures DramCurrent(cfg, t', p, place[p])
  {
    WriteThenRead(cfg.hash, t.node.dram, place[o], bytes);
    if p != o && place[p].offset in t'.node.dram.allocations {
      HeldBytesSurvive(cfg.hash, t.node.dram, place[o], bytes, place[p].offset, Shown(t, p).value);
    }
  }

  /** Adding or clearing a temporary file leaves every object's file as it was. */
  lemma TempKeepsFiles(cfg: Config, t: Tracked, t': Tracked, temp: string, p: ObjKey)
    requires FileCurrent(cfg, t, p) && t'.last == t.last && temp != ObjectFile(cfg.root, p)
    requires forall f :: f != temp ==> (f in t'.node.files <==> f in t.node.files)
    requires forall f :: f != temp && f in t.node.files && f in t'.node.files ==> t'.node.files[f] == t.node.files[f]
    ensures FileCurrent(cfg, t', p)
  {
  }

  lemma CompletedWriteKeepsCoherent(
    place: Placement, cfg: Config, t: Tracked, o: ObjKey, bytes: Bytes, nonce: Bytes, suffix: string)
    requires GoodPlacement(place) && Decrypts(cfg.aead) && Coherent(place, cfg, t)
    requires o in place && |bytes| <= U64_MAX && |nonce| == NONCE_LEN
    requires WriteNode(cfg, t.node, place[o], bytes, Some(o), nonce, suffix).1.Ok?
    ensures Coherent(place, cfg, DoWrite(cfg, t, place[o], o, bytes, nonce, suffix))
  {
    var t' := DoWrite(cfg, t, place[o], o, bytes, nonce, suffix);
    WriteThenRead(cfg.hash, t.node.dram, place[o], bytes);
    forall p | p in place
      ensures FileCurrent(cfg, t', p) && DramCurrent(cfg, t', p, place[p])
    {
      PersistThenRead(cfg.aead, cfg.root, t.node.files, o, nonce, suffix, bytes, p);
      DramWriteKeepsCurrent(place, cfg, t, t', o, bytes, p);
    }
  }

  /** A write that reached DRAM and then failed is shown until the node restarts; the files stay as they were. */
  lemma TornWriteKeepsCoherent(place: Placement, cfg: Config, t: Tracked, t': Tracked, o: ObjKey, bytes: Bytes, temp: string)
    requires GoodPlacement(place) && Coherent(place, cfg, t) && o in place && |bytes| <= U64_MAX
    requires WritePreallocated(cfg.hash, t.node.dram, place[o], bytes).1.Ok?
    requires t'.node.dram == WritePreallocated(cfg.hash, t.node.dram, place[o], bytes).0
    requires t'.last == t.last && t'.torn == t.torn[o := bytes]
    requires forall p :: temp != ObjectFile(cfg.root, p)
    requires forall f :: f != temp ==> (f in t'.node.files <==> f in t.node.files)
    requires forall f :: f != temp && f in t.node.files && f in t'.node.files ==> t'.node.files[f] == t.node.files[f]
    ensures Coherent(place, cfg, t')
  {
    WriteThenRead(cfg.hash, t.node.dram, place[o], bytes);
    forall p | p in place
      ensures FileCurrent(cfg, t', p) && DramCurrent(cfg, t', p, place[p])
    {
      TempKeepsFiles(cfg, t, t', temp, p);
      DramWriteKeepsCurrent(place, cfg, t, t', o, bytes, p);
    }
  }

  lemma WriteKeepsCoherent(place: Placement, cfg: Config, t: Tracked, a: NodeAction)
    requires GoodPlacement(place) && Decrypts(cfg.aead) && Coherent(place, cfg, t)
    requires a.NodeWrite? && NodeReady(place, t, a)
    ensures Coherent(place, cfg, NodeAct(place, cfg, t, a))
  {
    var t', temp := NodeAct(place, cfg, t, a), TempFile(cfg.root, a.o, a.suffix);
    WriteThenRead(cfg.hash, t.node.dram, place[a.o], a.bytes);
    match WriteNode(cfg, t.node, place[a.o], a.bytes, Some(a.o), a.nonce, a.suffix).1 {
      case Ok(_) => CompletedWriteKeepsCoherent(place, cfg, t, a.o, a.bytes, a.nonce, a.suffix);
      case Err(Dram(_)) =>
      case Err(Tier(_)) =>
        forall p ensures temp != ObjectFile(cfg.root, p) { TempIsNotObject(cfg.root, a.o, p, a.suffix); }
        TornWriteKeepsCoherent(place, cfg, t, t', a.o, a.bytes, temp);
    }
  }

  lemma FailureKeepsCoherent(place: Placement, cfg: Config, t: Tracked, a: NodeAction)
    requires GoodPlacement(place) && Coherent(place, cfg, t) && a.PersistFails? && NodeReady(place, t, a)
    ensures Coherent(place, cfg, NodeAct(place, cfg, t, a))
  {
    var t', temp := NodeAct(place, cfg, t, a), TempFile(cfg.root, a.o, a.suffix);
    if WritePreallocated(cfg.hash, t.node.dram, place[a.o], a.bytes).1.Ok? {
      forall p ensures temp != ObjectFile(cfg.root, p) { TempIsNotObject(cfg.root, a.o, p, a.suffix); }
      TornWriteKeepsCoherent(place, cfg, t, t', a.o, a.bytes, temp);
    }
  }

  /** An identified read returns what is shown of the object, from whichever tier has it, or fails if nothing is. */
  lemma ReadIsExact(place: Placement, cfg: Config, t: Tracked, o: ObjKey)
    requires GoodPlacement(place) && Coherent(place, cfg, t) && o in place
    ensures var r := ReadNode(cfg, t.node, place[o], Some(o)).1;
      match Shown(t, o)
      case Some(bytes) => r.Ok? && r.value.0 == bytes
      case None => r == Err(Tier(NotFound))
  {
    var h := place[o];
    if h.offset in t.node.dram.allocations {
      HeldBytesRead(cfg.hash, t.node.dram, h.offset, Shown(t, o).value);
    } else if o in t.last {
      WriteThenRead(cfg.hash, t.node.dram, h, t.last[o]);
    }
  }

  lemma ReadKeepsCoherent(place: Placement, cfg: Config, t: Tracked, o: ObjKey)
    requires GoodPlacement(place) && Coherent(place, cfg, t) && o in place
    ensures Coherent(place, cfg, t.(node := ReadNode(cfg, t.node, place[o], Some(o)).0))
  {
    var h := place[o];
    var t' := t.(node := ReadNode(cfg, t.node, h, Some(o)).0);
    if h.offset in t.node.dram.allocations {
      HeldBytesRead(cfg.hash, t.node.dram, h.offset, Shown(t, o).value);
      assert t' == t;
    } else if o in t.last {
      WriteThenRead(cfg.hash, t.node.dram, h, t.last[o]);
      forall p | p in place
        ensures FileCurrent(cfg, t', p) && DramCurrent(cfg, t', p, place[p])
      {
        DramWriteKeepsCurrent(place, cfg, t, t', o, t.last[o], p);
      }
    } else {
      assert t' == t;
    }
  }

  /** Losing DRAM, even in the middle of a write that left a temporary file, loses nothing completed. */
  lemma RestartKeepsCoherent(place: Placement, cfg: Config, t: Tracked, a: NodeAction)
    requires GoodPlacement(place) && Coherent(place, cfg, t)
    requires (a.Restart? || a.CrashBeforeRename?) && NodeReady(place, t, a)
    ensures Coherent(place, cfg, NodeAct(place, cfg, t, a))
  {
    var t' := NodeAct(place, cfg, t, a);
    forall p | p in place ensures FileCurrent(cfg, t', p) {
      if a.CrashBeforeRename? {
        TempIsNotObject(cfg.root, a.o, p, a.suffix);
        TempKeepsFiles(cfg, t, t', TempFile(cfg.root, a.o, a.suffix), p);
      }
    }
  }

  lemma ActionKeepsCoherent(place: Placement, cfg: Config, t: Tracked, a: NodeAction)
    requires GoodPlacement(place) && Decrypts(cfg.aead) && Coherent(place, cfg, t) && NodeReady(place, t, a)
    ensures Coherent(place, cfg, NodeAct(place, cfg, t, a))
  {
    match a {
      case NodeWrite(_, _, _, _) => WriteKeepsCoherent(place, cfg, t, a);
      case PersistFails(_, _, _, _) => FailureKeepsCoherent(place, cfg, t, a);
      case NodeRead(o) => ReadKeepsCoherent(place, cfg, t, o);
      case Restart(_) => RestartKeepsCoherent(place, cfg, t, a);
      case CrashBeforeRename(_, _, _, _) => RestartKeepsCoherent(place, cfg, t, a);
    }
  }

  lemma {:induction false} NodeRunsStayCoherent(
    place: Placement, cfg: Config, states: seq<Tracked>, actions: seq<NodeAction>, j: nat)
    requires GoodPlacement(place) && Decrypts(cfg.aead) && NodeRun(place, cfg, states, actions) && j < |states|
    ensures Coherent(place, cfg, states[j])
    decreases j
  {
    if j > 0 {
      NodeRunsStayCoherent(place, cfg, states, actions, j - 1);
      ActionKeepsCoherent(place, cfg, states[j - 1], actions[j - 1]);
    }
  }

  /**
   * In every run of writes, failed writes, reads, promotions, restarts and crashes, an identified read returns the
   * object's last completed write, whichever tier serves it, and fails if there has been none; only where a later write
   * reached DRAM and then failed, and the node has not restarted since, does it return that write's bytes.
   */
  lemma ReadsReturnLastWrite(
    place: Placement, cfg: Config, states: seq<Tracked>, actions: seq<NodeAction>, j: nat, o: ObjKey)
    requires GoodPlacement(place) && Decrypts(cfg.aead) && NodeRun(place, cfg, states, actions)
    requires j < |states| && o in place && states[j].node.dram.Sized()
    ensures var r := ReadNode(cfg, states[j].node, place[o], Some(o)).1;
      if o in states[j].torn then r.Ok? && r.value.0 == states[j].torn[o]
      else if o in states[j].last then r.Ok? && r.value.0 == states[j].last[o]
      else r == Err(Tier(NotFound))
  {
    NodeRunsStayCoherent(place, cfg, states, actions, j);
    ReadIsExact(place, cfg, states[j], o);
  }

  /** A write that fails after reaching DRAM is returned instead of the completed one before it, until a restart. */
  lemma TornWriteRun(place: Placement, cfg: Config, o: ObjKey, good: Bytes, torn: Bytes, nonce: Bytes, blank: Store)
    returns (states: seq<Tracked>, actions: seq<NodeAction>)
    requires GoodPlacement(place) && Decrypts(cfg.aead) && o in place && |good| == |torn| == place[o].len && |nonce| == NONCE_LEN
    requires IsEmptyStore(blank) && blank.Sized() && place[o].offset + place[o].len <= |blank.arena|
    ensures NodeRun(place, cfg, states, actions) && |actions| == 3
    ensures states[2].node.dram.Sized() && states[3].node.dram.Sized()
    ensures var r := ReadNode(cfg, states[2].node, place[o], Some(o)).1; r.Ok? && r.value.0 == torn
    ensures o in states[2].last && states[2].last[o] == good
    ensures var r := ReadNode(cfg, states[3].node, place[o], Some(o)).1; r.Ok? && r.value.0 == good
  {
    var t0 := Tracked(Node(blank, map[]), map[], map[]);
    actions := [NodeWrite(o, good, nonce, ""), PersistFails(o, torn, "", None), Restart(blank)];
    WriteThenRead(cfg.hash, blank, place[o], good);
    var t1 := NodeAct(place, cfg, t0, actions[0]);
    WriteThenRead(cfg.hash, t1.node.dram, place[o], torn);
    var t2 := NodeAct(place, cfg, t1, actions[1]);
    var t3 := NodeAct(place, cfg, t2, actions[2]);
    states := [t0, t1, t2, t3];
    ReadsReturnLastWrite(place, cfg, states, actions, 2, o);
    ReadsReturnLastWrite(place, cfg, states, actions, 3, o);
  }

  /** In every run a node may be written and read, may fail to persist, and may restart or crash, at any time. */
  lemma AnythingMayHappen(place: Placement, cfg: Config, states: seq<Tracked>, actions: seq<NodeAction>, j: nat, a: NodeAction)
    requires GoodPlacement(place) && Decrypts(cfg.aead) && NodeRun(place, cfg, states, actions) && j < |states|
    requires match a
      case NodeWrite(o, bytes, nonce, _) => o in place && |bytes| <= U64_MAX && |nonce| == NONCE_LEN
      case PersistFails(o, bytes, _, _) => o in place && |bytes| <= U64_MAX
      case NodeRead(o) => o in place
      case Restart(blank) => IsEmptyStore(blank) && |blank.arena| == |states[j].node.dram.arena|
      case CrashBeforeRename(o, _, _, blank) =>
        o in place && IsEmptyStore(blank) && |blank.arena| == |states[j].node.dram.arena|
    ensures NodeReady(place, states[j], a)
  {
    NodeRunsStayCoherent(place, cfg, states, actions, j);
  }

  // ---- Tiers ----

  /** A write succeeds exactly if it fills its region inside the arena and, for an identified object, its file is replaced. */
  lemma WriteOutcome(cfg: Config, n: Node, h: ChunkHandle, bytes: Bytes, id: Option<ObjKey>, nonce: Bytes, suffix: string)
    requires n.dram.Sized() && |bytes| <= U64_MAX
    ensures var (n', r) := WriteNode(cfg, n, h, bytes, id, nonce, suffix);
      var fits := h.len > 0 && |bytes| == h.len && h.offset + h.len <= |n.dram.arena|;
      && (r.Ok? <==> fits && (id.Some? ==> ValidId(id.value) && TempFile(cfg.root, id.value, suffix) !in n.files))
      && (r.Err? && r.error.Dram? <==> !fits)
      && (!fits ==> n' == n) && (fits ==> Holds(cfg.hash, n'.dram, h.offset, bytes))
      && (r.Ok? && id.Some? ==>
            ObjectFile(cfg.root, id.value) in n'.files
            && n'.files[ObjectFile(cfg.root, id.value)] == FileBytes(cfg.aead, id.value, nonce, bytes))
      && (id.None? ==> n'.files == n.files)
  {
    WriteThenRead(cfg.hash, n.dram, h, bytes);
    if id.Some? {
      PersistOutcome(cfg.aead, cfg.root, n.files, id.value, nonce, suffix, bytes);
    }
  }

  /** DRAM has no chunk under this handle, or an unwritten one. */
  predicate Absent(cfg: Config, n: Node, h: ChunkHandle)
    requires n.dram.Sized()
  {
    !Recorded(n.dram, h) || n.dram.allocations[h.offset].checksum.None?
  }

  /** The object's file has bytes that fill the region. */
  predicate InFile(cfg: Config, n: Node, h: ChunkHandle, o: ObjKey)
    requires n.dram.Sized()
  {
    && ReadObject(cfg.aead, cfg.root, n.files, o).Ok? && |ReadObject(cfg.aead, cfg.root, n.files, o).value| == h.len > 0
    && h.offset + h.len <= |n.dram.arena|
  }

  /**
   * Which tier serves a read, and what it leaves: DRAM exactly if it has the chunk with its digest; the file exactly if DRAM
   * has no written chunk there, and then DRAM serves the next read; a corrupted chunk is an error whatever the file holds.
   */
  lemma ReadOutcome(cfg: Config, n: Node, h: ChunkHandle, id: Option<ObjKey>)
    requires n.dram.Sized()
    ensures var ((n', r), dram) := (ReadNode(cfg, n, h, id), ReadChunk(cfg.hash, n.dram, h));
      && n'.files == n.files && n'.dram.Sized()
      && (r.Ok? && r.value.1 == FromDram <==> dram.Ok?) && (dram.Ok? ==> r == Ok((dram.value, FromDram)) && n' == n)
      && (dram == Err(ChecksumMismatch(h.offset)) ==> r == Err(Dram(ChecksumMismatch(h.offset))) && n' == n)
      && (r.Ok? && r.value.1 == FromSsd <==> Absent(cfg, n, h) && id.Some? && InFile(cfg, n, h, id.value))
      && (r.Ok? && r.value.1 == FromSsd ==>
            && Ok(r.value.0) == ReadObject(cfg.aead, cfg.root, n.files, id.value)
            && ReadNode(cfg, n', h, id) == (n', Ok((r.value.0, FromDram))))
      && (r.Err? ==> n' == n)
      && (Absent(cfg, n, h) && id.Some? && ReadObject(cfg.aead, cfg.root, n.files, id.value).Err? ==>
            r == Err(Tier(ReadObject(cfg.aead, cfg.root, n.files, id.value).error)))
  {
    S.ReadOutcome(cfg.hash, n.dram, h);
    if Absent(cfg, n, h) && id.Some? {
      var f := ReadObject(cfg.aead, cfg.root, n.files, id.value);
      if f.Ok? && |f.value| <= U64_MAX {
        WriteThenRead(cfg.hash, n.dram, h, f.value);
      }
    }
  }

  /**
   * In every run a read of what a node has is served from DRAM if the object's chunk is there, else from its file; either
   * way the next read finds it in DRAM. After a restart that is the file, once.
   */
  lemma ReadsPromote(place: Placement, cfg: Config, states: seq<Tracked>, actions: seq<NodeAction>, j: nat, o: ObjKey)
    requires GoodPlacement(place) && Decrypts(cfg.aead) && NodeRun(place, cfg, states, actions)
    requires j < |actions| && actions[j] == NodeRead(o) && o in place && Shown(states[j], o).Some?
    ensures states[j].node.dram.Sized() && states[j + 1].node.dram.Sized()
    ensures ReadNode(cfg, states[j].node, place[o], Some(o)).1
         == Ok((Shown(states[j], o).value,
                if place[o].offset in states[j].node.dram.allocations then FromDram else FromSsd))
    ensures ReadNode(cfg, states[j + 1].node, place[o], Some(o)).1 == Ok((Shown(states[j], o).value, FromDram))
    ensures j > 0 && (actions[j - 1].Restart? || actions[j - 1].CrashBeforeRename?) ==>
      place[o].offset !in states[j].node.dram.allocations
  {
    NodeRunsStayCoherent(place, cfg, states, actions, j);
    ReadIsExact(place, cfg, states[j], o);
    ReadOutcome(cfg, states[j].node, place[o], Some(o));
    var t, h := states[j], place[o];
    if h.offset in t.node.dram.allocations {
      HeldBytesRead(cfg.hash, t.node.dram, h.offset, Shown(t, o).value);
    }
  }

  /** The node as it runs: the arena object and a directory of files. */
  class StoreNode {
    const dram: M.MemoryStore
    var files: Files
    const aead: Aead
    const root: string

    ghost function View(): Node
      reads this, dram, dram.arena
    {
      Node(dram.View(), files)
    }

    ghost function Cfg(): Config {
      Config(dram.sha256, aead, root)
    }

    constructor (capacity: u64, hash: Hash, cipher: Aead, ssdRoot: string)
      ensures fresh(dram) && fresh(dram.arena) && dram.arena.Length == capacity
      ensures Cfg() == Config(hash, cipher, ssdRoot)
      ensures IsEmptyStore(View().dram) && View().files == map[]
    {
      dram := new M.MemoryStore.WithCapacity(capacity, hash);
      files, aead, root := map[], cipher, ssdRoot;
    }

    method Write(h: ChunkHandle, bytes: Bytes, id: Option<ObjKey>, nonce: Bytes, suffix: string)
      returns (r: Result<(), NodeError>)
      requires dram.arena.Length <= U64_MAX && |bytes| <= U64_MAX
      modifies this, dram, dram.arena
      ensures (View(), r) == WriteNode(Cfg(), old(View()), h, bytes, id, nonce, suffix)
    {
      var w := dram.WriteAt(h, bytes);
      if w.Err? {
        return Err(Dram(w.error));
      }
      if id.Some? {
        var (after, p) := PersistObject(aead, root, files, id.value, nonce, suffix, bytes);
        files := after;
        if p.Err? {
          return Err(Tier(p.error));
        }
      }
      return Ok(());
    }

    method Read(h: ChunkHandle, id: Option<ObjKey>) returns (r: Result<(Bytes, Tier), NodeError>)
      requires dram.arena.Length <= U64_MAX
      modifies this, dram, dram.arena
      ensures (View(), r) == ReadNode(Cfg(), old(View()), h, id)
    {
      var d := dram.Read(h);
      if d.Ok? {
        return Ok((d.value, FromDram));
      }
      if !Promotable(d.error) || id.None? {
        return Err(Dram(d.error));
      }
      var f := ReadObject(aead, root, files, id.value);
      if f.Err? {
        return Err(Tier(f.error));
      }
      if |f.value| > U64_MAX {
        return Err(Dram(d.error));
      }
      var w := dram.WriteAt(h, f.value);
      if w.Err? {
        return Err(Dram(w.error));
      }
      return Ok((f.value, FromSsd));
    }
  }
}
