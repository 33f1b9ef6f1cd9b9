/** What a gateway sees of the cluster: its table of entries is the visible part of the write-once map. */
module GatewayCache {
  import opened Types
  import opened Segments
  import opened Objects
  import opened Store
  import opened Cluster
  import opened ClusterSafety
  import opened ClusterRefinement
  import W = WriteOnce

  /** Stored bytes read as text. */
  type Decoding = Bytes -> string

  function Seen(decode: Decoding, a: W.Cache): map<ObjKey, string> {
    map k | k in a.entries && a.entries[k].phase == W.Visible :: decode(a.entries[k].bytes)
  }

  /** What an event of the write-once map does to the entries: one lands under a free key, some go, or nothing happens. */
  lemma EventOnEntries(decode: Decoding, a: W.Cache, e: W.Event, a': W.Cache)
    requires W.Step(a, e, a')
    ensures match e
      case Publish(k) =>
        k in a.entries && k !in Seen(decode, a) && Seen(decode, a') == Seen(decode, a)[k := decode(a.entries[k].bytes)]
      case Retire(keys) => Seen(decode, a') == Seen(decode, a) - keys
      case Forget(k) => Seen(decode, a') == Seen(decode, a) - {k}
      case _ => Seen(decode, a') == Seen(decode, a)
  {
  }

  /** A reader that waits for its bytes holds on to what it was told, until it is answered. */
  lemma ReaderStep(hash: Hash, c: Cluster, a: Action, c': Cluster, r: nat)
    requires Step(hash, c, a, c') && r in c.readers
    ensures r in c'.readers && (c'.readers[r] == c.readers[r] || c'.readers[r].Answered?)
    ensures c.readers[r].Answered? ==> c'.readers[r].Answered?
  {
  }

  lemma {:induction false} ReaderWaits(hash: Hash, states: seq<Cluster>, actions: seq<Action>, i: nat, j: nat, r: nat)
    requires Steps(hash, states, actions) && i <= j < |states| && r in states[i].readers
    ensures r in states[j].readers && (states[j].readers[r] == states[i].readers[r] || states[j].readers[r].Answered?)
    decreases j
  {
    if i < j {
      ReaderWaits(hash, states, actions, i, j - 1, r);
      assert StepAt(hash, states, actions, j - 1);
      ReaderStep(hash, states[j - 1], actions[j - 1], states[j], r);
    }
  }

  /** A handle given out for a visible key reads, at any later time, as that entry's bytes or fails. */
  lemma HandleReadsEntry(hash: Hash, c: Cluster, c': Cluster, k: ObjKey, replica: Replica)
    requires Safe(hash, c) && Safe(hash, c') && HistoryKept(hash, c, c')
    requires k in c.master.objects && c.master.objects[k].replicas != [] && c.master.objects[k].replicas[0] == replica
    ensures var read := ReadChunk(hash, c'.store, FromReplica(replica)); read.Ok? ==> read.value == EntryOf(c, k).bytes
  {
    var g :| Shows(c, k, g);
    GrantBytes(c, g);
    GrantedRead(hash, c', g);
  }

  lemma LookUpHolds(c: Cluster, r: nat, k: ObjKey, nowMs: u64)
    requires r !in c.readers && DoLookUp(c, r, k, nowMs).readers[r].Holding?
    ensures k in c.master.objects && c.master.objects[k].status == Committed && c.master.objects[k].replicas != []
    ensures DoLookUp(c, r, k, nowMs).readers[r] == Holding(k, c.master.objects[k].replicas[0])
  {
  }

  /**
   * In every interleaving, however much happens between a reader's lookup and its read, a hit carries the looked-up key
   * and the bytes of the entry that was visible under it when it was looked up.
   */
  lemma HitIsTheEntrySeen(hash: Hash, states: seq<Cluster>, actions: seq<Action>, i: nat, j: nat, r: nat, k: ObjKey, nowMs: u64)
    requires Interleaving(hash, states, actions) && i < j < |actions|
    requires actions[i] == LookUp(r, k, nowMs) && actions[j] == ReadBytes(r)
    ensures r in states[j + 1].readers && states[j + 1].readers[r].Answered? && states[j + 1].readers[r].k == k
    ensures var result := states[j + 1].readers[r].result;
      result.Ok? ==>
        && k in Abstract(states[i]).entries
        && Abstract(states[i]).entries[k] == W.Entry(result.value, W.Visible)
  {
    assert StepAt(hash, states, actions, i) && StepAt(hash, states, actions, j);
    ReaderWaits(hash, states, actions, i + 1, j, r);
    LookUpHolds(states[i], r, k, nowMs);
    InterleavingsAreSafe(hash, states, actions, i);
    InterleavingsAreSafe(hash, states, actions, j);
    InterleavingsKeepHistory(hash, states, actions, i, j);
    HandleReadsEntry(hash, states[i], states[j], k, states[i].master.objects[k].replicas[0]);
  }

  /** The entries stayed, lost some keys, or gained one free key with what was reserved under it. */
  ghost predicate EntriesMove(decode: Decoding, c: Cluster, entries: map<ObjKey, string>, entries': map<ObjKey, string>) {
    || entries' == entries
    || (exists keys: set<ObjKey> :: entries' == entries - keys)
    || (exists g :: g in c.grants && g.k !in entries && entries' == entries[g.k := decode(g.bytes)])
  }

  /**
   * In every interleaving, each step of the cluster changes the entries a gateway sees as the gateway's model assumes:
   * not at all, by withdrawing some, or by landing, under a free key, what a writer reserved under that key.
   */
  lemma ClusterMovesEntries(hash: Hash, decode: Decoding, states: seq<Cluster>, actions: seq<Action>, i: nat)
    requires Interleaving(hash, states, actions) && i < |actions|
    ensures EntriesMove(decode, states[i], Seen(decode, Abstract(states[i])), Seen(decode, Abstract(states[i + 1])))
  {
    ClusterRefinesWriteOnceMap(hash, states, actions);
    InterleavingsAreSafe(hash, states, actions, i);
    var e := EventOf(hash, states[i], actions[i]);
    EventOnEntries(decode, Abstract(states[i]), e, Abstract(states[i + 1]));
    if e.Publish? {
      var g :| Shows(states[i], e.k, g);
      GrantBytes(states[i], g);
    }
  }
}
