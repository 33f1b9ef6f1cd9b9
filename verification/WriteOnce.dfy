/** The cache a client thinks it is talking to: a map whose entries are written once, shown, and withdrawn. */
module WriteOnce {
  import opened Types
  import opened Objects

  datatype Phase = Pending | Visible | Gone

  /** An entry's bytes are fixed when its key is claimed; only its phase moves, and only forward. */
  datatype Entry = Entry(bytes: Bytes, phase: Phase)

  datatype Client = Miss | Looked(k: ObjKey, bytes: Bytes) | Hit(k: ObjKey, bytes: Bytes) | Failed

  datatype Cache = Cache(entries: map<ObjKey, Entry>, clients: map<nat, Client>)

  const EMPTY_CACHE: Cache := Cache(map[], map[])

  datatype Event =
    | Stutter
    | Claim(k: ObjKey, bytes: Bytes)
    | Publish(k: ObjKey)
    | Retire(keys: set<ObjKey>)
    | Forget(k: ObjKey)
    | Look(r: nat, k: ObjKey)
    | Answer(r: nat, ok: bool)

  ghost predicate Step(a: Cache, e: Event, a': Cache) {
    match e
    case Stutter => a' == a
    case Claim(k, bytes) =>
      k !in a.entries && a' == a.(entries := a.entries[k := Entry(bytes, Pending)])
    case Publish(k) =>
      k in a.entries && a.entries[k].phase == Pending
      && a' == a.(entries := a.entries[k := a.entries[k].(phase := Visible)])
    case Retire(keys) =>
      keys <= a.entries.Keys
      && a' == a.(entries := map k | k in a.entries ::
                    if k in keys then a.entries[k].(phase := Gone) else a.entries[k])
    case Forget(k) =>
      k in a.entries && a' == a.(entries := a.entries - {k})
    case Look(r, k) =>
      r !in a.clients
      && a' == a.(clients := a.clients[r := if k in a.entries && a.entries[k].phase == Visible
                                            then Looked(k, a.entries[k].bytes) else Miss])
    case Answer(r, ok) =>
      r in a.clients && a.clients[r].Looked?
      && a' == a.(clients := a.clients[r := if ok then Hit(a.clients[r].k, a.clients[r].bytes) else Failed])
  }
}
