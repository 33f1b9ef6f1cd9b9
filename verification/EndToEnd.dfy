/**
 * Gateways, cluster and coalescing in one run: calls look their key up, read the store, share flights, ask the vendor and
 * cache its replies, while writers, readers, evictions, removals and lost messages interleave with them.
 */
module EndToEnd {
  import opened Types
  import opened Objects
  import opened Json
  import opened JsonCodec
  import opened Store
  import opened Fingerprint
  import C = Cluster
  import S = ClusterSafety
  import F = Singleflight
  import G = Gateway

  /** What stays fixed: the gateways' digest and JSON, the store's digest, the text encoding, and the waiter cap. */
  datatype Setup = Setup(env: G.Env, hash: Hash, encode: string -> Bytes, decode: Bytes -> string, cap: nat)

  ghost predicate Encodes(setup: Setup) {
    forall t :: setup.decode(setup.encode(t)) == t
  }

  /** Where a call is. `flight` is set for the leader of one. */
  datatype Phase =
    | Asking(call: G.Call)
    | Reading(call: G.Call, r: nat)
    | Missing(call: G.Call)
    | Leading(call: G.Call, flight: Option<nat>)
    | Waiting(call: G.Call, w: nat)
    | Storing(call: G.Call, payload: G.Payload, flight: Option<nat>)
    | Finishing(call: G.Call, answer: G.Answer, flight: Option<nat>)
    | Answered(call: G.Call, answer: G.Answer)

  /** `served` and `flightKeys` are history: the vendor's replies, and the key each flight was begun for. */
  datatype State = State(
    cluster: C.Cluster,
    group: F.Group,
    phases: map<nat, Phase>,
    served: seq<G.Served>,
    flightKeys: map<nat, F.FlightKey>)

  datatype Action =
    | Around(a: C.Action)
    | Arrive(id: nat, call: G.Call, cacheUp: bool, r: nat, nowMs: u64)
    | Fetch(id: nat, fetched: bool)
    | Join(id: nat)
    | Vendor(id: nat, payload: Option<G.Payload>)
    | Reserve(id: nat, w: nat, delivered: bool, heard: bool)
    | Finish(id: nat)
    | Publish(id: nat)
    | Send(f: nat)
    | Leave(id: nat)
    | Poll(id: nat)

  function FlightKeyOf(setup: Setup, call: G.Call): F.FlightKey {
    var k := G.KeyOf(setup.env, call);
    F.FlightKey(k.tenant, k.key, call.request.control != ReadOnly)
  }

  function ReplyOf(answer: G.Answer): F.Reply {
    match answer
    case Replied(body, _) => Ok(body)
    case _ => Err("vendor")
  }

  // ---- Steps of a call ----

  /** What a call does on arrival, before the cache is read. */
  function Begin(call: G.Call, cacheUp: bool, r: nat): Phase {
    var control := call.request.control;
    if control == Bypass || !call.eligible then Asking(call)
    else if !G.WantsStream(call) && !cacheUp then
      if control == CacheOnly then Answered(call, G.NotCached) else Asking(call)
    else if control == WriteOnly then Missing(call)
    else Reading(call, r)
  }

  function AfterMiss(call: G.Call): Phase {
    if call.request.control == CacheOnly then Answered(call, G.NotCached) else Missing(call)
  }

  function OnHit(setup: Setup, call: G.Call, bytes: Bytes): Phase {
    if G.WantsStream(call) then
      match G.OnStreamRead(setup.env, setup.decode(bytes))
      case Some(answer) => Answered(call, answer)
      case None => AfterMiss(call)
    else Answered(call, G.OnPlainRead(setup.env, setup.decode(bytes)))
  }

  function OnFetch(setup: Setup, call: G.Call, reader: C.Reader, fetched: bool): Phase {
    if !fetched then Answered(call, G.Failed)
    else
      match reader
      case Missed(_) => AfterMiss(call)
      case Answered(_, Ok(bytes)) => OnHit(setup, call, bytes)
      case _ => Answered(call, G.Failed)
  }

  function OnWake(call: G.Call, waiter: F.WaiterState, w: nat): Phase {
    match waiter
    case Resolved(_, Ok(body)) => Answered(call, G.Replied(body, None))
    case Waiting(_) => Waiting(call, w)
    case _ => Answered(call, G.Failed)
  }

  ghost predicate Ready(setup: Setup, e: State, a: Action) {
    match a
    case Around(ca) => C.Ready(e.cluster, ca) && !ca.Start?
    case Arrive(id, call, _, r, nowMs) =>
      id !in e.phases && WellFormed(call.request.body) && C.Ready(e.cluster, C.LookUp(r, G.KeyOf(setup.env, call), nowMs))
    case Fetch(id, fetched) =>
      && id in e.phases && e.phases[id].Reading? && e.phases[id].r in e.cluster.readers
      && (fetched ==> !e.cluster.readers[e.phases[id].r].Holding?)
    case Join(id) => id in e.phases && e.phases[id].Missing?
    case Vendor(id, payload) =>
      && id in e.phases && (e.phases[id].Asking? || e.phases[id].Leading?)
      && (payload.Some? ==> G.Produced(setup.env, e.phases[id].call, payload.value))
    case Reserve(id, w, delivered, heard) =>
      && id in e.phases && e.phases[id].Storing? && e.phases[id].call.request.control != ReadOnly
      && C.Ready(e.cluster, StartOf(setup, e.phases[id], w, delivered, heard))
    case Finish(id) => id in e.phases && e.phases[id].Storing?
    case Publish(id) =>
      && id in e.phases && e.phases[id].Finishing?
      && (e.phases[id].flight.Some? ==>
            F.Ready(e.group, F.PublishTake(e.phases[id].flight.value, ReplyOf(e.phases[id].answer))))
    case Send(f) => F.Ready(e.group, F.PublishSend(f))
    case Leave(id) =>
      && id in e.phases && (e.phases[id].Leading? || e.phases[id].Storing? || e.phases[id].Finishing?)
      && e.phases[id].flight.Some? && F.Ready(e.group, F.DropLeader(e.phases[id].flight.value))
    case Poll(id) => id in e.phases && e.phases[id].Waiting? && F.Ready(e.group, F.PollWaiter(e.phases[id].w))
  }

  function StartOf(setup: Setup, phase: Phase, w: nat, delivered: bool, heard: bool): C.Action
    requires phase.Storing?
  {
    C.Start(w, G.KeyOf(setup.env, phase.call), setup.encode(G.Stored(phase.payload)), delivered, heard)
  }

  ghost function DoArrive(setup: Setup, e: State, id: nat, call: G.Call, cacheUp: bool, look: C.Action): State
    requires C.Ready(e.cluster, look) && look.LookUp?
  {
    var phase := Begin(call, cacheUp, look.r);
    if phase.Reading? then e.(cluster := C.Act(setup.hash, e.cluster, look), phases := e.phases[id := phase])
    else e.(phases := e.phases[id := phase])
  }

  function DoJoin(setup: Setup, e: State, id: nat, call: G.Call): State {
    if G.WantsStream(call) then e.(phases := e.phases[id := Leading(call, None)])
    else
      var key := FlightKeyOf(setup, call);
      var group := F.Act(e.group, F.Arrive(key), setup.cap);
      match F.Begin(e.group.shared, key, setup.cap).1
      case Leader(f) =>
        e.(group := group, phases := e.phases[id := Leading(call, Some(f))], flightKeys := e.flightKeys[f := key])
      case Waiter(_) => e.(group := group, phases := e.phases[id := Waiting(call, |e.group.waiters|)])
      case OverCapacity => e.(group := group, phases := e.phases[id := Leading(call, None)])
  }

  function DoVendor(e: State, id: nat, phase: Phase, payload: Option<G.Payload>): State
    requires phase.Asking? || phase.Leading?
  {
    match payload
    case None =>
      e.(phases := e.phases[id := if phase.Asking? then Answered(phase.call, G.Failed)
                                  else Finishing(phase.call, G.Failed, phase.flight)])
    case Some(p) =>
      e.(served := e.served + [G.Served(phase.call, p)],
         phases := e.phases[id := if phase.Asking? then Answered(phase.call, G.Replied(G.BodyOf(p), G.EventsOf(p)))
                                  else Storing(phase.call, p, phase.flight)])
  }

  ghost function Act(setup: Setup, e: State, a: Action): State
    requires Ready(setup, e, a)
  {
    match a
    case Around(ca) => e.(cluster := C.Act(setup.hash, e.cluster, ca))
    case Arrive(id, call, cacheUp, r, nowMs) =>
      DoArrive(setup, e, id, call, cacheUp, C.LookUp(r, G.KeyOf(setup.env, call), nowMs))
    case Fetch(id, fetched) =>
      var phase := e.phases[id];
      e.(phases := e.phases[id := OnFetch(setup, phase.call, e.cluster.readers[phase.r], fetched)])
    case Join(id) => DoJoin(setup, e, id, e.phases[id].call)
    case Vendor(id, payload) => DoVendor(e, id, e.phases[id], payload)
    case Reserve(id, w, delivered, heard) =>
      e.(cluster := C.Act(setup.hash, e.cluster, StartOf(setup, e.phases[id], w, delivered, heard)))
    case Finish(id) =>
      var Storing(call, p, flight) := e.phases[id];
      e.(phases := e.phases[id := Finishing(call, G.Replied(G.BodyOf(p), G.EventsOf(p)), flight)])
    case Publish(id) =>
      var Finishing(call, answer, flight) := e.phases[id];
      e.(group := if flight.Some? then F.Act(e.group, F.PublishTake(flight.value, ReplyOf(answer)), setup.cap) else e.group,
         phases := e.phases[id := Answered(call, answer)])
    case Send(f) => e.(group := F.Act(e.group, F.PublishSend(f), setup.cap))
    case Leave(id) =>
      e.(group := F.Act(e.group, F.DropLeader(e.phases[id].flight.value), setup.cap),
         phases := e.phases[id := Answered(e.phases[id].call, G.Failed)])
    case Poll(id) =>
      var Waiting(call, w) := e.phases[id];
      var group := F.Act(e.group, F.PollWaiter(w), setup.cap);
      e.(group := group, phases := e.phases[id := if w < |group.waiters| then OnWake(call, group.waiters[w], w)
                                                  else Waiting(call, w)])
  }

  ghost predicate Init(e: State) {
    && C.Init(e.cluster) && e.group == F.EMPTY_GROUP
    && e.phases == map[] && e.served == [] && e.flightKeys == map[]
  }

  ghost predicate Step(setup: Setup, e: State, a: Action, e': State) {
    Ready(setup, e, a) && e' == Act(setup, e, a)
  }

  ghost predicate StepAt(setup: Setup, states: seq<State>, actions: seq<Action>, i: nat) {
    i < |actions| && i + 1 < |states| && Step(setup, states[i], actions[i], states[i + 1])
  }

  ghost predicate Run(setup: Setup, states: seq<State>, actions: seq<Action>) {
    && |states| == |actions| + 1 && Init(states[0])
    && forall i :: 0 <= i < |actions| ==> StepAt(setup, states, actions, i)
  }

  /** What is about to be reserved reads back as itself. */
  ghost predicate Faithful(setup: Setup, e: State, a: Action) {
    a.Reserve? && a.id in e.phases && e.phases[a.id].Storing? ==> G.Replayable(setup.env, e.phases[a.id].payload)
  }

  ghost predicate FaithfulRun(setup: Setup, states: seq<State>, actions: seq<Action>) {
    Run(setup, states, actions) && forall i :: 0 <= i < |actions| ==> Faithful(setup, states[i], actions[i])
  }

  // ---- The invariant ----

  /** A grant is for what the vendor produced for a call with that key, and it reads back. */
  ghost predicate Backs(setup: Setup, s: G.Served, g: C.Grant) {
    && G.KeyOf(setup.env, s.call) == g.k && g.bytes == setup.encode(G.Stored(s.payload))
    && G.MayWrite(s.call) && G.Replayable(setup.env, s.payload)
  }

  ghost predicate GrantsServed(setup: Setup, grants: seq<C.Grant>, served: seq<G.Served>) {
    forall g :: g in grants ==> exists s :: s in served && Backs(setup, s, g)
  }

  /** A reply shared under a flight's key is, for every plain call with that key, what the vendor produced. */
  ghost predicate ReplyServed(setup: Setup, served: seq<G.Served>, key: F.FlightKey, reply: F.Reply) {
    reply.Ok? ==> exists s :: s in served && Shares(setup, s, key, reply.value)
  }

  ghost predicate Shares(setup: Setup, s: G.Served, key: F.FlightKey, body: Json) {
    G.KeyOf(setup.env, s.call) == ObjKey(key.tenant, key.cacheKey) && SameUpToOrder(body, G.BodyOf(s.payload))
  }

  ghost predicate LeaderServed(setup: Setup, served: seq<G.Served>, key: F.FlightKey, leader: F.LeaderState) {
    match leader
    case Live(k) => k == key
    case Sending(_, reply) => ReplyServed(setup, served, key, reply)
    case Published(reply) => ReplyServed(setup, served, key, reply)
    case Dropped => true
  }

  ghost predicate FlightsServed(setup: Setup, group: F.Group, served: seq<G.Served>, keys: map<nat, F.FlightKey>) {
    && keys.Keys == group.leaders.Keys
    && forall f :: f in group.leaders ==> f in keys && LeaderServed(setup, served, keys[f], group.leaders[f])
  }

  ghost predicate AnswerServed(setup: Setup, served: seq<G.Served>, call: G.Call, answer: G.Answer) {
    answer.Replied? ==> exists s :: s in served && G.Replays(setup.env, call, answer, s)
  }

  /** The call leads that flight, which was begun for its key. */
  predicate LeadsOwn(setup: Setup, keys: map<nat, F.FlightKey>, call: G.Call, flight: Option<nat>) {
    flight.Some? ==> !G.WantsStream(call) && flight.value in keys && keys[flight.value] == FlightKeyOf(setup, call)
  }

  predicate Cacheable(call: G.Call) {
    call.eligible && call.request.control != CacheOnly && call.request.control != Bypass
  }

  ghost predicate PhaseOk(
    setup: Setup, readers: map<nat, C.Reader>, waiters: seq<F.WaiterState>, served: seq<G.Served>,
    keys: map<nat, F.FlightKey>, phase: Phase)
  {
    && WellFormed(phase.call.request.body)
    && match phase
       case Asking(call) => G.MayAsk(call)
       case Reading(call, r) => call.eligible && call.request.control != Bypass
         && r in readers && readers[r].k == G.KeyOf(setup.env, call)
       case Missing(call) => Cacheable(call)
       case Leading(call, flight) => Cacheable(call) && LeadsOwn(setup, keys, call, flight)
       case Waiting(call, w) =>
         && !G.WantsStream(call) && w < |waiters| && waiters[w].flight in keys
         && keys[waiters[w].flight] == FlightKeyOf(setup, call)
       case Storing(call, p, flight) =>
         && Cacheable(call) && LeadsOwn(setup, keys, call, flight)
         && G.Served(call, p) in served && G.Produced(setup.env, call, p)
       case Finishing(call, answer, flight) =>
         LeadsOwn(setup, keys, call, flight) && AnswerServed(setup, served, call, answer)
       case Answered(call, answer) => AnswerServed(setup, served, call, answer)
  }

  ghost predicate PhasesOk(setup: Setup, e: State) {
    forall id :: id in e.phases ==>
      PhaseOk(setup, e.cluster.readers, e.group.waiters, e.served, e.flightKeys, e.phases[id])
  }

  ghost predicate ServedOk(setup: Setup, served: seq<G.Served>) {
    forall s :: s in served ==> G.ServedOk(setup.env, s)
  }

  ghost predicate Inv(setup: Setup, e: State) {
    && S.Safe(setup.hash, e.cluster) && F.Inv(e.group, setup.cap)
    && GrantsServed(setup, e.cluster.grants, e.served)
    && FlightsServed(setup, e.group, e.served, e.flightKeys)
    && ServedOk(setup, e.served) && PhasesOk(setup, e)
  }

  // ---- What grows stays true ----

  predicate Within(served: seq<G.Served>, more: seq<G.Served>) {
    forall s :: s in served ==> s in more
  }

  predicate KeysGrow(keys: map<nat, F.FlightKey>, more: map<nat, F.FlightKey>) {
    forall f :: f in keys ==> f in more && more[f] == keys[f]
  }

  predicate ReadersKeep(readers: map<nat, C.Reader>, later: map<nat, C.Reader>) {
    forall r :: r in readers ==> r in later && later[r].k == readers[r].k
  }

  predicate WaitersKeep(waiters: seq<F.WaiterState>, later: seq<F.WaiterState>) {
    |waiters| <= |later| && forall w :: 0 <= w < |waiters| ==> later[w].flight == waiters[w].flight
  }

  lemma AnswerSurvives(setup: Setup, served: seq<G.Served>, more: seq<G.Served>, call: G.Call, answer: G.Answer)
    requires AnswerServed(setup, served, call, answer) && Within(served, more)
    ensures AnswerServed(setup, more, call, answer)
  {
    if answer.Replied? {
      var s :| s in served && G.Replays(setup.env, call, answer, s);
      assert s in more;
    }
  }

  lemma PhaseSurvives(setup: Setup, e: State, e': State, phase: Phase)
    requires PhaseOk(setup, e.cluster.readers, e.group.waiters, e.served, e.flightKeys, phase)
    requires ReadersKeep(e.cluster.readers, e'.cluster.readers) && WaitersKeep(e.group.waiters, e'.group.waiters)
    requires Within(e.served, e'.served) && KeysGrow(e.flightKeys, e'.flightKeys)
    ensures PhaseOk(setup, e'.cluster.readers, e'.group.waiters, e'.served, e'.flightKeys, phase)
  {
    if phase.Finishing? || phase.Answered? {
      AnswerSurvives(setup, e.served, e'.served, phase.call, phase.answer);
    }
  }

  /** One call moved on; everything the others rely on has only grown. */
  lemma PhasesSurvive(setup: Setup, e: State, e': State, moved: set<nat>)
    requires PhasesOk(setup, e)
    requires ReadersKeep(e.cluster.readers, e'.cluster.readers) && WaitersKeep(e.group.waiters, e'.group.waiters)
    requires Within(e.served, e'.served) && KeysGrow(e.flightKeys, e'.flightKeys)
    requires forall id :: id in e'.phases && id !in moved ==> id in e.phases && e'.phases[id] == e.phases[id]
    requires forall id :: id in moved && id in e'.phases ==>
      PhaseOk(setup, e'.cluster.readers, e'.group.waiters, e'.served, e'.flightKeys, e'.phases[id])
    ensures PhasesOk(setup, e')
  {
    forall id | id in e'.phases
      ensures PhaseOk(setup, e'.cluster.readers, e'.group.waiters, e'.served, e'.flightKeys, e'.phases[id])
    {
      if id !in moved {
        PhaseSurvives(setup, e, e', e.phases[id]);
      }
    }
  }

  lemma GrantsSurvive(setup: Setup, grants: seq<C.Grant>, served: seq<G.Served>, more: seq<G.Served>)
    requires GrantsServed(setup, grants, served) && Within(served, more)
    ensures GrantsServed(setup, grants, more)
  {
    forall g | g in grants ensures exists s :: s in more && Backs(setup, s, g) {
      var s :| s in served && Backs(setup, s, g);
      assert s in more;
    }
  }

  lemma ReplySurvives(setup: Setup, served: seq<G.Served>, more: seq<G.Served>, key: F.FlightKey, reply: F.Reply)
    requires ReplyServed(setup, served, key, reply) && Within(served, more)
    ensures ReplyServed(setup, more, key, reply)
  {
    if reply.Ok? {
      var s :| s in served && Shares(setup, s, key, reply.value);
      assert s in more;
    }
  }

  lemma FlightsSurvive(setup: Setup, group: F.Group, served: seq<G.Served>, more: seq<G.Served>, keys: map<nat, F.FlightKey>)
    requires FlightsServed(setup, group, served, keys) && Within(served, more)
    ensures FlightsServed(setup, group, more, keys)
  {
    forall f | f in group.leaders ensures f in keys && LeaderServed(setup, more, keys[f], group.leaders[f]) {
      match group.leaders[f] {
        case Sending(_, reply) => ReplySurvives(setup, served, more, keys[f], reply);
        case Published(reply) => ReplySurvives(setup, served, more, keys[f], reply);
        case _ =>
      }
    }
  }

  // ---- Steps of the cluster ----

  lemma ClusterStep(hash: Hash, c: C.Cluster, a: C.Action)
    requires C.Ready(c, a)
    ensures ReadersKeep(c.readers, C.Act(hash, c, a).readers)
    ensures a.LookUp? ==> a.r in C.Act(hash, c, a).readers && C.Act(hash, c, a).readers[a.r].k == a.k
    ensures !a.Start? ==> C.Act(hash, c, a).grants == c.grants
    ensures a.Start? ==> forall g :: g in C.Act(hash, c, a).grants ==> g in c.grants || (g.k == a.k && g.bytes == a.bytes)
  {
  }

  lemma AroundKeepsInv(setup: Setup, e: State, a: C.Action)
    requires Inv(setup, e) && C.Ready(e.cluster, a) && !a.Start?
    ensures Inv(setup, e.(cluster := C.Act(setup.hash, e.cluster, a)))
  {
    var e' := e.(cluster := C.Act(setup.hash, e.cluster, a));
    S.ActionIsSafe(setup.hash, e.cluster, a);
    ClusterStep(setup.hash, e.cluster, a);
    PhasesSurvive(setup, e, e', {});
  }

  lemma MoveKeepsInv(setup: Setup, e: State, id: nat, phase: Phase)
    requires Inv(setup, e) && PhaseOk(setup, e.cluster.readers, e.group.waiters, e.served, e.flightKeys, phase)
    ensures Inv(setup, e.(phases := e.phases[id := phase]))
  {
    PhasesSurvive(setup, e, e.(phases := e.phases[id := phase]), {id});
  }

  lemma ArriveKeepsInv(setup: Setup, e: State, id: nat, call: G.Call, cacheUp: bool, look: C.Action)
    requires Inv(setup, e) && C.Ready(e.cluster, look) && look.LookUp? && look.k == G.KeyOf(setup.env, call)
    requires WellFormed(call.request.body)
    ensures Inv(setup, DoArrive(setup, e, id, call, cacheUp, look))
  {
    var phase := Begin(call, cacheUp, look.r);
    if phase.Reading? {
      LookUpKeepsInv(setup, e, id, call, look);
    } else {
      ArrivedPhaseOk(setup, e, call, phase);
      MoveKeepsInv(setup, e, id, phase);
    }
  }

  lemma ArrivedPhaseOk(setup: Setup, e: State, call: G.Call, phase: Phase)
    requires WellFormed(call.request.body)
    requires phase == Asking(call) || phase == Missing(call) || phase == Answered(call, G.NotCached)
    requires phase.Asking? ==> G.MayAsk(call)
    requires phase.Missing? ==> Cacheable(call)
    ensures PhaseOk(setup, e.cluster.readers, e.group.waiters, e.served, e.flightKeys, phase)
  {
  }

  lemma LookUpKeepsInv(setup: Setup, e: State, id: nat, call: G.Call, look: C.Action)
    requires Inv(setup, e) && C.Ready(e.cluster, look) && look.LookUp? && look.k == G.KeyOf(setup.env, call)
    requires WellFormed(call.request.body) && call.eligible && call.request.control != Bypass
    ensures Inv(setup, e.(cluster := C.Act(setup.hash, e.cluster, look), phases := e.phases[id := Reading(call, look.r)]))
  {
    var c' := C.Act(setup.hash, e.cluster, look);
    AroundKeepsInv(setup, e, look);
    ClusterStep(setup.hash, e.cluster, look);
    MoveKeepsInv(setup, e.(cluster := c'), id, Reading(call, look.r));
  }

  /** A new reservation is for what the vendor produced for its call. */
  lemma ReserveKeepsInv(setup: Setup, e: State, phase: Phase, start: C.Action)
    requires Inv(setup, e) && C.Ready(e.cluster, start) && start.Start?
    requires phase.Storing? && phase.call.request.control != ReadOnly && G.Replayable(setup.env, phase.payload)
    requires PhaseOk(setup, e.cluster.readers, e.group.waiters, e.served, e.flightKeys, phase)
    requires start.k == G.KeyOf(setup.env, phase.call) && start.bytes == setup.encode(G.Stored(phase.payload))
    ensures Inv(setup, e.(cluster := C.Act(setup.hash, e.cluster, start)))
  {
    var c' := C.Act(setup.hash, e.cluster, start);
    S.ActionIsSafe(setup.hash, e.cluster, start);
    ClusterStep(setup.hash, e.cluster, start);
    NewGrantServed(setup, e.cluster.grants, c'.grants, e.served, G.Served(phase.call, phase.payload), start.k, start.bytes);
    PhasesSurvive(setup, e, e.(cluster := c'), {});
  }

  lemma NewGrantServed(
    setup: Setup, grants: seq<C.Grant>, grants': seq<C.Grant>, served: seq<G.Served>, s: G.Served, k: ObjKey, bytes: Bytes)
    requires GrantsServed(setup, grants, served) && s in served
    requires G.KeyOf(setup.env, s.call) == k && bytes == setup.encode(G.Stored(s.payload))
    requires G.MayWrite(s.call) && G.Replayable(setup.env, s.payload)
    requires forall g :: g in grants' ==> g in grants || (g.k == k && g.bytes == bytes)
    ensures GrantsServed(setup, grants', served)
  {
    forall g | g in grants' ensures exists q :: q in served && Backs(setup, q, g) {
      if g !in grants {
        assert Backs(setup, s, g);
      }
    }
  }

  // ---- Reading ----

  /** A hit is the vendor's reply to a call with the same key. */
  lemma HitIsServed(setup: Setup, served: seq<G.Served>, call: G.Call, s: G.Served)
    requires Sound(setup.env.codec) && ServedOk(setup, served) && s in served
    requires G.KeyOf(setup.env, s.call) == G.KeyOf(setup.env, call) && G.Replayable(setup.env, s.payload)
    ensures !G.WantsStream(call) ==> AnswerServed(setup, served, call, G.OnPlainRead(setup.env, G.Stored(s.payload)))
    ensures G.WantsStream(call) ==>
      var answer := G.OnStreamRead(setup.env, G.Stored(s.payload));
      answer.Some? ==> AnswerServed(setup, served, call, answer.value)
  {
    G.HitReplays(setup.env, call, s);
  }

  /** The phase after a hit, given the text read and where it came from. */
  lemma TextPhaseOk(setup: Setup, e: State, call: G.Call, bytes: Bytes, s: G.Served)
    requires Sound(setup.env.codec) && ServedOk(setup, e.served) && s in e.served
    requires G.KeyOf(setup.env, s.call) == G.KeyOf(setup.env, call) && G.Replayable(setup.env, s.payload)
    requires setup.decode(bytes) == G.Stored(s.payload)
    requires WellFormed(call.request.body) && call.eligible && call.request.control != Bypass
    ensures PhaseOk(setup, e.cluster.readers, e.group.waiters, e.served, e.flightKeys, OnHit(setup, call, bytes))
  {
    HitIsServed(setup, e.served, call, s);
  }

  lemma HitPhaseOk(setup: Setup, e: State, call: G.Call, bytes: Bytes, g: C.Grant)
    requires Sound(setup.env.codec) && Encodes(setup) && ServedOk(setup, e.served)
    requires GrantsServed(setup, e.cluster.grants, e.served)
    requires g in e.cluster.grants && g.k == G.KeyOf(setup.env, call) && g.bytes == bytes
    requires WellFormed(call.request.body) && call.eligible && call.request.control != Bypass
    ensures PhaseOk(setup, e.cluster.readers, e.group.waiters, e.served, e.flightKeys, OnHit(setup, call, bytes))
  {
    var s := GrantOrigin(setup, e.cluster.grants, e.served, g);
    TextPhaseOk(setup, e, call, bytes, s);
  }

  lemma GrantOrigin(setup: Setup, grants: seq<C.Grant>, served: seq<G.Served>, g: C.Grant) returns (s: G.Served)
    requires Encodes(setup) && GrantsServed(setup, grants, served) && g in grants
    ensures s in served && G.KeyOf(setup.env, s.call) == g.k && G.Replayable(setup.env, s.payload)
    ensures setup.decode(g.bytes) == G.Stored(s.payload)
  {
    s :| s in served && Backs(setup, s, g);
  }

  lemma FetchedPhaseOk(setup: Setup, e: State, call: G.Call, reader: C.Reader, fetched: bool)
    requires Sound(setup.env.codec) && Encodes(setup) && ServedOk(setup, e.served)
    requires GrantsServed(setup, e.cluster.grants, e.served)
    requires S.ReaderOk(setup.hash, e.cluster, reader) && reader.k == G.KeyOf(setup.env, call)
    requires WellFormed(call.request.body) && call.eligible && call.request.control != Bypass
    ensures PhaseOk(setup, e.cluster.readers, e.group.waiters, e.served, e.flightKeys, OnFetch(setup, call, reader, fetched))
  {
    if fetched && reader.Answered? && reader.result.Ok? {
      var g := AnsweredGrant(setup.hash, e.cluster, reader);
      HitPhaseOk(setup, e, call, reader.result.value, g);
    }
  }

  lemma FetchKeepsInv(setup: Setup, e: State, id: nat, call: G.Call, r: nat, fetched: bool)
    requires Sound(setup.env.codec) && Encodes(setup) && Inv(setup, e) && r in e.cluster.readers
    requires PhaseOk(setup, e.cluster.readers, e.group.waiters, e.served, e.flightKeys, Reading(call, r))
    ensures Inv(setup, e.(phases := e.phases[id := OnFetch(setup, call, e.cluster.readers[r], fetched)]))
  {
    assert S.ReaderOk(setup.hash, e.cluster, e.cluster.readers[r]);
    FetchedPhaseOk(setup, e, call, e.cluster.readers[r], fetched);
    MoveKeepsInv(setup, e, id, OnFetch(setup, call, e.cluster.readers[r], fetched));
  }

  lemma AnsweredGrant(hash: Hash, c: C.Cluster, reader: C.Reader) returns (g: C.Grant)
    requires S.ReaderOk(hash, c, reader) && reader.Answered? && reader.result.Ok?
    ensures g in c.grants && g.k == reader.k && g.bytes == reader.result.value
  {
    g :| g in c.grants && g.k == reader.k && g.bytes == reader.result.value && S.Written(hash, c, g);
  }

  // ---- The vendor ----

  lemma ServeKeepsInv(setup: Setup, e: State, s: G.Served)
    requires Inv(setup, e) && G.ServedOk(setup.env, s)
    ensures Inv(setup, e.(served := e.served + [s]))
  {
    var e' := e.(served := e.served + [s]);
    GrantsSurvive(setup, e.cluster.grants, e.served, e'.served);
    FlightsSurvive(setup, e.group, e.served, e'.served, e.flightKeys);
    PhasesSurvive(setup, e, e', {});
  }

  lemma ProducedReplays(setup: Setup, call: G.Call, p: G.Payload, served: seq<G.Served>)
    requires Sound(setup.env.codec) && G.Produced(setup.env, call, p) && G.Served(call, p) in served
    ensures AnswerServed(setup, served, call, G.Replied(G.BodyOf(p), G.EventsOf(p)))
  {
    G.ProducedIsWellFormed(setup.env, call, p);
    assert G.Replays(setup.env, call, G.Replied(G.BodyOf(p), G.EventsOf(p)), G.Served(call, p));
  }

  lemma VendorKeepsInv(setup: Setup, e: State, id: nat, phase: Phase, payload: Option<G.Payload>)
    requires Sound(setup.env.codec) && Inv(setup, e) && (phase.Asking? || phase.Leading?)
    requires PhaseOk(setup, e.cluster.readers, e.group.waiters, e.served, e.flightKeys, phase)
    requires payload.Some? ==> G.Produced(setup.env, phase.call, payload.value)
    ensures Inv(setup, DoVendor(e, id, phase, payload))
  {
    var phase' := DoVendor(e, id, phase, payload).phases[id];
    match payload {
      case None => MoveKeepsInv(setup, e, id, phase');
      case Some(p) =>
        var e' := e.(served := e.served + [G.Served(phase.call, p)]);
        ServeKeepsInv(setup, e, G.Served(phase.call, p));
        assert G.Served(phase.call, p) in e'.served;
        ProducedReplays(setup, phase.call, p, e'.served);
        MoveKeepsInv(setup, e', id, phase');
    }
  }

  lemma FinishKeepsInv(setup: Setup, e: State, id: nat, phase: Phase)
    requires Sound(setup.env.codec) && Inv(setup, e) && phase.Storing?
    requires PhaseOk(setup, e.cluster.readers, e.group.waiters, e.served, e.flightKeys, phase)
    ensures var answer := G.Replied(G.BodyOf(phase.payload), G.EventsOf(phase.payload));
      Inv(setup, e.(phases := e.phases[id := Finishing(phase.call, answer, phase.flight)]))
  {
    var answer := G.Replied(G.BodyOf(phase.payload), G.EventsOf(phase.payload));
    ProducedReplays(setup, phase.call, phase.payload, e.served);
    MoveKeepsInv(setup, e, id, Finishing(phase.call, answer, phase.flight));
  }

  // ---- Flights ----

  /** A step of the group that changes at most one leader and appends or advances waiters. */
  lemma GroupKeepsInv(setup: Setup, e: State, group: F.Group, keys: map<nat, F.FlightKey>, f: nat)
    requires Inv(setup, e) && F.Inv(group, setup.cap) && KeysGrow(e.flightKeys, keys) && WaitersKeep(e.group.waiters, group.waiters)
    requires forall h :: h in group.leaders && h != f ==> h in e.group.leaders && group.leaders[h] == e.group.leaders[h]
    requires keys.Keys == group.leaders.Keys
    requires f in group.leaders ==> f in keys && LeaderServed(setup, e.served, keys[f], group.leaders[f])
    ensures Inv(setup, e.(group := group, flightKeys := keys))
  {
    PhasesSurvive(setup, e, e.(group := group, flightKeys := keys), {});
  }

  /** What joining does to a group: a new leader for the key, or a waiter on the leader of that very key. */
  lemma JoinStep(g: F.Group, key: F.FlightKey, cap: nat)
    requires F.Inv(g, cap)
    ensures var (begun, g') := (F.Begin(g.shared, key, cap).1, F.Act(g, F.Arrive(key), cap));
      && F.Inv(g', cap)
      && match begun
         case Leader(f) => g'.waiters == g.waiters && f !in g.leaders && g'.leaders == g.leaders[f := F.Live(key)]
         case Waiter(f) =>
           g'.leaders == g.leaders && g'.waiters == g.waiters + [F.Waiting(f)] && f in g.leaders && g.leaders[f] == F.Live(key)
         case OverCapacity => g' == g
  {
    F.ActionKeepsInv(g, F.Arrive(key), cap);
  }

  lemma LeadKeepsInv(setup: Setup, e: State, id: nat, call: G.Call, group: F.Group, f: nat)
    requires Inv(setup, e) && F.Inv(group, setup.cap) && group.waiters == e.group.waiters
    requires Cacheable(call) && WellFormed(call.request.body) && !G.WantsStream(call)
    requires f !in e.group.leaders && group.leaders == e.group.leaders[f := F.Live(FlightKeyOf(setup, call))]
    ensures Inv(setup, e.(group := group, phases := e.phases[id := Leading(call, Some(f))],
                          flightKeys := e.flightKeys[f := FlightKeyOf(setup, call)]))
  {
    var keys := e.flightKeys[f := FlightKeyOf(setup, call)];
    GroupKeepsInv(setup, e, group, keys, f);
    MoveKeepsInv(setup, e.(group := group, flightKeys := keys), id, Leading(call, Some(f)));
  }

  lemma WaitKeepsInv(setup: Setup, e: State, id: nat, call: G.Call, group: F.Group, f: nat)
    requires Inv(setup, e) && F.Inv(group, setup.cap) && group.waiters == e.group.waiters + [F.Waiting(f)]
    requires Cacheable(call) && WellFormed(call.request.body) && !G.WantsStream(call)
    requires f in e.group.leaders && e.group.leaders[f] == F.Live(FlightKeyOf(setup, call)) && group.leaders == e.group.leaders
    ensures Inv(setup, e.(group := group, phases := e.phases[id := Waiting(call, |e.group.waiters|)]))
  {
    assert LeaderServed(setup, e.served, e.flightKeys[f], e.group.leaders[f]);
    GroupKeepsInv(setup, e, group, e.flightKeys, f);
    MoveKeepsInv(setup, e.(group := group), id, Waiting(call, |e.group.waiters|));
  }

  lemma JoinKeepsInv(setup: Setup, e: State, id: nat, call: G.Call)
    requires Inv(setup, e) && Cacheable(call) && WellFormed(call.request.body)
    ensures Inv(setup, DoJoin(setup, e, id, call))
  {
    if G.WantsStream(call) {
      MoveKeepsInv(setup, e, id, Leading(call, None));
    } else {
      var key := FlightKeyOf(setup, call);
      var group := F.Act(e.group, F.Arrive(key), setup.cap);
      JoinStep(e.group, key, setup.cap);
      match F.Begin(e.group.shared, key, setup.cap).1 {
        case Leader(f) => LeadKeepsInv(setup, e, id, call, group, f);
        case Waiter(f) => WaitKeepsInv(setup, e, id, call, group, f);
        case OverCapacity => MoveKeepsInv(setup, e, id, Leading(call, None));
      }
    }
  }

  /** What the leader's own steps do to a group. */
  lemma LeaderStep(g: F.Group, a: F.Action, f: nat, cap: nat)
    requires F.Inv(g, cap) && F.Ready(g, a)
    requires a == F.PublishSend(f) || a == F.DropLeader(f) || (a.PublishTake? && a.f == f)
    ensures var g' := F.Act(g, a, cap);
      && F.Inv(g', cap) && g'.waiters == g.waiters && f in g.leaders && g'.leaders == g.leaders[f := g'.leaders[f]]
      && match a
         case PublishTake(_, reply) => g.leaders[f].Live? && g'.leaders[f].Sending? && g'.leaders[f].reply == reply
         case PublishSend(_) => g.leaders[f].Sending? && g'.leaders[f] == F.Published(g.leaders[f].reply)
         case _ => g'.leaders[f] == F.Dropped
  {
    F.ActionKeepsInv(g, a, cap);
  }

  /** A leader's answer is good for everyone with its key. */
  lemma AnswerIsShared(setup: Setup, served: seq<G.Served>, call: G.Call, answer: G.Answer)
    requires AnswerServed(setup, served, call, answer) && !G.WantsStream(call)
    ensures ReplyServed(setup, served, FlightKeyOf(setup, call), ReplyOf(answer))
  {
    if answer.Replied? {
      var s :| s in served && G.Replays(setup.env, call, answer, s);
      assert Shares(setup, s, FlightKeyOf(setup, call), answer.body);
    }
  }

  lemma SharedIsAnswer(setup: Setup, served: seq<G.Served>, call: G.Call, body: Json)
    requires ReplyServed(setup, served, FlightKeyOf(setup, call), Ok(body)) && !G.WantsStream(call)
    ensures AnswerServed(setup, served, call, G.Replied(body, None))
  {
    var s :| s in served && Shares(setup, s, FlightKeyOf(setup, call), body);
    assert G.Replays(setup.env, call, G.Replied(body, None), s);
  }

  lemma LeaderKeepsInv(setup: Setup, e: State, a: F.Action, f: nat)
    requires Inv(setup, e) && F.Ready(e.group, a) && f in e.flightKeys
    requires a == F.PublishSend(f) || a == F.DropLeader(f) || (a.PublishTake? && a.f == f)
    requires a.PublishTake? ==> ReplyServed(setup, e.served, e.flightKeys[f], a.reply)
    ensures Inv(setup, e.(group := F.Act(e.group, a, setup.cap)))
  {
    LeaderStep(e.group, a, f, setup.cap);
    assert LeaderServed(setup, e.served, e.flightKeys[f], e.group.leaders[f]);
    GroupKeepsInv(setup, e, F.Act(e.group, a, setup.cap), e.flightKeys, f);
  }

  lemma PublishKeepsInv(setup: Setup, e: State, id: nat, phase: Phase)
    requires Inv(setup, e) && phase.Finishing?
    requires PhaseOk(setup, e.cluster.readers, e.group.waiters, e.served, e.flightKeys, phase)
    requires phase.flight.Some? ==> F.Ready(e.group, F.PublishTake(phase.flight.value, ReplyOf(phase.answer)))
    ensures var group := if phase.flight.Some?
        then F.Act(e.group, F.PublishTake(phase.flight.value, ReplyOf(phase.answer)), setup.cap) else e.group;
      Inv(setup, e.(group := group, phases := e.phases[id := Answered(phase.call, phase.answer)]))
  {
    var e' := e;
    if phase.flight.Some? {
      AnswerIsShared(setup, e.served, phase.call, phase.answer);
      LeaderKeepsInv(setup, e, F.PublishTake(phase.flight.value, ReplyOf(phase.answer)), phase.flight.value);
      e' := e.(group := F.Act(e.group, F.PublishTake(phase.flight.value, ReplyOf(phase.answer)), setup.cap));
    }
    MoveKeepsInv(setup, e', id, Answered(phase.call, phase.answer));
  }

  /** A waiter's turn: what it is resolved with is what its flight's leader published. */
  lemma WakeStep(g: F.Group, w: nat, cap: nat)
    requires F.Inv(g, cap) && F.Ready(g, F.PollWaiter(w))
    ensures var g' := F.Act(g, F.PollWaiter(w), cap);
      && F.Inv(g', cap) && g'.leaders == g.leaders && |g'.waiters| == |g.waiters| && WaitersKeep(g.waiters, g'.waiters)
      && (g'.waiters[w].Resolved? ==>
            g.waiters[w].flight in g.leaders && g.leaders[g.waiters[w].flight] == F.Published(g'.waiters[w].reply))
  {
    F.ActionKeepsInv(g, F.PollWaiter(w), cap);
    var g' := F.Act(g, F.PollWaiter(w), cap);
    assert F.WaiterTrue(g', g'.waiters[w]);
  }

  lemma PollKeepsInv(setup: Setup, e: State, id: nat, call: G.Call, w: nat)
    requires Inv(setup, e) && F.Ready(e.group, F.PollWaiter(w))
    requires PhaseOk(setup, e.cluster.readers, e.group.waiters, e.served, e.flightKeys, Waiting(call, w))
    ensures var group := F.Act(e.group, F.PollWaiter(w), setup.cap);
      w < |group.waiters| && Inv(setup, e.(group := group, phases := e.phases[id := OnWake(call, group.waiters[w], w)]))
  {
    var group := F.Act(e.group, F.PollWaiter(w), setup.cap);
    WakeStep(e.group, w, setup.cap);
    GroupKeepsInv(setup, e, group, e.flightKeys, e.group.waiters[w].flight);
    WokenPhaseOk(setup, e, call, w, group);
    MoveKeepsInv(setup, e.(group := group), id, OnWake(call, group.waiters[w], w));
  }

  lemma WokenPhaseOk(setup: Setup, e: State, call: G.Call, w: nat, group: F.Group)
    requires FlightsServed(setup, e.group, e.served, e.flightKeys) && WaitersKeep(e.group.waiters, group.waiters)
    requires PhaseOk(setup, e.cluster.readers, e.group.waiters, e.served, e.flightKeys, Waiting(call, w))
    requires group.waiters[w].Resolved? ==>
      e.group.waiters[w].flight in e.group.leaders
      && e.group.leaders[e.group.waiters[w].flight] == F.Published(group.waiters[w].reply)
    ensures PhaseOk(setup, e.cluster.readers, group.waiters, e.served, e.flightKeys, OnWake(call, group.waiters[w], w))
  {
    var f := e.group.waiters[w].flight;
    match group.waiters[w] {
      case Resolved(_, Ok(body)) =>
        assert LeaderServed(setup, e.served, e.flightKeys[f], e.group.leaders[f]);
        SharedIsAnswer(setup, e.served, call, body);
      case _ =>
    }
  }

  // ---- Runs ----

  lemma LeaveKeepsInv(setup: Setup, e: State, id: nat, phase: Phase, f: nat)
    requires Inv(setup, e) && F.Ready(e.group, F.DropLeader(f)) && WellFormed(phase.call.request.body)
    ensures Inv(setup, e.(group := F.Act(e.group, F.DropLeader(f), setup.cap),
                          phases := e.phases[id := Answered(phase.call, G.Failed)]))
  {
    LeaderKeepsInv(setup, e, F.DropLeader(f), f);
    MoveKeepsInv(setup, e.(group := F.Act(e.group, F.DropLeader(f), setup.cap)), id, Answered(phase.call, G.Failed));
  }

  lemma CallKeepsInv(setup: Setup, e: State, a: Action)
    requires Sound(setup.env.codec) && Encodes(setup) && Inv(setup, e) && Ready(setup, e, a) && Faithful(setup, e, a)
    requires a.Fetch? || a.Join? || a.Vendor? || a.Reserve? || a.Finish?
    ensures Inv(setup, Act(setup, e, a))
  {
    var phase := e.phases[a.id];
    assert PhaseOk(setup, e.cluster.readers, e.group.waiters, e.served, e.flightKeys, phase);
    match a {
      case Fetch(id, fetched) => FetchKeepsInv(setup, e, id, phase.call, phase.r, fetched);
      case Join(id) => JoinKeepsInv(setup, e, id, phase.call);
      case Vendor(id, payload) => VendorKeepsInv(setup, e, id, phase, payload);
      case Reserve(id, w, delivered, heard) => ReserveKeepsInv(setup, e, phase, StartOf(setup, phase, w, delivered, heard));
      case Finish(id) => FinishKeepsInv(setup, e, id, phase);
    }
  }

  lemma FlightKeepsInv(setup: Setup, e: State, a: Action)
    requires Inv(setup, e) && Ready(setup, e, a) && (a.Publish? || a.Leave? || a.Poll?)
    ensures Inv(setup, Act(setup, e, a))
  {
    var phase := e.phases[a.id];
    assert PhaseOk(setup, e.cluster.readers, e.group.waiters, e.served, e.flightKeys, phase);
    match a {
      case Publish(id) => PublishKeepsInv(setup, e, id, phase);
      case Leave(id) => LeaveKeepsInv(setup, e, id, phase, phase.flight.value);
      case Poll(id) => PollKeepsInv(setup, e, id, phase.call, phase.w);
    }
  }

  lemma SendKeepsInv(setup: Setup, e: State, f: nat)
    requires Inv(setup, e) && F.Ready(e.group, F.PublishSend(f))
    ensures Inv(setup, e.(group := F.Act(e.group, F.PublishSend(f), setup.cap)))
  {
    LeaderKeepsInv(setup, e, F.PublishSend(f), f);
  }

  lemma ActionKeepsInv(setup: Setup, e: State, a: Action)
    requires Sound(setup.env.codec) && Encodes(setup) && Inv(setup, e) && Ready(setup, e, a) && Faithful(setup, e, a)
    ensures Inv(setup, Act(setup, e, a))
  {
    match a {
      case Around(ca) => AroundKeepsInv(setup, e, ca);
      case Arrive(id, call, cacheUp, r, nowMs) =>
        ArriveKeepsInv(setup, e, id, call, cacheUp, C.LookUp(r, G.KeyOf(setup.env, call), nowMs));
      case Send(f) => SendKeepsInv(setup, e, f);
      case Publish(_) => FlightKeepsInv(setup, e, a);
      case Leave(_) => FlightKeepsInv(setup, e, a);
      case Poll(_) => FlightKeepsInv(setup, e, a);
      case _ => CallKeepsInv(setup, e, a);
    }
  }

  lemma InitKeepsInv(setup: Setup, e: State)
    requires Init(e)
    ensures Inv(setup, e)
  {
    S.InitIsSafe(setup.hash, e.cluster);
  }

  lemma {:induction false} RunsKeepInv(setup: Setup, states: seq<State>, actions: seq<Action>, j: nat)
    requires Sound(setup.env.codec) && Encodes(setup) && FaithfulRun(setup, states, actions) && j < |states|
    ensures Inv(setup, states[j])
    decreases j
  {
    if j > 0 {
      RunsKeepInv(setup, states, actions, j - 1);
      assert StepAt(setup, states, actions, j - 1);
      ActionKeepsInv(setup, states[j - 1], actions[j - 1]);
    } else {
      InitKeepsInv(setup, states[0]);
    }
  }

  /**
   * From an empty cluster, in every interleaving of calls, writers, readers, flights, evictions, revocations, removals and
   * lost messages in which what is reserved reads back: whatever a call is answered with, by the vendor, the store or
   * another caller's flight, is what the vendor produced for the same request of the same tenant (or for one whose
   * fingerprint text collides under the digest), and a streaming caller gets that reply's events.
   */
  lemma AnswersAreTheVendors(setup: Setup, states: seq<State>, actions: seq<Action>, j: nat, id: nat) returns (s: G.Served)
    requires Sound(setup.env.codec) && Encodes(setup) && FaithfulRun(setup, states, actions) && j < |states|
    requires id in states[j].phases && states[j].phases[id].Answered? && states[j].phases[id].answer.Replied?
    ensures var Answered(call, answer) := states[j].phases[id];
      && s in states[j].served && s.call.request.tenantId == call.request.tenantId
      && SameUpToOrder(answer.body, G.BodyOf(s.payload))
      && answer.events == (if G.WantsStream(call) then G.EventsOf(s.payload) else None)
      && (G.WantsStream(call) <==> answer.events.Some?)
      && (SameRequest(s.call.request, call.request)
          || (FingerprintText(s.call.request) != FingerprintText(call.request)
              && setup.env.hash(FingerprintText(s.call.request)) == setup.env.hash(FingerprintText(call.request))))
  {
    RunsKeepInv(setup, states, actions, j);
    var e := states[j];
    var call, answer := e.phases[id].call, e.phases[id].answer;
    assert PhaseOk(setup, e.cluster.readers, e.group.waiters, e.served, e.flightKeys, e.phases[id]);
    s := AnswerOrigin(setup, e.served, call, answer);
  }

  lemma AnswerOrigin(setup: Setup, served: seq<G.Served>, call: G.Call, answer: G.Answer) returns (s: G.Served)
    requires ServedOk(setup, served) && AnswerServed(setup, served, call, answer) && answer.Replied?
    requires WellFormed(call.request.body)
    ensures s in served && G.Replays(setup.env, call, answer, s)
    ensures s.call.request.tenantId == call.request.tenantId
    ensures SameRequest(s.call.request, call.request)
      || (FingerprintText(s.call.request) != FingerprintText(call.request)
          && setup.env.hash(FingerprintText(s.call.request)) == setup.env.hash(FingerprintText(call.request)))
  {
    s :| s in served && G.Replays(setup.env, call, answer, s);
    assert G.ServedOk(setup.env, s);
    KeysDifferUnlessHashCollides(setup.env.hash, s.call.request, call.request);
  }
}
