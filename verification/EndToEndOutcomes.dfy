/** Where each step of the joint run takes a call: which calls are answered from the store, coalesced, or go to the vendor. */
module EndToEndOutcomes {
  import opened Types
  import opened Objects
  import opened JsonText
  import opened JsonCodec
  import opened Store
  import opened Streaming
  import opened Fingerprint
  import opened GatewayOutcomes
  import opened EndToEnd
  import C = Cluster
  import S = ClusterSafety
  import F = Singleflight
  import G = Gateway

  // ---- What each step does ----

  /** Where a call may be after its arrival, each place for exactly these calls. */
  ghost predicate CallArrives(setup: Setup, e: State, a: Action, e': State)
    requires a.Arrive?
  {
    var Arrive(id, call, cacheUp, r, nowMs) := a;
    && id !in e.phases && id in e'.phases && e' == e.(cluster := e'.cluster, phases := e.phases[id := e'.phases[id]])
    && var phase := e'.phases[id];
       && phase.call == call
       && (phase.Asking? <==>
             !call.eligible || call.request.control == Bypass
             || (!CanUse(call, cacheUp) && call.request.control != CacheOnly))
       && (phase.Answered? <==> call.eligible && call.request.control == CacheOnly && !CanUse(call, cacheUp))
       && (phase.Answered? ==> phase.answer == G.NotCached)
       && (phase.Missing? <==> call.eligible && call.request.control == WriteOnly && CanUse(call, cacheUp))
       && (phase.Reading? <==> Reads(call, cacheUp))
       && (if phase.Reading? then phase.r == r && LooksUp(setup, e.cluster, call, r, nowMs, e'.cluster)
           else e'.cluster == e.cluster)
  }

  /** The cluster takes one step, a lookup of the call's key. */
  ghost predicate LooksUp(setup: Setup, c: C.Cluster, call: G.Call, r: nat, nowMs: u64, c': C.Cluster) {
    C.Step(setup.hash, c, C.LookUp(r, ObjKey(call.request.tenantId, CacheKey(setup.env.hash, call.request)), nowMs), c')
  }

  /** Nothing was found for the call: no entry, or for a streaming call no stream in it. */
  ghost predicate FindsNothing(setup: Setup, call: G.Call, reader: C.Reader) {
    || reader.Missed?
    || (reader.Answered? && reader.result.Ok? && G.WantsStream(call)
        && StreamObjectFrom(setup.env.codec.parse, setup.decode(reader.result.value)) == Ok(None))
  }

  /** The text that was read holds this reply for the call. */
  ghost predicate ReadsAs(setup: Setup, call: G.Call, reader: C.Reader, answer: G.Answer) {
    && reader.Answered? && reader.result.Ok? && answer.Replied?
    && var text := setup.decode(reader.result.value);
       if G.WantsStream(call) then
         answer.events.Some?
         && StreamObjectFrom(setup.env.codec.parse, text) == Ok(Some(CapturedStream(answer.events.value, answer.body)))
       else answer.events.None? && CachedBodyFrom(setup.env.codec.parse, text) == Ok(answer.body)
  }

  ghost predicate CallFetches(setup: Setup, e: State, a: Action, e': State)
    requires a.Fetch?
  {
    var Fetch(id, fetched) := a;
    && id in e.phases && e.phases[id].Reading? && e.phases[id].r in e.cluster.readers && id in e'.phases
    && e' == e.(phases := e.phases[id := e'.phases[id]])
    && var (call, reader, phase) := (e.phases[id].call, e.cluster.readers[e.phases[id].r], e'.phases[id]);
       && phase.call == call
       && (phase.Missing? <==> fetched && FindsNothing(setup, call, reader) && call.request.control != CacheOnly)
       && (phase.Answered? <==> !phase.Missing?)
       && (phase.Answered? && phase.answer == G.NotCached <==>
             fetched && FindsNothing(setup, call, reader) && call.request.control == CacheOnly)
       && (fetched ==> forall answer :: ReadsAs(setup, call, reader, answer) ==> phase == Answered(call, answer))
       && (phase.Answered? && phase.answer.Replied? ==> fetched && ReadsAs(setup, call, reader, phase.answer))
  }

  /** A live leader of the key is joined below the cap and passed by at it; without one the call leads a new flight. */
  ghost predicate CallJoins(setup: Setup, e: State, a: Action, e': State)
    requires a.Join?
  {
    && a.id in e.phases && e.phases[a.id].Missing? && a.id in e'.phases
    && e' == e.(group := e'.group, phases := e.phases[a.id := e'.phases[a.id]], flightKeys := e'.flightKeys)
    && var (call, phase) := (e.phases[a.id].call, e'.phases[a.id]);
       var key := F.FlightKey(call.request.tenantId, CacheKey(setup.env.hash, call.request), call.request.control != ReadOnly);
       if G.WantsStream(call) then phase == Leading(call, None) && e'.group == e.group && e'.flightKeys == e.flightKeys
       else JoinsOrLeads(setup.cap, e, e', key, call, phase)
  }

  ghost predicate JoinsOrLeads(cap: nat, e: State, e': State, key: F.FlightKey, call: G.Call, phase: Phase) {
    && (forall f :: f in e.group.leaders && e.group.leaders[f] == F.Live(key) ==>
          && e'.group.leaders == e.group.leaders && e'.flightKeys == e.flightKeys
          && if F.Joined(e.group.waiters, f) < cap then
               e'.group.waiters == e.group.waiters + [F.Waiting(f)] && phase == Waiting(call, |e.group.waiters|)
             else e'.group.waiters == e.group.waiters && phase == Leading(call, None))
    && ((forall f :: f in e.group.leaders ==> e.group.leaders[f] != F.Live(key)) ==>
          e'.group.waiters == e.group.waiters && exists f: nat ::
            && f !in e.group.leaders && e'.group.leaders == e.group.leaders[f := F.Live(key)]
            && phase == Leading(call, Some(f)) && e'.flightKeys == e.flightKeys[f := key])
  }

  predicate Says(p: G.Payload, answer: G.Answer) {
    match p
    case Plain(body) => answer == G.Replied(body, None)
    case Streamed(c) => answer == G.Replied(c.finalBody, Some(c.events))
  }

  ghost predicate VendorReplies(e: State, a: Action, e': State)
    requires a.Vendor?
  {
    var Vendor(id, payload) := a;
    && id in e.phases && (e.phases[id].Asking? || e.phases[id].Leading?) && id in e'.phases
    && e' == e.(served := e'.served, phases := e.phases[id := e'.phases[id]])
    && var (was, phase) := (e.phases[id], e'.phases[id]);
       && phase.call == was.call
       && e'.served == (if payload.Some? then e.served + [G.Served(was.call, payload.value)] else e.served)
       && (if was.Asking? then
             phase.Answered? && (if payload.Some? then Says(payload.value, phase.answer) else phase.answer == G.Failed)
           else if payload.Some? then phase == Storing(was.call, payload.value, was.flight)
           else phase == Finishing(was.call, G.Failed, was.flight))
  }

  /** A reservation is asked for with the reply's text under the call's key; a read-only call asks for none. */
  ghost predicate CallReserves(setup: Setup, e: State, a: Action, e': State)
    requires a.Reserve?
  {
    && a.id in e.phases && e.phases[a.id].Storing? && e.phases[a.id].call.request.control != ReadOnly
    && e' == e.(cluster := e'.cluster)
    && var (call, payload) := (e.phases[a.id].call, e.phases[a.id].payload);
       var text := match payload case Plain(body) => Serialize(body) case Streamed(c) => SerializeStreamObject(c);
       C.Step(setup.hash, e.cluster,
              C.Start(a.w, ObjKey(call.request.tenantId, CacheKey(setup.env.hash, call.request)), setup.encode(text),
                      a.delivered, a.heard),
              e'.cluster)
  }

  ghost predicate CallFinishes(e: State, a: Action, e': State)
    requires a.Finish?
  {
    && a.id in e.phases && e.phases[a.id].Storing? && a.id in e'.phases
    && e' == e.(phases := e.phases[a.id := e'.phases[a.id]])
    && var (was, phase) := (e.phases[a.id], e'.phases[a.id]);
       phase.Finishing? && phase.call == was.call && phase.flight == was.flight && Says(was.payload, phase.answer)
  }

  /** The answer goes out; a flight's leader begins to share its body, or that it has none. */
  ghost predicate CallPublishes(e: State, a: Action, e': State)
    requires a.Publish?
  {
    && a.id in e.phases && e.phases[a.id].Finishing? && a.id in e'.phases
    && e' == e.(group := e'.group, phases := e.phases[a.id := e'.phases[a.id]])
    && var (was, phase) := (e.phases[a.id], e'.phases[a.id]);
       && phase == Answered(was.call, was.answer)
       && match was.flight
          case None => e'.group == e.group
          case Some(f) =>
            && f in e'.group.leaders && e'.group.leaders[f].Sending? && e'.group.leaders[f].taken == Some(f)
            && (was.answer.Replied? ==> e'.group.leaders[f].reply == Ok(was.answer.body))
            && (!was.answer.Replied? ==> e'.group.leaders[f].reply.Err?)
            && e'.group.leaders == e.group.leaders[f := e'.group.leaders[f]] && e'.group.waiters == e.group.waiters
  }

  ghost predicate LeaderSends(e: State, a: Action, e': State)
    requires a.Send?
  {
    && a.f in e.group.leaders && e.group.leaders[a.f].Sending? && e' == e.(group := e'.group)
    && e'.group.leaders == e.group.leaders[a.f := F.Published(e.group.leaders[a.f].reply)]
    && e'.group.waiters == e.group.waiters
  }

  ghost predicate LeaderLeaves(e: State, a: Action, e': State)
    requires a.Leave?
  {
    && a.id in e.phases && (e.phases[a.id].Leading? || e.phases[a.id].Storing? || e.phases[a.id].Finishing?)
    && e' == e.(group := e'.group, phases := e.phases[a.id := Answered(e.phases[a.id].call, G.Failed)])
    && e.phases[a.id].flight.Some? && e.phases[a.id].flight.value in e.group.leaders
    && e'.group.leaders == e.group.leaders[e.phases[a.id].flight.value := F.Dropped] && e'.group.waiters == e.group.waiters
  }

  /** A waiter is answered with what its flight's leader published, and only once the flight has ended. */
  ghost predicate WaiterWakes(e: State, a: Action, e': State)
    requires a.Poll?
  {
    && a.id in e.phases && e.phases[a.id].Waiting? && e.phases[a.id].w < |e.group.waiters|
    && var (call, w) := (e.phases[a.id].call, e.phases[a.id].w);
       var f := e.group.waiters[w].flight;
       && f in e.group.leaders && a.id in e'.phases
       && e' == e.(group := e'.group, phases := e.phases[a.id := e'.phases[a.id]]) && e'.group.leaders == e.group.leaders
       && |e'.group.waiters| == |e.group.waiters|
       && (forall v :: 0 <= v < |e.group.waiters| && (v != w || e'.phases[a.id].Waiting?) ==>
             e'.group.waiters[v] == e.group.waiters[v])
       && e'.phases[a.id] == match e.group.leaders[f]
                             case Published(Ok(body)) => Answered(call, G.Replied(body, None))
                             case Published(Err(_)) => Answered(call, G.Failed)
                             case Dropped => Answered(call, G.Failed)
                             case _ => Waiting(call, w)
  }

  ghost predicate Moves(setup: Setup, e: State, a: Action, e': State) {
    match a
    case Around(ca) => C.Step(setup.hash, e.cluster, ca, e'.cluster) && e' == e.(cluster := e'.cluster)
    case Arrive(_, _, _, _, _) => CallArrives(setup, e, a, e')
    case Fetch(_, _) => CallFetches(setup, e, a, e')
    case Join(_) => CallJoins(setup, e, a, e')
    case Vendor(_, _) => VendorReplies(e, a, e')
    case Reserve(_, _, _, _) => CallReserves(setup, e, a, e')
    case Finish(_) => CallFinishes(e, a, e')
    case Publish(_) => CallPublishes(e, a, e')
    case Send(_) => LeaderSends(e, a, e')
    case Leave(_) => LeaderLeaves(e, a, e')
    case Poll(_) => WaiterWakes(e, a, e')
  }

  // ---- Proofs, step by step ----

  lemma ArriveMoves(setup: Setup, e: State, a: Action)
    requires Ready(setup, e, a) && a.Arrive?
    ensures CallArrives(setup, e, a, Act(setup, e, a))
  {
  }

  lemma FetchMoves(setup: Setup, e: State, a: Action)
    requires Ready(setup, e, a) && a.Fetch?
    ensures CallFetches(setup, e, a, Act(setup, e, a))
  {
    FetchedPhase(setup, e.phases[a.id].call, e.cluster.readers[e.phases[a.id].r], a.fetched);
  }

  lemma FetchedPhase(setup: Setup, call: G.Call, reader: C.Reader, fetched: bool)
    requires fetched ==> !reader.Holding?
    ensures var phase := OnFetch(setup, call, reader, fetched);
      && phase.call == call
      && (phase.Missing? <==> fetched && FindsNothing(setup, call, reader) && call.request.control != CacheOnly)
      && (phase.Answered? <==> !phase.Missing?)
      && (phase.Answered? && phase.answer == G.NotCached <==>
            fetched && FindsNothing(setup, call, reader) && call.request.control == CacheOnly)
      && (fetched ==> forall answer :: ReadsAs(setup, call, reader, answer) ==> phase == Answered(call, answer))
      && (phase.Answered? && phase.answer.Replied? ==> fetched && ReadsAs(setup, call, reader, phase.answer))
  {
  }

  lemma JoinMoves(setup: Setup, e: State, a: Action)
    requires F.Inv(e.group, setup.cap) && Ready(setup, e, a) && a.Join?
    ensures CallJoins(setup, e, a, Act(setup, e, a))
  {
    var call := e.phases[a.id].call;
    if !G.WantsStream(call) {
      GroupJoins(setup, e, a.id, call);
    }
  }

  lemma GroupJoins(setup: Setup, e: State, id: nat, call: G.Call)
    requires F.Inv(e.group, setup.cap) && !G.WantsStream(call)
    ensures var e' := DoJoin(setup, e, id, call);
      && id in e'.phases && e' == e.(group := e'.group, phases := e.phases[id := e'.phases[id]], flightKeys := e'.flightKeys)
      && JoinsOrLeads(setup.cap, e, e', FlightKeyOf(setup, call), call, e'.phases[id])
  {
    var key, g := FlightKeyOf(setup, call), e.group;
    JoinStep(g, key, setup.cap);
    forall f | f in g.leaders && g.leaders[f] == F.Live(key) { F.ArrivalJoins(g, key, setup.cap, f); }
    if forall f :: f in g.leaders ==> g.leaders[f] != F.Live(key) {
      F.ArrivalLeads(g, key, setup.cap);
    }
  }

  lemma PublishMoves(setup: Setup, e: State, a: Action)
    requires F.Inv(e.group, setup.cap) && Ready(setup, e, a) && a.Publish?
    ensures CallPublishes(e, a, Act(setup, e, a))
  {
    var was := e.phases[a.id];
    if was.flight.Some? {
      var f := was.flight.value;
      LeaderStep(e.group, F.PublishTake(f, ReplyOf(was.answer)), f, setup.cap);
    }
  }

  lemma LeaderMoves(setup: Setup, e: State, a: Action)
    requires F.Inv(e.group, setup.cap) && Ready(setup, e, a) && (a.Send? || a.Leave?)
    ensures Moves(setup, e, a, Act(setup, e, a))
  {
    match a {
      case Send(f) => LeaderStep(e.group, F.PublishSend(f), f, setup.cap);
      case Leave(id) =>
        var f := e.phases[id].flight.value;
        LeaderStep(e.group, F.DropLeader(f), f, setup.cap);
        assert e.group.leaders[f := F.Dropped] == F.Act(e.group, F.DropLeader(f), setup.cap).leaders;
    }
  }

  lemma PollMoves(setup: Setup, e: State, a: Action)
    requires F.Inv(e.group, setup.cap) && Ready(setup, e, a) && a.Poll?
    ensures WaiterWakes(e, a, Act(setup, e, a))
  {
    var w := e.phases[a.id].w;
    assert F.WaiterTrue(e.group, e.group.waiters[w]);
    PolledWaiter(e.group, w, setup.cap);
  }

  lemma PolledWaiter(g: F.Group, w: nat, cap: nat)
    requires F.Inv(g, cap) && F.Ready(g, F.PollWaiter(w))
    ensures g.waiters[w].flight in g.leaders
    ensures var g' := F.Act(g, F.PollWaiter(w), cap);
      && g'.leaders == g.leaders && |g'.waiters| == |g.waiters|
      && (forall v :: 0 <= v < |g.waiters| && v != w ==> g'.waiters[v] == g.waiters[v])
      && g'.waiters[w] == match g.leaders[g.waiters[w].flight]
                          case Published(reply) => F.Resolved(g.waiters[w].flight, reply)
                          case Dropped => F.Orphaned(g.waiters[w].flight)
                          case _ => g.waiters[w]
  {
    assert F.WaiterTrue(g, g.waiters[w]);
  }

  lemma OwnStepMoves(setup: Setup, e: State, a: Action)
    requires Ready(setup, e, a) && (a.Vendor? || a.Reserve? || a.Finish? || a.Around?)
    ensures Moves(setup, e, a, Act(setup, e, a))
  {
  }

  lemma StepMoves(setup: Setup, e: State, a: Action)
    requires F.Inv(e.group, setup.cap) && Ready(setup, e, a)
    ensures Moves(setup, e, a, Act(setup, e, a))
  {
    if a.Arrive? {
      ArriveMoves(setup, e, a);
    } else if a.Fetch? {
      FetchMoves(setup, e, a);
    } else if a.Join? {
      JoinMoves(setup, e, a);
    } else if a.Publish? {
      PublishMoves(setup, e, a);
    } else if a.Send? || a.Leave? {
      LeaderMoves(setup, e, a);
    } else if a.Poll? {
      PollMoves(setup, e, a);
    } else {
      OwnStepMoves(setup, e, a);
    }
  }

  // ---- Flights and cluster inside the joint run ----

  lemma StepKeepsGroup(setup: Setup, e: State, a: Action)
    requires F.Inv(e.group, setup.cap) && Ready(setup, e, a)
    ensures F.Inv(Act(setup, e, a).group, setup.cap)
  {
    match a {
      case Join(id) => JoinStep(e.group, FlightKeyOf(setup, e.phases[id].call), setup.cap);
      case Publish(id) =>
        if e.phases[id].flight.Some? {
          F.ActionKeepsInv(e.group, F.PublishTake(e.phases[id].flight.value, ReplyOf(e.phases[id].answer)), setup.cap);
        }
      case Send(f) => F.ActionKeepsInv(e.group, F.PublishSend(f), setup.cap);
      case Leave(id) => F.ActionKeepsInv(e.group, F.DropLeader(e.phases[id].flight.value), setup.cap);
      case Poll(id) => F.ActionKeepsInv(e.group, F.PollWaiter(e.phases[id].w), setup.cap);
      case _ =>
    }
  }

  /** The cluster stays, or takes one step of its own. */
  ghost predicate ClusterMoves(hash: Hash, c: C.Cluster, c': C.Cluster) {
    c' == c || exists a :: C.Step(hash, c, a, c')
  }

  lemma StepOnCluster(setup: Setup, e: State, a: Action, e': State)
    requires Moves(setup, e, a, e')
    ensures ClusterMoves(setup.hash, e.cluster, e'.cluster)
  {
  }

  lemma ClusterStaysSafe(hash: Hash, c: C.Cluster, c': C.Cluster)
    requires S.Safe(hash, c) && ClusterMoves(hash, c, c')
    ensures S.Safe(hash, c')
  {
    if c' != c {
      var a :| C.Step(hash, c, a, c');
      S.ActionIsSafe(hash, c, a);
    }
  }

  lemma {:induction false} RunsKeepParts(setup: Setup, states: seq<State>, actions: seq<Action>, j: nat)
    requires Run(setup, states, actions) && j < |states|
    ensures F.Inv(states[j].group, setup.cap) && S.Safe(setup.hash, states[j].cluster)
    decreases j
  {
    if j > 0 {
      RunsKeepParts(setup, states, actions, j - 1);
      assert StepAt(setup, states, actions, j - 1);
      StepMoves(setup, states[j - 1], actions[j - 1]);
      StepKeepsGroup(setup, states[j - 1], actions[j - 1]);
      StepOnCluster(setup, states[j - 1], actions[j - 1], states[j]);
      ClusterStaysSafe(setup.hash, states[j - 1].cluster, states[j].cluster);
    } else {
      S.InitIsSafe(setup.hash, states[0].cluster);
    }
  }

  /**
   * In every joint run each step takes its call exactly where the mode, the form, the cache, the flight and the vendor say,
   * and moves nothing else.
   */
  lemma CallsMoveAsTold(setup: Setup, states: seq<State>, actions: seq<Action>, i: nat)
    requires Run(setup, states, actions) && i < |actions|
    ensures Moves(setup, states[i], actions[i], states[i + 1])
  {
    RunsKeepParts(setup, states, actions, i);
    assert StepAt(setup, states, actions, i);
    StepMoves(setup, states[i], actions[i]);
  }

  // ---- Answers from the store ----

  function CallKey(setup: Setup, call: G.Call): ObjKey {
    ObjKey(call.request.tenantId, CacheKey(setup.env.hash, call.request))
  }

  /** The master lists the key. */
  predicate Visible(c: C.Cluster, k: ObjKey) {
    k in c.master.objects && c.master.objects[k].status == Committed
  }

  lemma ReaderStep(hash: Hash, c: C.Cluster, c': C.Cluster, r: nat)
    requires ClusterMoves(hash, c, c') && r in c.readers
    ensures r in c'.readers && c'.readers[r].k == c.readers[r].k
    ensures c'.readers[r] == c.readers[r] || (c.readers[r].Holding? && c'.readers[r].Answered?)
  {
  }

  lemma LookUpFinds(hash: Hash, c: C.Cluster, r: nat, k: ObjKey, nowMs: u64, c': C.Cluster)
    requires S.Safe(hash, c) && C.Step(hash, c, C.LookUp(r, k, nowMs), c')
    ensures r in c'.readers && c'.readers[r].k == k
    ensures c'.readers[r].Missed? <==> !Visible(c, k)
  {
    if Visible(c, k) {
      var g :| S.Shows(c, k, g);
    }
  }

  /** No step but an arrival leaves a call reading that was not. */
  lemma JoinedIsNotReading(setup: Setup, e: State, a: Action, e': State)
    requires a.Join? && CallJoins(setup, e, a, e')
    ensures !e'.phases[a.id].Reading?
  {
    var call := e.phases[a.id].call;
    if !G.WantsStream(call) {
      var key := F.FlightKey(call.request.tenantId, CacheKey(setup.env.hash, call.request), call.request.control != ReadOnly);
      if f :| f in e.group.leaders && e.group.leaders[f] == F.Live(key) {
      }
    }
  }

  lemma OwnStepIsNotReading(setup: Setup, e: State, a: Action, e': State)
    requires (a.Fetch? || a.Vendor? || a.Finish? || a.Publish? || a.Leave? || a.Poll?) && Moves(setup, e, a, e')
    ensures a.id in e'.phases && !e'.phases[a.id].Reading? && a.id in e.phases && e'.phases == e.phases[a.id := e'.phases[a.id]]
  {
  }

  lemma ReadingStays(setup: Setup, e: State, a: Action, e': State, id: nat)
    requires Moves(setup, e, a, e') && id in e'.phases && e'.phases[id].Reading? && !(a.Arrive? && a.id == id)
    ensures id in e.phases && e.phases[id] == e'.phases[id]
  {
    if a.Join? {
      JoinedIsNotReading(setup, e, a, e');
    } else if a.Fetch? || a.Vendor? || a.Finish? || a.Publish? || a.Leave? || a.Poll? {
      OwnStepIsNotReading(setup, e, a, e');
    }
  }

  /** The call arrived by `a` at `earlier`, may read the cache, and found its key missing exactly if it was not listed then. */
  ghost predicate LookedUp(setup: Setup, earlier: State, a: Action, e: State, id: nat) {
    && id in e.phases && e.phases[id].Reading? && e.phases[id].r in e.cluster.readers
    && a.Arrive? && a.id == id && a.call == e.phases[id].call && Reads(a.call, a.cacheUp)
    && var (reader, k) := (e.cluster.readers[e.phases[id].r], CallKey(setup, a.call));
       reader.k == k && (reader.Missed? <==> !Visible(earlier.cluster, k))
  }

  lemma ArrivalLooksUp(setup: Setup, e: State, a: Action, e': State, id: nat)
    requires S.Safe(setup.hash, e.cluster) && a.Arrive? && a.id == id && CallArrives(setup, e, a, e')
    requires id in e'.phases && e'.phases[id].Reading?
    ensures LookedUp(setup, e, a, e', id)
  {
    LookUpFinds(setup.hash, e.cluster, a.r, CallKey(setup, a.call), a.nowMs, e'.cluster);
  }

  lemma LookUpStands(setup: Setup, earlier: State, a0: Action, e: State, a: Action, e': State, id: nat)
    requires LookedUp(setup, earlier, a0, e, id) && ClusterMoves(setup.hash, e.cluster, e'.cluster)
    requires id in e'.phases && e'.phases[id] == e.phases[id]
    ensures LookedUp(setup, earlier, a0, e', id)
  {
    ReaderStep(setup.hash, e.cluster, e'.cluster, e.phases[id].r);
  }

  /** A call that reads the store looked its key up when it arrived, and missed exactly if the key was not listed then. */
  lemma {:induction false} ReadingSince(setup: Setup, states: seq<State>, actions: seq<Action>, j: nat, id: nat) returns (i: nat)
    requires Run(setup, states, actions) && j < |states| && id in states[j].phases && states[j].phases[id].Reading?
    ensures i < j && LookedUp(setup, states[i], actions[i], states[j], id)
    decreases j
  {
    var e, a, e' := states[j - 1], actions[j - 1], states[j];
    CallsMoveAsTold(setup, states, actions, j - 1);
    if a.Arrive? && a.id == id {
      i := j - 1;
      RunsKeepParts(setup, states, actions, i);
      ArrivalLooksUp(setup, e, a, e', id);
    } else {
      ReadingStays(setup, e, a, e', id);
      StepOnCluster(setup, e, a, e');
      i := ReadingSince(setup, states, actions, j - 1, id);
      LookUpStands(setup, states[i], actions[i], e, a, e', id);
    }
  }

  /** The bytes are the text of the reply `s`. */
  ghost predicate TextOf(setup: Setup, served: seq<G.Served>, call: G.Call, bytes: Bytes, s: G.Served) {
    && s in served && G.KeyOf(setup.env, s.call) == G.KeyOf(setup.env, call)
    && setup.decode(bytes) == G.Stored(s.payload) && G.Replayable(setup.env, s.payload)
  }

  lemma ReadTextOf(setup: Setup, e: State, r: nat, call: G.Call) returns (s: G.Served)
    requires Encodes(setup) && Inv(setup, e) && r in e.cluster.readers
    requires e.cluster.readers[r].Answered? && e.cluster.readers[r].result.Ok?
    requires e.cluster.readers[r].k == G.KeyOf(setup.env, call)
    ensures TextOf(setup, e.served, call, e.cluster.readers[r].result.value, s)
  {
    var g := AnsweredGrant(setup.hash, e.cluster, e.cluster.readers[r]);
    s := GrantOrigin(setup, e.cluster.grants, e.served, g);
  }

  lemma TextReplays(setup: Setup, e: State, call: G.Call, bytes: Bytes, s: G.Served, answer: G.Answer, reader: C.Reader)
    requires Sound(setup.env.codec) && ServedOk(setup, e.served) && TextOf(setup, e.served, call, bytes, s)
    requires reader.Answered? && reader.result == Ok(bytes)
    ensures FindsNothing(setup, call, reader) <==> G.WantsStream(call) && s.payload.Plain?
    ensures ReadsAs(setup, call, reader, answer) ==> G.Replays(setup.env, call, answer, s)
    ensures !FindsNothing(setup, call, reader) ==> exists x :: ReadsAs(setup, call, reader, x)
  {
    assert G.ServedOk(setup.env, s);
    G.StoredReadsBack(setup.env, s);
    G.StoredStreamsBack(setup.env, s);
    G.HitReplays(setup.env, call, s);
    if !FindsNothing(setup, call, reader) {
      var streamed, plain :=
        StreamObjectFrom(setup.env.codec.parse, G.Stored(s.payload)), CachedBodyFrom(setup.env.codec.parse, G.Stored(s.payload));
      if G.WantsStream(call) {
        assert ReadsAs(setup, call, reader, G.Replied(streamed.value.value.finalBody, Some(streamed.value.value.events)));
      } else {
        assert ReadsAs(setup, call, reader, G.Replied(plain.value, None));
      }
    }
  }

  /**
   * In every joint run in which what is reserved reads back, a call is answered from the store if and only if it may read
   * the cache, its key was listed when it arrived, the store gave its bytes, and they are of a stream if the call streams;
   * the answer then replays the reply of which they are the text.
   */
  lemma StoreAnswersIff(setup: Setup, states: seq<State>, actions: seq<Action>, j: nat, id: nat) returns (i: nat)
    requires Sound(setup.env.codec) && Encodes(setup) && FaithfulRun(setup, states, actions)
    requires j < |actions| && actions[j].Fetch? && actions[j].id == id
    ensures i < j && LookedUp(setup, states[i], actions[i], states[j], id) && id in states[j + 1].phases
    ensures var (call, reader, phase) :=
        (actions[i].call, states[j].cluster.readers[states[j].phases[id].r], states[j + 1].phases[id]);
      && (phase.Answered? && phase.answer.Replied? <==>
            && actions[j].fetched && Visible(states[i].cluster, CallKey(setup, call))
            && reader.Answered? && reader.result.Ok?
            && exists s :: TextOf(setup, states[j].served, call, reader.result.value, s)
                 && (G.WantsStream(call) ==> s.payload.Streamed?))
      && (phase.Answered? && phase.answer.Replied? ==>
            exists s :: TextOf(setup, states[j].served, call, reader.result.value, s)
              && G.Replays(setup.env, call, phase.answer, s))
  {
    CallsMoveAsTold(setup, states, actions, j);
    i := ReadingSince(setup, states, actions, j, id);
    RunsKeepInv(setup, states, actions, j);
    FetchedFromStore(setup, states[j], actions[j], states[j + 1]);
  }

  lemma FetchedFromStore(setup: Setup, e: State, a: Action, e': State)
    requires Sound(setup.env.codec) && Encodes(setup) && Inv(setup, e) && a.Fetch? && CallFetches(setup, e, a, e')
    requires e.cluster.readers[e.phases[a.id].r].k == G.KeyOf(setup.env, e.phases[a.id].call)
    ensures var (call, reader, phase) := (e.phases[a.id].call, e.cluster.readers[e.phases[a.id].r], e'.phases[a.id]);
      && (phase.Answered? && phase.answer.Replied? <==>
            && a.fetched && reader.Answered? && reader.result.Ok?
            && exists s :: TextOf(setup, e.served, call, reader.result.value, s)
                 && (G.WantsStream(call) ==> s.payload.Streamed?))
      && (phase.Answered? && phase.answer.Replied? ==>
            exists s :: TextOf(setup, e.served, call, reader.result.value, s) && G.Replays(setup.env, call, phase.answer, s))
  {
    var call, reader, phase := e.phases[a.id].call, e.cluster.readers[e.phases[a.id].r], e'.phases[a.id];
    var answer := if phase.Answered? then phase.answer else G.Failed;
    if reader.Answered? && reader.result.Ok? {
      var bytes := reader.result.value;
      var s := ReadTextOf(setup, e, e.phases[a.id].r, call);
      forall t | TextOf(setup, e.served, call, bytes, t)
        ensures FindsNothing(setup, call, reader) <==> G.WantsStream(call) && t.payload.Plain?
        ensures ReadsAs(setup, call, reader, answer) ==> G.Replays(setup.env, call, answer, t)
        ensures !FindsNothing(setup, call, reader) ==> exists x :: ReadsAs(setup, call, reader, x)
      {
        TextReplays(setup, e, call, bytes, t, answer, reader);
      }
    }
  }
}
