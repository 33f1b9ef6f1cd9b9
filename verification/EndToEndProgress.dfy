/** No call of the joint run is ever stuck: it can move, or waits for a flight whose leader can. */
module EndToEndProgress {
  import opened Types
  import opened Fingerprint
  import opened EndToEnd
  import opened EndToEndOutcomes
  import S = ClusterSafety
  import F = Singleflight
  import G = Gateway

  /** The flight a call leads. */
  function FlightLed(phase: Phase): Option<nat> {
    match phase
    case Leading(_, flight) => flight
    case Storing(_, _, flight) => flight
    case Finishing(_, _, flight) => flight
    case _ => None
  }

  predicate Leads(e: State, id: nat, f: nat) {
    id in e.phases && FlightLed(e.phases[id]) == Some(f)
  }

  /** Live flights and the calls that lead them correspond one to one. */
  ghost predicate FlightsLed(e: State) {
    && (forall id, f :: Leads(e, id, f) ==> f in e.group.leaders && e.group.leaders[f].Live?)
    && (forall id, other, f :: Leads(e, id, f) && Leads(e, other, f) ==> id == other)
    && (forall f :: f in e.group.leaders && e.group.leaders[f].Live? ==> exists id :: Leads(e, id, f))
  }

  predicate WaitsAlike(e: State, id: nat, other: nat) {
    && id in e.phases && other in e.phases && e.phases[id].Waiting? && e.phases[other].Waiting?
    && e.phases[id].w == e.phases[other].w
  }

  /** Each waiting call is the one that waits in its place. */
  ghost predicate WaitersPlaced(e: State) {
    && (forall id :: id in e.phases && e.phases[id].Waiting? ==>
          e.phases[id].w < |e.group.waiters| && e.group.waiters[e.phases[id].w].Waiting?)
    && (forall id, other :: WaitsAlike(e, id, other) ==> id == other)
  }

  /** Steps that leave flights alone, and the flight a call leads. */
  lemma QuietStepKeepsLed(e: State, e': State)
    requires FlightsLed(e) && e'.group.leaders == e.group.leaders
    requires forall id, f :: Leads(e', id, f) <==> Leads(e, id, f)
    ensures FlightsLed(e')
  {
    forall f | f in e'.group.leaders && e'.group.leaders[f].Live? ensures exists id :: Leads(e', id, f) {
      var id :| Leads(e, id, f);
      assert Leads(e', id, f);
    }
  }

  /** The call `id` begins to lead the new flight `f`. */
  lemma NewFlightKeepsLed(e: State, e': State, id: nat, f: nat, key: F.FlightKey)
    requires FlightsLed(e) && f !in e.group.leaders && e'.group.leaders == e.group.leaders[f := F.Live(key)]
    requires forall q, h :: Leads(e', q, h) <==> Leads(e, q, h) || (q == id && h == f)
    ensures FlightsLed(e')
  {
    forall h | h in e'.group.leaders && e'.group.leaders[h].Live? ensures exists q :: Leads(e', q, h) {
      if h == f {
        assert Leads(e', id, f);
      } else {
        var q :| Leads(e, q, h);
        assert Leads(e', q, h);
      }
    }
  }

  /** The call `id` no longer leads its flight, which is no longer live. */
  lemma EndedFlightKeepsLed(e: State, e': State, id: nat, f: nat, leader: F.LeaderState)
    requires FlightsLed(e) && Leads(e, id, f) && !leader.Live? && e'.group.leaders == e.group.leaders[f := leader]
    requires forall q, h :: Leads(e', q, h) <==> Leads(e, q, h) && q != id
    ensures FlightsLed(e')
  {
    forall h | h in e'.group.leaders && e'.group.leaders[h].Live? ensures exists q :: Leads(e', q, h) {
      var q :| Leads(e, q, h);
      assert Leads(e', q, h);
    }
  }

  /** Only `id` moved, and what it leads did not change. */
  lemma SameLed(e: State, e': State, id: nat)
    requires e'.group.leaders == e.group.leaders && id in e'.phases && e'.phases == e.phases[id := e'.phases[id]]
    requires FlightLed(e'.phases[id]) == if id in e.phases then FlightLed(e.phases[id]) else None
    ensures forall q, f :: Leads(e', q, f) <==> Leads(e, q, f)
  {
  }

  /** What joining means for leaders, waiters and the call. */
  ghost predicate Joined(e: State, id: nat, e': State) {
    && id in e.phases && e.phases[id].Missing? && id in e'.phases && e'.phases == e.phases[id := e'.phases[id]]
    && match FlightLed(e'.phases[id])
       case Some(f) =>
         && e'.phases[id].Leading? && f !in e.group.leaders && f in e'.group.leaders && e'.group.leaders[f].Live?
         && e'.group.leaders == e.group.leaders[f := e'.group.leaders[f]] && e'.group.waiters == e.group.waiters
       case None =>
         && e'.group.leaders == e.group.leaders
         && (e'.phases[id].Leading? ==> e'.group.waiters == e.group.waiters)
         && (!e'.phases[id].Leading? ==>
               && e'.phases[id].Waiting? && e'.phases[id].w == |e.group.waiters|
               && |e'.group.waiters| == |e.group.waiters| + 1
               && e'.group.waiters[..|e.group.waiters|] == e.group.waiters
               && e'.group.waiters[|e.group.waiters|].Waiting?)
  }

  lemma JoinCases(setup: Setup, e: State, a: Action, e': State)
    requires a.Join? && CallJoins(setup, e, a, e')
    ensures Joined(e, a.id, e')
  {
    var call := e.phases[a.id].call;
    if !G.WantsStream(call) {
      var key := F.FlightKey(call.request.tenantId, CacheKey(setup.env.hash, call.request), call.request.control != ReadOnly);
      if f :| f in e.group.leaders && e.group.leaders[f] == F.Live(key) {
      }
    }
  }

  lemma JoinKeepsLed(e: State, id: nat, e': State)
    requires FlightsLed(e) && Joined(e, id, e')
    ensures FlightsLed(e')
  {
    match FlightLed(e'.phases[id]) {
      case Some(f) => NewFlightKeepsLed(e, e', id, f, e'.group.leaders[f].key);
      case None =>
        SameLed(e, e', id);
        QuietStepKeepsLed(e, e');
    }
  }

  lemma JoinKeepsPlaced(e: State, id: nat, e': State)
    requires WaitersPlaced(e) && Joined(e, id, e')
    ensures WaitersPlaced(e')
  {
    var n := |e.group.waiters|;
    forall q | q in e'.phases && e'.phases[q].Waiting?
      ensures e'.phases[q].w < |e'.group.waiters| && e'.group.waiters[e'.phases[q].w].Waiting?
    {
      if q != id {
        assert e'.group.waiters[e'.phases[q].w] == e'.group.waiters[..n][e'.phases[q].w];
      }
    }
    forall q, other | WaitsAlike(e', q, other) ensures q == other {
      if q != id && other != id {
        assert WaitsAlike(e, q, other);
      }
    }
  }

  lemma PublishKeepsLed(e: State, a: Action, e': State)
    requires FlightsLed(e) && a.Publish? && CallPublishes(e, a, e')
    ensures FlightsLed(e')
  {
    match e.phases[a.id].flight {
      case Some(f) =>
        assert Leads(e, a.id, f);
        EndedFlightKeepsLed(e, e', a.id, f, e'.group.leaders[f]);
      case None =>
        SameLed(e, e', a.id);
        QuietStepKeepsLed(e, e');
    }
  }

  lemma LeaveKeepsLed(e: State, a: Action, e': State)
    requires FlightsLed(e) && a.Leave? && LeaderLeaves(e, a, e')
    ensures FlightsLed(e')
  {
    var f := e.phases[a.id].flight.value;
    assert Leads(e, a.id, f);
    EndedFlightKeepsLed(e, e', a.id, f, F.Dropped);
  }

  lemma SendKeepsLed(e: State, a: Action, e': State)
    requires FlightsLed(e) && a.Send? && LeaderSends(e, a, e')
    ensures FlightsLed(e')
  {
    assert forall id, f :: Leads(e', id, f) <==> Leads(e, id, f);
    forall f | f in e'.group.leaders && e'.group.leaders[f].Live? ensures exists id :: Leads(e', id, f) {
      var id :| Leads(e, id, f);
      assert Leads(e', id, f);
    }
  }

  /** Steps of one call that leave the flights alone. */
  lemma OwnStepKeepsLed(setup: Setup, e: State, a: Action, e': State)
    requires FlightsLed(e) && (a.Arrive? || a.Fetch? || a.Vendor? || a.Finish? || a.Poll?) && Moves(setup, e, a, e')
    ensures FlightsLed(e')
  {
    SameLed(e, e', a.id);
    QuietStepKeepsLed(e, e');
  }

  lemma StepKeepsLed(setup: Setup, e: State, a: Action, e': State)
    requires FlightsLed(e) && Moves(setup, e, a, e')
    ensures FlightsLed(e')
  {
    if a.Join? {
      JoinCases(setup, e, a, e');
      JoinKeepsLed(e, a.id, e');
    } else if a.Publish? {
      PublishKeepsLed(e, a, e');
    } else if a.Leave? {
      LeaveKeepsLed(e, a, e');
    } else if a.Send? {
      SendKeepsLed(e, a, e');
    } else if a.Around? || a.Reserve? {
      QuietStepKeepsLed(e, e');
    } else {
      OwnStepKeepsLed(setup, e, a, e');
    }
  }

  /** No waiter moves, and no call begins to wait. */
  lemma QuietStepKeepsPlaced(e: State, e': State)
    requires WaitersPlaced(e) && e'.group.waiters == e.group.waiters
    requires forall id :: id in e'.phases && e'.phases[id].Waiting? ==> id in e.phases && e'.phases[id] == e.phases[id]
    ensures WaitersPlaced(e')
  {
    forall id, other | WaitsAlike(e', id, other) ensures id == other { assert WaitsAlike(e, id, other); }
  }

  lemma PollKeepsPlaced(e: State, a: Action, e': State)
    requires WaitersPlaced(e) && a.Poll? && WaiterWakes(e, a, e')
    ensures WaitersPlaced(e')
  {
    forall id | id in e'.phases && e'.phases[id].Waiting?
      ensures e'.phases[id].w < |e'.group.waiters| && e'.group.waiters[e'.phases[id].w].Waiting?
    {
      assert id != a.id ==> !WaitsAlike(e, id, a.id);
    }
    forall id, other | WaitsAlike(e', id, other) ensures id == other { assert WaitsAlike(e, id, other); }
  }

  lemma StepKeepsPlaced(setup: Setup, e: State, a: Action, e': State)
    requires WaitersPlaced(e) && Moves(setup, e, a, e')
    ensures WaitersPlaced(e')
  {
    if a.Join? {
      JoinCases(setup, e, a, e');
      JoinKeepsPlaced(e, a.id, e');
    } else if a.Poll? {
      PollKeepsPlaced(e, a, e');
    } else {
      QuietStepKeepsPlaced(e, e');
    }
  }

  lemma {:induction false} RunsKeepFlightsLed(setup: Setup, states: seq<State>, actions: seq<Action>, j: nat)
    requires Run(setup, states, actions) && j < |states|
    ensures FlightsLed(states[j]) && WaitersPlaced(states[j])
    decreases j
  {
    if j > 0 {
      RunsKeepFlightsLed(setup, states, actions, j - 1);
      CallsMoveAsTold(setup, states, actions, j - 1);
      StepKeepsLed(setup, states[j - 1], actions[j - 1], states[j]);
      StepKeepsPlaced(setup, states[j - 1], actions[j - 1], states[j]);
    }
  }

  // ---- Moving on ----

  /** The step that takes a call on; `w` is a fresh writer, and reading is given up if the store has not answered yet. */
  function Onward(e: State, id: nat): Action
    requires id in e.phases && !e.phases[id].Answered?
  {
    match e.phases[id]
    case Asking(_) => Vendor(id, None)
    case Reading(_, r) => Fetch(id, r in e.cluster.readers && !e.cluster.readers[r].Holding?)
    case Missing(_) => Join(id)
    case Leading(_, _) => Vendor(id, None)
    case Waiting(_, _) => Poll(id)
    case Storing(_, _, _) => Finish(id)
    case Finishing(_, _, _) => Publish(id)
  }

  lemma CanMove(setup: Setup, e: State, id: nat)
    requires FlightsLed(e) && WaitersPlaced(e) && id in e.phases && !e.phases[id].Answered?
    requires e.phases[id].Reading? ==> e.phases[id].r in e.cluster.readers
    ensures Ready(setup, e, Onward(e, id))
  {
    if e.phases[id].Finishing? && e.phases[id].flight.Some? {
      assert Leads(e, id, e.phases[id].flight.value);
    }
  }

  /** The call has a reply to store, and its mode may write. */
  predicate MayReserve(setup: Setup, phase: Phase) {
    phase.Storing? && phase.call.request.control != ReadOnly && |setup.encode(G.Stored(phase.payload))| <= U64_MAX
  }

  /** A reply that may be written can be reserved by any writer that has not been one before. */
  lemma CanReserve(setup: Setup, e: State, id: nat, w: nat)
    requires S.Safe(setup.hash, e.cluster) && id in e.phases && MayReserve(setup, e.phases[id]) && w !in e.cluster.writers
    ensures Ready(setup, e, Reserve(id, w, true, true))
  {
  }

  /** In every joint run a call that is not answered yet always has a step of its own to take. */
  lemma CallsCanMove(setup: Setup, states: seq<State>, actions: seq<Action>, j: nat, id: nat)
    requires Run(setup, states, actions) && j < |states| && id in states[j].phases && !states[j].phases[id].Answered?
    ensures Ready(setup, states[j], Onward(states[j], id))
    ensures forall w | w !in states[j].cluster.writers && MayReserve(setup, states[j].phases[id]) ::
      Ready(setup, states[j], Reserve(id, w, true, true))
  {
    RunsKeepParts(setup, states, actions, j);
    RunsKeepFlightsLed(setup, states, actions, j);
    if states[j].phases[id].Reading? {
      var i := ReadingSince(setup, states, actions, j, id);
    }
    CanMove(setup, states[j], id);
    forall w | w !in states[j].cluster.writers && MayReserve(setup, states[j].phases[id]) {
      CanReserve(setup, states[j], id, w);
    }
  }

  /** The flight has ended, is about to send, or is led by a call that is still under way. */
  ghost predicate Comes(e: State, f: nat) {
    && f in e.group.leaders
    && match e.group.leaders[f]
       case Live(_) => exists id :: Leads(e, id, f)
       case Sending(_, _) => F.Ready(e.group, F.PublishSend(f))
       case _ => true
  }

  /**
   * In every joint run no waiter is stranded: its flight has a leader that is still under way, or is about to send its
   * reply, or has ended, and then the waiter's next turn answers it.
   */
  lemma WaitersAreNotStranded(setup: Setup, states: seq<State>, actions: seq<Action>, j: nat, id: nat)
    requires Run(setup, states, actions) && j < |states| && id in states[j].phases && states[j].phases[id].Waiting?
    ensures states[j].phases[id].w < |states[j].group.waiters|
    ensures Comes(states[j], states[j].group.waiters[states[j].phases[id].w].flight)
    ensures var f := states[j].group.waiters[states[j].phases[id].w].flight;
      j < |actions| && actions[j] == Poll(id) && (states[j].group.leaders[f].Published? || states[j].group.leaders[f].Dropped?) ==>
        id in states[j + 1].phases && states[j + 1].phases[id].Answered?
  {
    RunsKeepParts(setup, states, actions, j);
    RunsKeepFlightsLed(setup, states, actions, j);
    assert F.WaiterTrue(states[j].group, states[j].group.waiters[states[j].phases[id].w]);
    if j < |actions| && actions[j] == Poll(id) {
      CallsMoveAsTold(setup, states, actions, j);
    }
  }
}
