/** Coalescing of concurrent misses: one leader per key, waiters on its channel, and every way a flight can end. */
module Singleflight {
  import opened Types
  import opened Json

  /** Tenant, fingerprint and whether the request may write the cache. */
  datatype FlightKey = FlightKey(tenant: string, cacheKey: string, writable: bool)

  /** What a leader shares: the response, or the message of its error. */
  type Reply = Result<Json, string>

  /** A watch channel: its current value, and whether its sender is still alive. */
  datatype Channel = Channel(value: Option<Reply>, open: bool)

  datatype InFlight = InFlight(flight: nat, waiters: nat)

  /** Flights are numbered in the order they begin; the number names the flight's channel. */
  datatype Shared = Shared(inner: map<FlightKey, InFlight>, channels: map<nat, Channel>, next: nat)

  datatype Begun = Leader(flight: nat) | Waiter(flight: nat) | OverCapacity

  function Begin(s: Shared, key: FlightKey, cap: nat): (Shared, Begun) {
    if key in s.inner then
      var entry := s.inner[key];
      if entry.waiters >= cap then (s, OverCapacity)
      else (s.(inner := s.inner[key := entry.(waiters := entry.waiters + 1)]), Waiter(entry.flight))
    else
      (Shared(s.inner[key := InFlight(s.next, 0)], s.channels[s.next := Channel(None, true)], s.next + 1),
       Leader(s.next))
  }

  /** First half of publishing: under the lock, take the key's entry, and with it the sender, out of the map. */
  function TakeEntry(s: Shared, key: FlightKey): (Shared, Option<nat>) {
    if key in s.inner then (s.(inner := s.inner - {key}), Some(s.inner[key].flight)) else (s, None)
  }

  /** Second half, outside the lock: send on the taken sender and let it go. */
  function Send(s: Shared, taken: Option<nat>, reply: Reply): Shared {
    match taken
    case None => s
    case Some(flight) => s.(channels := s.channels[flight := Channel(Some(reply), false)])
  }

  /** A leader going away without publishing removes the key's entry; its sender dies with it. */
  function DropEntry(s: Shared, key: FlightKey): Shared {
    if key !in s.inner then s
    else
      var flight := s.inner[key].flight;
      s.(inner := s.inner - {key},
         channels := if flight in s.channels then s.channels[flight := s.channels[flight].(open := false)] else s.channels)
  }

  datatype Polled = StillWaiting | Received(reply: Reply) | LeaderGone

  /** One turn of a waiter's loop: a value wins, then a closed channel, else wait for a change. */
  function Poll(s: Shared, flight: nat): Polled {
    if flight !in s.channels then LeaderGone
    else
      match s.channels[flight].value
      case Some(reply) => Received(reply)
      case None => if s.channels[flight].open then StillWaiting else LeaderGone
  }

  // ---- The protocol ----

  /** A leader's life; `Sending` is between its two halves of publishing. */
  datatype LeaderState =
    | Live(key: FlightKey)
    | Sending(taken: Option<nat>, reply: Reply)
    | Published(reply: Reply)
    | Dropped

  datatype WaiterState =
    | Waiting(flight: nat)
    | Resolved(flight: nat, reply: Reply)
    | Orphaned(flight: nat)
    | Cancelled(flight: nat)

  datatype Group = Group(shared: Shared, leaders: map<nat, LeaderState>, waiters: seq<WaiterState>)

  const EMPTY_GROUP: Group := Group(Shared(map[], map[], 0), map[], [])

  datatype Action =
    | Arrive(key: FlightKey)
    | PublishTake(f: nat, reply: Reply)
    | PublishSend(f: nat)
    | DropLeader(f: nat)
    | PollWaiter(w: nat)
    | CancelWaiter(w: nat)

  predicate Ready(g: Group, a: Action) {
    match a
    case Arrive(_) => true
    case PublishTake(f, _) => f in g.leaders && g.leaders[f].Live?
    case PublishSend(f) => f in g.leaders && g.leaders[f].Sending?
    case DropLeader(f) => f in g.leaders && g.leaders[f].Live?
    case PollWaiter(w) => w < |g.waiters| && g.waiters[w].Waiting?
    case CancelWaiter(w) => w < |g.waiters| && g.waiters[w].Waiting?
  }

  function Act(g: Group, a: Action, cap: nat): Group
    requires Ready(g, a)
  {
    match a
    case Arrive(key) =>
      var (shared, begun) := Begin(g.shared, key, cap);
      (match begun
       case Leader(f) => g.(shared := shared, leaders := g.leaders[f := Live(key)])
       case Waiter(f) => g.(shared := shared, waiters := g.waiters + [Waiting(f)])
       case OverCapacity => g)
    case PublishTake(f, reply) =>
      var (shared, taken) := TakeEntry(g.shared, g.leaders[f].key);
      g.(shared := shared, leaders := g.leaders[f := Sending(taken, reply)])
    case PublishSend(f) =>
      var Sending(taken, reply) := g.leaders[f];
      g.(shared := Send(g.shared, taken, reply), leaders := g.leaders[f := Published(reply)])
    case DropLeader(f) =>
      g.(shared := DropEntry(g.shared, g.leaders[f].key), leaders := g.leaders[f := Dropped])
    case PollWaiter(w) =>
      var flight := g.waiters[w].flight;
      (match Poll(g.shared, flight)
       case StillWaiting => g
       case Received(reply) => g.(waiters := g.waiters[w := Resolved(flight, reply)])
       case LeaderGone => g.(waiters := g.waiters[w := Orphaned(flight)]))
    case CancelWaiter(w) =>
      g.(waiters := g.waiters[w := Cancelled(g.waiters[w].flight)])
  }

  ghost predicate Run(groups: seq<Group>, actions: seq<Action>, cap: nat) {
    && |groups| == |actions| + 1 && groups[0] == EMPTY_GROUP
    && forall i :: 0 <= i < |actions| ==> Ready(groups[i], actions[i]) && groups[i + 1] == Act(groups[i], actions[i], cap)
  }

  // ---- The invariant ----

  /** The map holds exactly the live leaders, each under its own key. */
  ghost predicate MapIsLiveLeaders(g: Group) {
    && (forall k :: k in g.shared.inner ==>
          g.shared.inner[k].flight in g.leaders && g.leaders[g.shared.inner[k].flight] == Live(k))
    && (forall f :: f in g.leaders && g.leaders[f].Live? ==>
          g.leaders[f].key in g.shared.inner && g.shared.inner[g.leaders[f].key].flight == f)
  }

  /** A flight's channel tells how its leader stands. */
  predicate ChannelTells(leader: LeaderState, f: nat, channel: Channel) {
    match leader
    case Live(_) => channel == Channel(None, true)
    case Sending(taken, _) => taken == Some(f) && channel == Channel(None, true)
    case Published(reply) => channel == Channel(Some(reply), false)
    case Dropped => channel == Channel(None, false)
  }

  ghost predicate ChannelsTell(g: Group) {
    && g.shared.channels.Keys == g.leaders.Keys
    && forall f :: f in g.leaders ==> f < g.shared.next && ChannelTells(g.leaders[f], f, g.shared.channels[f])
  }

  predicate WaiterTrue(g: Group, w: WaiterState) {
    && w.flight in g.leaders
    && (w.Resolved? ==> g.leaders[w.flight] == Published(w.reply))
    && (w.Orphaned? ==> g.leaders[w.flight] == Dropped)
  }

  ghost predicate WaitersTrue(g: Group) {
    forall w :: 0 <= w < |g.waiters| ==> WaiterTrue(g, g.waiters[w])
  }

  /** How many waiters ever joined a flight. */
  function Joined(waiters: seq<WaiterState>, f: nat): nat {
    if waiters == [] then 0
    else Joined(waiters[..|waiters| - 1], f) + if waiters[|waiters| - 1].flight == f then 1 else 0
  }

  ghost predicate CountsExact(g: Group, cap: nat) {
    && (forall f :: f in g.leaders ==> Joined(g.waiters, f) <= cap)
    && (forall k :: k in g.shared.inner ==> g.shared.inner[k].waiters == Joined(g.waiters, g.shared.inner[k].flight))
  }

  ghost predicate Inv(g: Group, cap: nat) {
    MapIsLiveLeaders(g) && ChannelsTell(g) && WaitersTrue(g) && CountsExact(g, cap)
  }

  lemma {:induction false} JoinedSameFlights(a: seq<WaiterState>, b: seq<WaiterState>, f: nat)
    requires |a| == |b| && forall i :: 0 <= i < |a| ==> a[i].flight == b[i].flight
    ensures Joined(a, f) == Joined(b, f)
    decreases |a|
  {
    if a != [] {
      JoinedSameFlights(a[..|a| - 1], b[..|b| - 1], f);
    }
  }

  lemma {:induction false} JoinedNobody(waiters: seq<WaiterState>, f: nat)
    requires forall i :: 0 <= i < |waiters| ==> waiters[i].flight != f
    ensures Joined(waiters, f) == 0
    decreases |waiters|
  {
    if waiters != [] {
      JoinedNobody(waiters[..|waiters| - 1], f);
    }
  }

  lemma JoinedOneMore(waiters: seq<WaiterState>, w: WaiterState, f: nat)
    ensures Joined(waiters + [w], f) == Joined(waiters, f) + if w.flight == f then 1 else 0
  {
    assert (waiters + [w])[..|waiters|] == waiters;
  }

  lemma LeadingKeepsInv(g: Group, key: FlightKey, cap: nat)
    requires Inv(g, cap) && key !in g.shared.inner
    ensures Inv(Act(g, Arrive(key), cap), cap)
  {
    assert g.shared.next !in g.leaders;
    JoinedNobody(g.waiters, g.shared.next);
  }

  lemma JoiningKeepsInv(g: Group, key: FlightKey, cap: nat)
    requires Inv(g, cap) && key in g.shared.inner
    ensures Inv(Act(g, Arrive(key), cap), cap)
  {
    var flight := g.shared.inner[key].flight;
    forall f { JoinedOneMore(g.waiters, Waiting(flight), f); }
    assert MapIsLiveLeaders(Act(g, Arrive(key), cap));
  }

  lemma TakingKeepsInv(g: Group, f: nat, reply: Reply, cap: nat)
    requires Inv(g, cap) && Ready(g, PublishTake(f, reply))
    ensures Inv(Act(g, PublishTake(f, reply), cap), cap)
  {
  }

  lemma SendingKeepsInv(g: Group, f: nat, cap: nat)
    requires Inv(g, cap) && Ready(g, PublishSend(f))
    ensures Inv(Act(g, PublishSend(f), cap), cap)
  {
  }

  lemma DroppingKeepsInv(g: Group, f: nat, cap: nat)
    requires Inv(g, cap) && Ready(g, DropLeader(f))
    ensures Inv(Act(g, DropLeader(f), cap), cap)
  {
  }

  lemma WaiterKeepsInv(g: Group, a: Action, cap: nat)
    requires Inv(g, cap) && Ready(g, a) && (a.PollWaiter? || a.CancelWaiter?)
    ensures Inv(Act(g, a, cap), cap)
  {
    var g' := Act(g, a, cap);
    forall f { JoinedSameFlights(g.waiters, g'.waiters, f); }
  }

  lemma ActionKeepsInv(g: Group, a: Action, cap: nat)
    requires Inv(g, cap) && Ready(g, a)
    ensures Inv(Act(g, a, cap), cap)
  {
    match a {
      case Arrive(key) =>
        if key in g.shared.inner {
          JoiningKeepsInv(g, key, cap);
        } else {
          LeadingKeepsInv(g, key, cap);
        }
      case PublishTake(f, reply) => TakingKeepsInv(g, f, reply, cap);
      case PublishSend(f) => SendingKeepsInv(g, f, cap);
      case DropLeader(f) => DroppingKeepsInv(g, f, cap);
      case PollWaiter(_) => WaiterKeepsInv(g, a, cap);
      case CancelWaiter(_) => WaiterKeepsInv(g, a, cap);
    }
  }

  lemma {:induction false} RunsKeepInv(groups: seq<Group>, actions: seq<Action>, cap: nat, j: nat)
    requires Run(groups, actions, cap) && j < |groups|
    ensures Inv(groups[j], cap)
    decreases j
  {
    if j > 0 {
      RunsKeepInv(groups, actions, cap, j - 1);
      ActionKeepsInv(groups[j - 1], actions[j - 1], cap);
    }
  }

  // ---- What every run guarantees ----

  /** Two live leaders never share a key, and no flight ever has more waiters than the cap. */
  lemma OneLeaderPerKey(groups: seq<Group>, actions: seq<Action>, cap: nat, j: nat, f: nat, h: nat)
    requires Run(groups, actions, cap) && j < |groups|
    requires f in groups[j].leaders && h in groups[j].leaders
    requires groups[j].leaders[f].Live? && groups[j].leaders[h].Live?
    ensures groups[j].leaders[f].key == groups[j].leaders[h].key ==> f == h
    ensures Joined(groups[j].waiters, f) <= cap
    ensures groups[j].shared.inner.Keys == set q | q in groups[j].leaders && groups[j].leaders[q].Live? :: groups[j].leaders[q].key
  {
    RunsKeepInv(groups, actions, cap, j);
    var g := groups[j];
    var keys := set q | q in g.leaders && g.leaders[q].Live? :: g.leaders[q].key;
    forall k | k in g.shared.inner ensures k in keys { assert g.leaders[g.shared.inner[k].flight] == Live(k); }
  }

  ghost predicate Ended(leader: LeaderState) {
    leader.Published? || leader.Dropped?
  }

  /** A flight that has ended stays ended, the same way. */
  lemma {:induction false} EndingsAreFinal(groups: seq<Group>, actions: seq<Action>, cap: nat, i: nat, j: nat, f: nat)
    requires Run(groups, actions, cap) && i <= j < |groups|
    requires f in groups[i].leaders && Ended(groups[i].leaders[f])
    ensures f in groups[j].leaders && groups[j].leaders[f] == groups[i].leaders[f]
    decreases j
  {
    if i < j {
      EndingsAreFinal(groups, actions, cap, i, j - 1, f);
      RunsKeepInv(groups, actions, cap, j - 1);
    }
  }

  /**
   * A waiter is given exactly its own flight's published reply, or an error exactly when that flight's leader was
   * dropped; once the flight has ended its very next turn resolves it, so no waiter is left behind.
   */
  lemma WaitersFollowTheirFlight(groups: seq<Group>, actions: seq<Action>, cap: nat, j: nat, w: nat)
    requires Run(groups, actions, cap) && j < |groups| && w < |groups[j].waiters|
    ensures groups[j].waiters[w].flight in groups[j].leaders
    ensures groups[j].waiters[w].Resolved? ==>
      groups[j].leaders[groups[j].waiters[w].flight] == Published(groups[j].waiters[w].reply)
    ensures groups[j].waiters[w].Orphaned? ==> groups[j].leaders[groups[j].waiters[w].flight] == Dropped
    ensures groups[j].waiters[w].Waiting? ==>
      var f := groups[j].waiters[w].flight;
      Act(groups[j], PollWaiter(w), cap).waiters[w]
        == match groups[j].leaders[f]
           case Published(reply) => Resolved(f, reply)
           case Dropped => Orphaned(f)
           case _ => Waiting(f)
  {
    RunsKeepInv(groups, actions, cap, j);
    assert WaiterTrue(groups[j], groups[j].waiters[w]);
  }

  // ---- Who leads, who waits ----

  lemma ArrivalJoins(g: Group, key: FlightKey, cap: nat, f: nat)
    requires Inv(g, cap) && f in g.leaders && g.leaders[f] == Live(key)
    ensures var g' := Act(g, Arrive(key), cap);
      && g'.leaders == g.leaders
      && g'.waiters == if Joined(g.waiters, f) < cap then g.waiters + [Waiting(f)] else g.waiters
  {
    assert g.shared.inner[key].flight == f;
  }

  lemma ArrivalLeads(g: Group, key: FlightKey, cap: nat)
    requires Inv(g, cap) && forall f :: f in g.leaders ==> g.leaders[f] != Live(key)
    ensures var g' := Act(g, Arrive(key), cap);
      g'.waiters == g.waiters && exists f: nat :: f !in g.leaders && g'.leaders == g.leaders[f := Live(key)]
  {
    assert key !in g.shared.inner;
    assert g.shared.next !in g.leaders;
  }

  /**
   * In every run, a caller whose key has a live leader joins it if and only if fewer than the cap ever joined it, and
   * changes nothing otherwise; a caller whose key has none becomes its one leader, of a flight there never was before.
   */
  lemma ArrivalsJoinOrLead(groups: seq<Group>, actions: seq<Action>, cap: nat, i: nat, key: FlightKey)
    requires Run(groups, actions, cap) && i < |actions| && actions[i] == Arrive(key)
    ensures var (g, g') := (groups[i], groups[i + 1]);
      && (forall f :: f in g.leaders && g.leaders[f] == Live(key) ==>
            && g'.leaders == g.leaders
            && g'.waiters == if Joined(g.waiters, f) < cap then g.waiters + [Waiting(f)] else g.waiters)
      && ((forall f :: f in g.leaders ==> g.leaders[f] != Live(key)) ==>
            g'.waiters == g.waiters && exists f: nat :: f !in g.leaders && g'.leaders == g.leaders[f := Live(key)])
  {
    RunsKeepInv(groups, actions, cap, i);
    var g := groups[i];
    forall f | f in g.leaders && g.leaders[f] == Live(key) { ArrivalJoins(g, key, cap, f); }
    if forall f :: f in g.leaders ==> g.leaders[f] != Live(key) {
      ArrivalLeads(g, key, cap);
    }
  }

  /** A leader stays as it is until it publishes, in two halves, or goes away; nothing else moves it. */
  lemma LeadersMoveAsTold(groups: seq<Group>, actions: seq<Action>, cap: nat, i: nat, f: nat)
    requires Run(groups, actions, cap) && i < |actions| && f in groups[i].leaders
    ensures f in groups[i + 1].leaders
    ensures var (was, is_) := (groups[i].leaders[f], groups[i + 1].leaders[f]);
      && (actions[i] == DropLeader(f) ==> was.Live? && is_ == Dropped)
      && (actions[i] == PublishSend(f) ==> was.Sending? && is_ == Published(was.reply))
      && (actions[i].PublishTake? && actions[i].f == f ==> was.Live? && is_ == Sending(Some(f), actions[i].reply))
      && (actions[i].Arrive? || actions[i].PollWaiter? || actions[i].CancelWaiter? || actions[i].f != f ==> is_ == was)
  {
    RunsKeepInv(groups, actions, cap, i);
    RunsKeepInv(groups, actions, cap, i + 1);
  }

  /** A waiter waits until its turn finds its flight ended, or until it is cancelled; nothing else moves it. */
  lemma WaitersMoveAsTold(groups: seq<Group>, actions: seq<Action>, cap: nat, i: nat, w: nat)
    requires Run(groups, actions, cap) && i < |actions| && w < |groups[i].waiters|
    ensures w < |groups[i + 1].waiters| && groups[i].waiters[w].flight in groups[i].leaders
    ensures var (was, is_) := (groups[i].waiters[w], groups[i + 1].waiters[w]);
      && (actions[i] == CancelWaiter(w) ==> was.Waiting? && is_ == Cancelled(was.flight))
      && (actions[i] == PollWaiter(w) ==>
            && was.Waiting?
            && is_ == match groups[i].leaders[was.flight]
                      case Published(reply) => Resolved(was.flight, reply)
                      case Dropped => Orphaned(was.flight)
                      case _ => was)
      && (actions[i] != CancelWaiter(w) && actions[i] != PollWaiter(w) ==> is_ == was)
  {
    RunsKeepInv(groups, actions, cap, i);
    assert WaiterTrue(groups[i], groups[i].waiters[w]);
  }

  /** Anyone may arrive; a leader may publish or go away, and then send; a waiter may take its turn or be cancelled. */
  lemma AnyoneMayMove(g: Group, a: Action)
    requires match a
      case Arrive(_) => true
      case PublishTake(f, _) => f in g.leaders && g.leaders[f].Live?
      case PublishSend(f) => f in g.leaders && g.leaders[f].Sending?
      case DropLeader(f) => f in g.leaders && g.leaders[f].Live?
      case PollWaiter(w) => w < |g.waiters| && g.waiters[w].Waiting?
      case CancelWaiter(w) => w < |g.waiters| && g.waiters[w].Waiting?
    ensures Ready(g, a)
  {
  }

  /** The group as the gateway holds it: a map behind a lock, and the channels it hands out. */
  class SingleflightGroup {
    var inner: map<FlightKey, InFlight>
    var channels: map<nat, Channel>
    var next: nat
    const maxWaitersPerKey: nat

    ghost function View(): Shared
      reads this
    {
      Shared(inner, channels, next)
    }

    constructor (maxWaiters: nat)
      ensures View() == EMPTY_GROUP.shared && maxWaitersPerKey == maxWaiters
    {
      inner, channels, next := map[], map[], 0;
      maxWaitersPerKey := maxWaiters;
    }

    method Join(key: FlightKey) returns (begun: Begun)
      modifies this
      ensures (View(), begun) == Begin(old(View()), key, maxWaitersPerKey)
    {
      if key in inner {
        var entry := inner[key];
        if entry.waiters >= maxWaitersPerKey {
          return OverCapacity;
        }
        inner := inner[key := entry.(waiters := entry.waiters + 1)];
        return Waiter(entry.flight);
      }
      var flight := next;
      channels := channels[flight := Channel(None, true)];
      inner := inner[key := InFlight(flight, 0)];
      next := next + 1;
      return Leader(flight);
    }

    method Publish(key: FlightKey, reply: Reply)
      modifies this
      ensures var (s, taken) := TakeEntry(old(View()), key); View() == Send(s, taken, reply)
    {
      if key in inner {
        var flight := inner[key].flight;
        inner := inner - {key};
        channels := channels[flight := Channel(Some(reply), false)];
      }
    }

    method Abandon(key: FlightKey)
      modifies this
      ensures View() == DropEntry(old(View()), key)
    {
      if key in inner {
        var flight := inner[key].flight;
        inner := inner - {key};
        if flight in channels {
          channels := channels[flight := channels[flight].(open := false)];
        }
      }
    }
  }
}
