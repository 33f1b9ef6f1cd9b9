/** When a call is answered from the cache, when it is not, and what becomes of it then, for every mode and both forms. */
module GatewayOutcomes {
  import opened Types
  import opened Objects
  import opened Json
  import opened JsonText
  import opened JsonCodec
  import opened Streaming
  import opened Fingerprint
  import opened Gateway

  // ---- On arrival ----

  /** Streaming calls use the cache without asking whether it is up. */
  predicate CanUse(call: Call, cacheUp: bool) {
    WantsStream(call) || cacheUp
  }

  /** The call reads the cache before anything else. */
  predicate Reads(call: Call, cacheUp: bool) {
    call.eligible && call.request.control != Bypass && call.request.control != WriteOnly && CanUse(call, cacheUp)
  }

  /** There is no entry, or none of the form a streaming call can replay. */
  predicate NothingFor(env: Env, entries: map<ObjKey, string>, call: Call) {
    KeyOf(env, call) in entries ==>
      WantsStream(call) && StreamObjectFrom(env.codec.parse, entries[KeyOf(env, call)]) == Ok(None)
  }

  predicate Unreadable(env: Env, entries: map<ObjKey, string>, call: Call) {
    && KeyOf(env, call) in entries
    && var text := entries[KeyOf(env, call)];
       if WantsStream(call) then StreamObjectFrom(env.codec.parse, text).Err? else CachedBodyFrom(env.codec.parse, text).Err?
  }

  /** Where a call may be after its arrival, each place for exactly these calls. */
  ghost predicate Arrived(env: Env, entries: map<ObjKey, string>, call: Call, cacheUp: bool, fetched: bool, stage: Stage) {
    && stage.call == call && (stage.Answered? ==> !stage.missed)
    && (stage.Direct? <==>
          !call.eligible || call.request.control == Bypass
          || (!CanUse(call, cacheUp) && call.request.control != CacheOnly))
    && (stage.Missed? <==>
          && call.eligible && call.request.control != Bypass && call.request.control != CacheOnly && CanUse(call, cacheUp)
          && (call.request.control == WriteOnly || (fetched && NothingFor(env, entries, call))))
    && (stage.Answered? && stage.answer == NotCached <==>
          && call.eligible && call.request.control == CacheOnly
          && (!CanUse(call, cacheUp) || (fetched && NothingFor(env, entries, call))))
    && (stage.Answered? && stage.answer == Failed <==>
          Reads(call, cacheUp) && (!fetched || Unreadable(env, entries, call)))
    && (stage.Answered? && stage.answer.Replied? <==>
          Reads(call, cacheUp) && fetched && !NothingFor(env, entries, call) && !Unreadable(env, entries, call))
  }

  /** In every run, whatever became an entry. */
  lemma ArrivalOutcome(env: Env, states: seq<Gateway>, actions: seq<Action>, i: nat)
    requires Run(env, states, actions) && i < |actions| && actions[i].Arrive?
    ensures var Arrive(id, call, cacheUp, fetched) := actions[i];
      && id !in states[i].stages && id in states[i + 1].stages
      && states[i + 1] == states[i].(stages := states[i].stages[id := states[i + 1].stages[id]])
      && Arrived(env, states[i].entries, call, cacheUp, fetched, states[i + 1].stages[id])
  {
    assert Step(env, states[i], actions[i], states[i + 1]);
  }

  /** What a call was stored for can be read, and holds a stream exactly if it was one. */
  lemma EntryForms(env: Env, g: Gateway, call: Call, s: Served)
    requires Sound(env.codec) && ServedOk(env, s) && KeyOf(env, call) in g.entries
    requires Writes(true, env, s, KeyOf(env, call), g.entries[KeyOf(env, call)])
    ensures NothingFor(env, g.entries, call) <==> WantsStream(call) && s.payload.Plain?
    ensures !Unreadable(env, g.entries, call)
  {
    StoredReadsBack(env, s);
    StoredStreamsBack(env, s);
  }

  lemma ReadReplays(env: Env, g: Gateway, call: Call, cacheUp: bool, fetched: bool, stage: Stage, s: Served)
    requires Sound(env.codec) && ServedOk(env, s) && KeyOf(env, call) in g.entries
    requires Writes(true, env, s, KeyOf(env, call), g.entries[KeyOf(env, call)])
    requires stage == Decide(env, g.entries, call, cacheUp, fetched) && stage.Answered? && stage.answer.Replied?
    ensures Replays(env, call, stage.answer, s)
  {
    HitReplays(env, call, s);
  }

  /** Some call's reply was stored under the key and is there to read. */
  ghost predicate HasStored(env: Env, g: Gateway, call: Call, s: Served) {
    && s in g.served && KeyOf(env, call) in g.entries
    && Writes(true, env, s, KeyOf(env, call), g.entries[KeyOf(env, call)])
  }

  /** The answer on arrival is a reply exactly if an entry of the right form is read, and it replays what was stored. */
  ghost predicate FromEntry(env: Env, g: Gateway, call: Call, cacheUp: bool, fetched: bool, stage: Stage) {
    && (stage.Answered? && stage.answer.Replied? <==>
          Reads(call, cacheUp) && fetched
          && exists s :: HasStored(env, g, call, s) && (WantsStream(call) ==> s.payload.Streamed?))
    && (stage.Answered? && stage.answer.Replied? ==>
          forall s :: HasStored(env, g, call, s) ==> Replays(env, call, stage.answer, s))
  }

  lemma DecidedFromEntry(env: Env, g: Gateway, call: Call, cacheUp: bool, fetched: bool, stage: Stage)
    requires Sound(env.codec) && Inv(true, env, g) && stage == Decide(env, g.entries, call, cacheUp, fetched)
    requires Arrived(env, g.entries, call, cacheUp, fetched, stage)
    ensures FromEntry(env, g, call, cacheUp, fetched, stage)
  {
    var k := KeyOf(env, call);
    if k in g.entries {
      assert EntryOk(true, env, g.served, k, g.entries[k]);
      var s :| s in g.served && Writes(true, env, s, k, g.entries[k]);
      assert HasStored(env, g, call, s);
      EntryForms(env, g, call, s);
    }
    forall s | HasStored(env, g, call, s)
      ensures WantsStream(call) ==> (s.payload.Streamed? <==> !NothingFor(env, g.entries, call))
      ensures stage.Answered? && stage.answer.Replied? ==> Replays(env, call, stage.answer, s)
    {
      OneEntry(env, g, call, cacheUp, fetched, stage, s);
    }
  }

  lemma OneEntry(env: Env, g: Gateway, call: Call, cacheUp: bool, fetched: bool, stage: Stage, s: Served)
    requires Sound(env.codec) && Inv(true, env, g) && stage == Decide(env, g.entries, call, cacheUp, fetched)
    requires HasStored(env, g, call, s)
    ensures WantsStream(call) ==> (s.payload.Streamed? <==> !NothingFor(env, g.entries, call))
    ensures stage.Answered? && stage.answer.Replied? ==> Replays(env, call, stage.answer, s)
  {
    EntryForms(env, g, call, s);
    if stage.Answered? && stage.answer.Replied? {
      ReadReplays(env, g, call, cacheUp, fetched, stage, s);
    }
  }

  /**
   * In every run whose entries are replayable, a call is answered from an entry on arrival if and only if it is eligible,
   * its mode is neither bypass nor write-only, it streams or the cache is up, the read worked, its key has an entry, and
   * that entry is of a stream if the call streams; the answer then replays the reply that was stored.
   */
  lemma AnsweredFromEntryIff(env: Env, states: seq<Gateway>, actions: seq<Action>, i: nat)
    requires Sound(env.codec) && Run(env, states, actions) && Faithful(env, states, actions)
    requires i < |actions| && actions[i].Arrive?
    ensures var Arrive(id, call, cacheUp, fetched) := actions[i];
      id in states[i + 1].stages && FromEntry(env, states[i], call, cacheUp, fetched, states[i + 1].stages[id])
  {
    var Arrive(id, call, cacheUp, fetched) := actions[i];
    RunsKeepInv(true, env, states, actions, i);
    ArrivalOutcome(env, states, actions, i);
    assert Step(env, states[i], actions[i], states[i + 1]);
    DecidedFromEntry(env, states[i], call, cacheUp, fetched, states[i + 1].stages[id]);
  }

  // ---- On the vendor's reply ----

  /** A call under way stands where its arrival put it. */
  lemma {:induction false} PendingSinceArrival(env: Env, states: seq<Gateway>, actions: seq<Action>, j: nat, id: nat)
    returns (i: nat)
    requires Run(env, states, actions) && j < |states| && id in states[j].stages && !states[j].stages[id].Answered?
    ensures i < j && actions[i].Arrive? && actions[i].id == id && id in states[i + 1].stages
    ensures states[j].stages[id] == states[i + 1].stages[id] && states[j].stages[id].call == actions[i].call
    decreases j
  {
    assert Step(env, states[j - 1], actions[j - 1], states[j]);
    if actions[j - 1].Arrive? && actions[j - 1].id == id {
      i := j - 1;
      ArrivalOutcome(env, states, actions, i);
    } else {
      i := PendingSinceArrival(env, states, actions, j - 1, id);
    }
  }

  /**
   * In every run: a reply is what the vendor's body and events say; it becomes an entry exactly if the call had missed, is
   * not read-only, the write landed, and its key was free; a failure becomes nothing; only a call that missed has an answer
   * to share.
   */
  lemma RespondOutcome(env: Env, states: seq<Gateway>, actions: seq<Action>, i: nat)
    requires Run(env, states, actions) && i < |actions| && actions[i].Respond?
    ensures var Respond(id, payload, landed) := actions[i];
      && id in states[i].stages && id in states[i + 1].stages
      && var (g, g', call) := (states[i], states[i + 1], states[i].stages[id].call);
         && g'.stages == g.stages[id := g'.stages[id]] && g'.stages[id].Answered? && g'.stages[id].call == call
         && (g'.stages[id].missed <==> g.stages[id].Missed?)
         && match payload
            case None => g'.stages[id].answer == Failed && g'.entries == g.entries && g'.served == g.served
            case Some(Plain(body)) =>
              && g'.stages[id].answer == Replied(body, None) && g'.served == g.served + [Served(call, Plain(body))]
              && g'.entries == if Lands(env, g, id, landed) then g.entries[KeyOf(env, call) := Serialize(body)] else g.entries
            case Some(Streamed(c)) =>
              && g'.stages[id].answer == Replied(c.finalBody, Some(c.events))
              && g'.served == g.served + [Served(call, Streamed(c))]
              && g'.entries ==
                   if Lands(env, g, id, landed) then g.entries[KeyOf(env, call) := SerializeStreamObject(c)] else g.entries
  {
    assert Step(env, states[i], actions[i], states[i + 1]);
  }

  predicate Lands(env: Env, g: Gateway, id: nat, landed: bool)
    requires id in g.stages
  {
    && landed && g.stages[id].Missed? && g.stages[id].call.request.control != ReadOnly
    && KeyOf(env, g.stages[id].call) !in g.entries
  }

  /**
   * In every run: only calls with one key, read-only both or neither, share a flight, and the waiter is answered as the
   * leader was; nothing else moves.
   */
  lemma ShareOutcome(env: Env, states: seq<Gateway>, actions: seq<Action>, i: nat)
    requires Run(env, states, actions) && i < |actions| && actions[i].Share?
    ensures var Share(id, leader) := actions[i];
      var (g, g') := (states[i], states[i + 1]);
      && id in g.stages && leader in g.stages && g.stages[leader].Answered? && id in g'.stages
      && KeyOf(env, g.stages[id].call) == KeyOf(env, g.stages[leader].call)
      && (g.stages[id].call.request.control == ReadOnly <==> g.stages[leader].call.request.control == ReadOnly)
      && !WantsStream(g.stages[id].call) && !WantsStream(g.stages[leader].call)
      && g' == g.(stages := g.stages[id := g'.stages[id]])
      && g'.stages[id] == Answered(g.stages[id].call, g.stages[leader].answer, false)
  {
    assert Step(env, states[i], actions[i], states[i + 1]);
  }


  /** A call streams exactly if its body is an object with a `stream` member that is true. */
  lemma WantsStreamIff(call: Call)
    requires WellFormed(call.request.body)
    ensures WantsStream(call) <==> call.request.body.Obj? && Field("stream", Bool(true)) in call.request.body.fields
  {
    if call.request.body.Obj? {
      GetIsMember(call.request.body.fields, "stream", Bool(true));
    }
  }

  /**
   * In every run anyone may arrive, entries may go at any time, a call under way can get any reply of its form, and a plain
   * one that missed can share any answer its flight has.
   */
  lemma CallsCanMove(env: Env, states: seq<Gateway>, actions: seq<Action>, j: nat, a: Action)
    requires Run(env, states, actions) && j < |states|
    requires var g := states[j];
      match a
      case Arrive(id, call, _, _) => id !in g.stages && WellFormed(call.request.body)
      case Respond(id, payload, _) =>
        && id in g.stages && !g.stages[id].Answered?
        && (match payload
            case None => true
            case Some(Plain(body)) => !WantsStream(g.stages[id].call) && WellFormed(body)
            case Some(Streamed(c)) => WantsStream(g.stages[id].call) && Completes(env.codec.parse, c.events, c.finalBody))
      case Share(id, leader) =>
        && id in g.stages && leader in g.stages && g.stages[id].Missed? && g.stages[leader].Answered? && g.stages[leader].missed
        && !WantsStream(g.stages[id].call) && !WantsStream(g.stages[leader].call)
        && KeyOf(env, g.stages[id].call) == KeyOf(env, g.stages[leader].call)
        && (g.stages[id].call.request.control == ReadOnly <==> g.stages[leader].call.request.control == ReadOnly)
      case Withdraw(_) => true
    ensures Ready(env, states[j], a)
  {
  }
}
