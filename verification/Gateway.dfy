/**
 * Requests through the gateway: which ones consult the cache, which reach the vendor, and what the answers are worth.
 * The cache is the write-once map, seen through its visible entries.
 */
module Gateway {
  import opened Types
  import opened Objects
  import opened Json
  import opened JsonText
  import opened JsonReading
  import opened JsonCodec
  import opened Sse
  import opened Streaming
  import opened Fingerprint

  /** The digest, and the JSON reader and writer. */
  datatype Env = Env(hash: string -> string, codec: Codec)

  /** An authenticated request, and whether the model and the request class may be cached at all. */
  datatype Call = Call(request: Request, eligible: bool)

  predicate WantsStream(call: Call) {
    call.request.body.Obj? && Get(call.request.body.fields, "stream") == Some(Bool(true))
  }

  function KeyOf(env: Env, call: Call): ObjKey {
    ObjKey(call.request.tenantId, CacheKey(env.hash, call.request))
  }

  /** What the vendor produced for a call: a body, or a captured stream. */
  datatype Payload = Plain(body: Json) | Streamed(stream: CapturedStream)

  function BodyOf(p: Payload): Json {
    match p
    case Plain(body) => body
    case Streamed(stream) => stream.finalBody
  }

  function EventsOf(p: Payload): Option<seq<SseEvent>> {
    match p
    case Plain(_) => None
    case Streamed(stream) => Some(stream.events)
  }

  /** The object written to the cache for it, and its text. */
  function ObjectOf(p: Payload): Json {
    match p
    case Plain(body) => body
    case Streamed(stream) => EncodeStream(stream)
  }

  function Stored(p: Payload): string {
    Serialize(ObjectOf(p))
  }

  datatype Answer = Replied(body: Json, events: Option<seq<SseEvent>>) | NotCached | Failed

  /** Where a call is: on its way to the vendor outside the cache, on its way as a cacheable miss, or answered. */
  datatype Stage =
    | Direct(call: Call)
    | Missed(call: Call)
    | Answered(call: Call, answer: Answer, missed: bool)

  function OnStreamRead(env: Env, text: string): Option<Answer> {
    match StreamObjectFrom(env.codec.parse, text)
    case Ok(Some(c)) => Some(Replied(c.finalBody, Some(c.events)))
    case Ok(None) => None
    case Err(_) => Some(Failed)
  }

  function OnPlainRead(env: Env, text: string): Answer {
    match CachedBodyFrom(env.codec.parse, text)
    case Ok(body) => Replied(body, None)
    case Err(_) => Failed
  }

  /** What reading the cache settles, if anything; `fetched` is false when the master or the store returned an error. */
  function Consult(env: Env, entries: map<ObjKey, string>, call: Call, fetched: bool): Option<Answer> {
    if call.request.control == WriteOnly then None
    else if !fetched then Some(Failed)
    else if KeyOf(env, call) !in entries then None
    else if WantsStream(call) then OnStreamRead(env, entries[KeyOf(env, call)])
    else Some(OnPlainRead(env, entries[KeyOf(env, call)]))
  }

  /** The decision a call meets on arrival; only plain requests ask whether the cache is up. */
  function Decide(env: Env, entries: map<ObjKey, string>, call: Call, cacheUp: bool, fetched: bool): Stage {
    var control := call.request.control;
    if control == Bypass || !call.eligible then Direct(call)
    else if !WantsStream(call) && !cacheUp then
      if control == CacheOnly then Answered(call, NotCached, false) else Direct(call)
    else
      match Consult(env, entries, call, fetched)
      case Some(answer) => Answered(call, answer, false)
      case None => if control == CacheOnly then Answered(call, NotCached, false) else Missed(call)
  }

  /** History: what the vendor produced, and for which call. */
  datatype Served = Served(call: Call, payload: Payload)

  datatype Gateway = Gateway(entries: map<ObjKey, string>, stages: map<nat, Stage>, served: seq<Served>)

  const EMPTY_GATEWAY: Gateway := Gateway(map[], map[], [])

  /**
   * `Respond` is the vendor's reply, or its failure, followed by the attempt to cache it, which may or may not land
   * whatever status is reported. `Share` hands a waiter what its flight's leader got. `Withdraw` is any mix of
   * evictions, revocations and removals.
   */
  datatype Action =
    | Arrive(id: nat, call: Call, cacheUp: bool, fetched: bool)
    | Respond(id: nat, payload: Option<Payload>, landed: bool)
    | Share(id: nat, leader: nat)
    | Withdraw(keys: set<ObjKey>)

  /** A stream was captured by `CollectStream`; a body was parsed. */
  ghost predicate Produced(env: Env, call: Call, p: Payload) {
    match p
    case Plain(body) => !WantsStream(call) && WellFormed(body)
    case Streamed(c) => WantsStream(call) && Completes(env.codec.parse, c.events, c.finalBody)
  }

  predicate SameFlight(env: Env, a: Call, b: Call) {
    && KeyOf(env, a) == KeyOf(env, b)
    && (a.request.control == ReadOnly <==> b.request.control == ReadOnly)
  }

  ghost predicate Ready(env: Env, g: Gateway, a: Action) {
    match a
    case Arrive(id, call, _, _) => id !in g.stages && WellFormed(call.request.body)
    case Respond(id, payload, _) =>
      && id in g.stages && !g.stages[id].Answered?
      && (payload.Some? ==> Produced(env, g.stages[id].call, payload.value))
    case Share(id, leader) =>
      && id in g.stages && g.stages[id].Missed? && !WantsStream(g.stages[id].call)
      && leader in g.stages && g.stages[leader].Answered? && g.stages[leader].missed
      && !WantsStream(g.stages[leader].call) && SameFlight(env, g.stages[id].call, g.stages[leader].call)
    case Withdraw(_) => true
  }

  /** Only a cacheable miss whose caller allows writes adds an entry, and only under a free key. */
  predicate Adds(env: Env, entries: map<ObjKey, string>, stage: Stage, landed: bool) {
    stage.Missed? && stage.call.request.control != ReadOnly && landed && KeyOf(env, stage.call) !in entries
  }

  function Cached(env: Env, entries: map<ObjKey, string>, stage: Stage, p: Payload, landed: bool): map<ObjKey, string> {
    if Adds(env, entries, stage, landed) then entries[KeyOf(env, stage.call) := Stored(p)] else entries
  }

  function DoRespond(env: Env, g: Gateway, id: nat, p: Payload, landed: bool): Gateway
    requires id in g.stages
  {
    var stage := g.stages[id];
    Gateway(Cached(env, g.entries, stage, p, landed),
            g.stages[id := Answered(stage.call, Replied(BodyOf(p), EventsOf(p)), stage.Missed?)],
            g.served + [Served(stage.call, p)])
  }

  function DoShare(g: Gateway, id: nat, leader: nat): Gateway
    requires id in g.stages && leader in g.stages && g.stages[leader].Answered?
  {
    g.(stages := g.stages[id := Answered(g.stages[id].call, g.stages[leader].answer, false)])
  }

  ghost function Act(env: Env, g: Gateway, a: Action): Gateway
    requires Ready(env, g, a)
  {
    match a
    case Arrive(id, call, cacheUp, fetched) =>
      g.(stages := g.stages[id := Decide(env, g.entries, call, cacheUp, fetched)])
    case Respond(id, None, _) =>
      g.(stages := g.stages[id := Answered(g.stages[id].call, Failed, g.stages[id].Missed?)])
    case Respond(id, Some(p), landed) =>
      DoRespond(env, g, id, p, landed)
    case Share(id, leader) => DoShare(g, id, leader)
    case Withdraw(keys) => g.(entries := g.entries - keys)
  }

  ghost predicate Step(env: Env, g: Gateway, a: Action, g': Gateway) {
    Ready(env, g, a) && g' == Act(env, g, a)
  }

  ghost predicate Run(env: Env, states: seq<Gateway>, actions: seq<Action>) {
    && |states| == |actions| + 1 && states[0] == EMPTY_GATEWAY
    && forall i :: 0 <= i < |actions| ==> Step(env, states[i], actions[i], states[i + 1])
  }

  /** Its object is stable, and a plain body is not tagged as one of the cache's own stream objects. */
  ghost predicate Replayable(env: Env, p: Payload) {
    Stable(env.codec, ObjectOf(p)) && (p.Plain? ==> !IsStreamingObject(p.body))
  }

  /** Everything that becomes an entry is replayable. */
  ghost predicate Faithful(env: Env, states: seq<Gateway>, actions: seq<Action>) {
    Run(env, states, actions) && forall i :: 0 <= i < |actions| ==> FaithfulStep(env, states[i], actions[i])
  }

  ghost predicate FaithfulStep(env: Env, g: Gateway, a: Action) {
    a.Respond? && a.payload.Some? && a.id in g.stages && Adds(env, g.entries, g.stages[a.id], a.landed) ==>
      Replayable(env, a.payload.value)
  }

  // ---- The invariant ----

  /** The modes that may add an entry; read-only, bypassing, cache-only and ineligible calls may not. */
  predicate MayWrite(call: Call) {
    call.eligible && (call.request.control == Default || call.request.control == WriteOnly || call.request.control == ForceReplay)
  }

  predicate MayAsk(call: Call) {
    call.request.control == CacheOnly ==> !call.eligible
  }

  ghost predicate ServedOk(env: Env, s: Served) {
    WellFormed(s.call.request.body) && Produced(env, s.call, s.payload) && MayAsk(s.call)
  }

  /** The entry is what the vendor produced for a call that may write; in faithful runs, replayable. */
  ghost predicate Writes(faithful: bool, env: Env, s: Served, k: ObjKey, text: string) {
    && KeyOf(env, s.call) == k && MayWrite(s.call) && text == Stored(s.payload)
    && (faithful ==> Replayable(env, s.payload))
  }

  ghost predicate EntryOk(faithful: bool, env: Env, served: seq<Served>, k: ObjKey, text: string) {
    exists s :: s in served && Writes(faithful, env, s, k, text)
  }

  /** The answer is the vendor's reply to some call with the same key, in the form this call asked for. */
  ghost predicate Replays(env: Env, call: Call, answer: Answer, s: Served) {
    && answer.Replied? && KeyOf(env, s.call) == KeyOf(env, call)
    && SameUpToOrder(answer.body, BodyOf(s.payload))
    && answer.events == (if WantsStream(call) then EventsOf(s.payload) else None)
    && (WantsStream(call) ==> s.payload.Streamed?)
  }

  ghost predicate StageOk(faithful: bool, env: Env, served: seq<Served>, stage: Stage) {
    && WellFormed(stage.call.request.body)
    && match stage
       case Direct(call) => MayAsk(call)
       case Missed(call) => call.eligible && call.request.control != CacheOnly && call.request.control != Bypass
       case Answered(call, answer, _) => faithful && answer.Replied? ==> exists s :: s in served && Replays(env, call, answer, s)
  }

  ghost predicate EntriesOk(faithful: bool, env: Env, g: Gateway) {
    forall k :: k in g.entries ==> EntryOk(faithful, env, g.served, k, g.entries[k])
  }

  ghost predicate StagesOk(faithful: bool, env: Env, served: seq<Served>, stages: map<nat, Stage>) {
    forall id :: id in stages ==> StageOk(faithful, env, served, stages[id])
  }

  ghost predicate Inv(faithful: bool, env: Env, g: Gateway) {
    && (forall s :: s in g.served ==> ServedOk(env, s))
    && EntriesOk(faithful, env, g)
    && StagesOk(faithful, env, g.served, g.stages)
  }

  // ---- Preservation ----

  lemma ProducedIsWellFormed(env: Env, call: Call, p: Payload)
    requires Sound(env.codec) && Produced(env, call, p)
    ensures WellFormed(BodyOf(p)) && SameUpToOrder(BodyOf(p), BodyOf(p))
  {
    match p {
      case Plain(_) =>
      case Streamed(c) => CompletionIsWellFormed(env.codec, c.events, c.finalBody);
    }
    SameReflexive(BodyOf(p));
  }

  /** Reading a stored payload gives a plain reader what the vendor produced if and only if it is replayable. */
  lemma StoredReadsBack(env: Env, s: Served)
    requires Sound(env.codec) && ServedOk(env, s)
    ensures var body := CachedBodyFrom(env.codec.parse, Stored(s.payload));
      body.Ok? && SameUpToOrder(body.value, BodyOf(s.payload)) <==> Replayable(env, s.payload)
  {
    ProducedIsWellFormed(env, s.call, s.payload);
    match s.payload {
      case Plain(body) => PlainBodiesReplay(env.codec, body);
      case Streamed(c) => StoredStreamsReplay(env.codec, c);
    }
  }

  /** ... and a streaming reader its events and body, or nothing if it was plain. */
  lemma StoredStreamsBack(env: Env, s: Served)
    requires Sound(env.codec) && ServedOk(env, s) && Replayable(env, s.payload)
    ensures var streamed := StreamObjectFrom(env.codec.parse, Stored(s.payload));
      match s.payload
      case Plain(_) => streamed == Ok(None)
      case Streamed(c) =>
        streamed.Ok? && streamed.value.Some? && streamed.value.value.events == c.events
        && SameUpToOrder(streamed.value.value.finalBody, c.finalBody)
  {
    ProducedIsWellFormed(env, s.call, s.payload);
    StableIsReprinted(env.codec.reprint, ObjectOf(s.payload));
    match s.payload {
      case Plain(body) => PlainBodiesReplay(env.codec, body);
      case Streamed(c) => StoredStreamsReplay(env.codec, c);
    }
  }

  /** A read of an entry that a served call stored replays that call's reply. */
  lemma HitReplays(env: Env, call: Call, s: Served)
    requires Sound(env.codec) && ServedOk(env, s) && KeyOf(env, s.call) == KeyOf(env, call)
    ensures WantsStream(call) && Replayable(env, s.payload) ==>
      var r := OnStreamRead(env, Stored(s.payload)); r.Some? ==> Replays(env, call, r.value, s)
    ensures !WantsStream(call) ==> (Replays(env, call, OnPlainRead(env, Stored(s.payload)), s) <==> Replayable(env, s.payload))
  {
    StoredReadsBack(env, s);
    if Replayable(env, s.payload) {
      StoredStreamsBack(env, s);
    }
  }

  lemma ConsultReplays(env: Env, g: Gateway, call: Call, fetched: bool)
    requires Sound(env.codec) && Inv(true, env, g)
    ensures var r := Consult(env, g.entries, call, fetched);
      r.Some? && r.value.Replied? ==> exists s :: s in g.served && Replays(env, call, r.value, s)
  {
    var k := KeyOf(env, call);
    if k in g.entries {
      assert EntryOk(true, env, g.served, k, g.entries[k]);
      var s :| s in g.served && Writes(true, env, s, k, g.entries[k]);
      HitReplays(env, call, s);
    }
  }

  lemma StageSurvives(faithful: bool, env: Env, served: seq<Served>, more: seq<Served>, stage: Stage)
    requires StageOk(faithful, env, served, stage)
    ensures StageOk(faithful, env, served + more, stage)
  {
    if faithful && stage.Answered? && stage.answer.Replied? {
      var s :| s in served && Replays(env, stage.call, stage.answer, s);
      assert s in served + more;
    }
  }

  lemma EntrySurvives(faithful: bool, env: Env, served: seq<Served>, more: seq<Served>, k: ObjKey, text: string)
    requires EntryOk(faithful, env, served, k, text)
    ensures EntryOk(faithful, env, served + more, k, text)
  {
    var s :| s in served && Writes(faithful, env, s, k, text);
    assert s in served + more;
  }

  lemma DecidedStageOk(faithful: bool, env: Env, g: Gateway, call: Call, cacheUp: bool, fetched: bool)
    requires Inv(faithful, env, g) && WellFormed(call.request.body) && (faithful ==> Sound(env.codec))
    ensures StageOk(faithful, env, g.served, Decide(env, g.entries, call, cacheUp, fetched))
  {
    if faithful {
      ConsultReplays(env, g, call, fetched);
    }
  }

  lemma ArriveKeepsInv(faithful: bool, env: Env, g: Gateway, a: Action)
    requires Inv(faithful, env, g) && a.Arrive? && Ready(env, g, a) && (faithful ==> Sound(env.codec))
    ensures Inv(faithful, env, Act(env, g, a))
  {
    DecidedStageOk(faithful, env, g, a.call, a.cacheUp, a.fetched);
  }

  lemma RespondKeepsEntries(faithful: bool, env: Env, g: Gateway, id: nat, p: Payload, landed: bool)
    requires Inv(faithful, env, g) && id in g.stages && !g.stages[id].Answered?
    requires faithful && Adds(env, g.entries, g.stages[id], landed) ==> Replayable(env, p)
    ensures EntriesOk(faithful, env, DoRespond(env, g, id, p, landed))
  {
    var g', s := DoRespond(env, g, id, p, landed), Served(g.stages[id].call, p);
    assert s in g'.served;
    assert StageOk(faithful, env, g.served, g.stages[id]);
    forall k | k in g'.entries ensures EntryOk(faithful, env, g'.served, k, g'.entries[k]) {
      if k in g.entries {
        EntrySurvives(faithful, env, g.served, [s], k, g.entries[k]);
      } else {
        assert Writes(faithful, env, s, k, g'.entries[k]);
      }
    }
  }

  lemma RespondKeepsStages(faithful: bool, env: Env, g: Gateway, id: nat, p: Payload, landed: bool)
    requires StagesOk(faithful, env, g.served, g.stages) && id in g.stages && !g.stages[id].Answered?
    requires Produced(env, g.stages[id].call, p) && (faithful ==> Sound(env.codec))
    ensures var g' := DoRespond(env, g, id, p, landed); StagesOk(faithful, env, g'.served, g'.stages)
  {
    var g', s := DoRespond(env, g, id, p, landed), Served(g.stages[id].call, p);
    assert s in g'.served;
    if faithful {
      ProducedIsWellFormed(env, s.call, p);
      assert Replays(env, s.call, g'.stages[id].answer, s);
    }
    forall q | q in g'.stages && q != id ensures StageOk(faithful, env, g'.served, g'.stages[q]) {
      StageSurvives(faithful, env, g.served, [s], g.stages[q]);
    }
    assert StageOk(faithful, env, g.served, g.stages[id]);
  }

  lemma RespondKeepsInv(faithful: bool, env: Env, g: Gateway, id: nat, p: Payload, landed: bool)
    requires Inv(faithful, env, g) && id in g.stages && !g.stages[id].Answered? && Produced(env, g.stages[id].call, p)
    requires faithful ==> Sound(env.codec)
    requires faithful && Adds(env, g.entries, g.stages[id], landed) ==> Replayable(env, p)
    ensures Inv(faithful, env, DoRespond(env, g, id, p, landed))
  {
    RespondKeepsEntries(faithful, env, g, id, p, landed);
    RespondKeepsStages(faithful, env, g, id, p, landed);
    assert StageOk(faithful, env, g.served, g.stages[id]);
  }

  /** A waiter's answer replays for it whatever it replayed for the leader: they have the same key. */
  lemma ShareKeepsStages(faithful: bool, env: Env, g: Gateway, id: nat, leader: nat)
    requires StagesOk(faithful, env, g.served, g.stages)
    requires id in g.stages && leader in g.stages && g.stages[leader].Answered?
    requires !WantsStream(g.stages[id].call) && !WantsStream(g.stages[leader].call)
    requires KeyOf(env, g.stages[id].call) == KeyOf(env, g.stages[leader].call)
    ensures StagesOk(faithful, env, g.served, DoShare(g, id, leader).stages)
  {
    var lead, mine := g.stages[leader], g.stages[id];
    assert StageOk(faithful, env, g.served, lead) && StageOk(faithful, env, g.served, mine);
    if faithful && lead.answer.Replied? {
      var s :| s in g.served && Replays(env, lead.call, lead.answer, s);
      assert Replays(env, mine.call, lead.answer, s);
    }
  }

  lemma ActionKeepsInv(faithful: bool, env: Env, g: Gateway, a: Action)
    requires Inv(faithful, env, g) && Ready(env, g, a) && (faithful ==> Sound(env.codec) && FaithfulStep(env, g, a))
    ensures Inv(faithful, env, Act(env, g, a))
  {
    match a {
      case Arrive(_, _, _, _) => ArriveKeepsInv(faithful, env, g, a);
      case Respond(id, Some(p), landed) => RespondKeepsInv(faithful, env, g, id, p, landed);
      case Respond(_, None, _) =>
      case Share(id, leader) => ShareKeepsStages(faithful, env, g, id, leader);
      case Withdraw(_) =>
    }
  }

  lemma {:induction false} RunsKeepInv(faithful: bool, env: Env, states: seq<Gateway>, actions: seq<Action>, j: nat)
    requires Run(env, states, actions) && j < |states|
    requires faithful ==> Sound(env.codec) && Faithful(env, states, actions)
    ensures Inv(faithful, env, states[j])
    decreases j
  {
    if j > 0 {
      RunsKeepInv(faithful, env, states, actions, j - 1);
      assert Step(env, states[j - 1], actions[j - 1], states[j]);
      ActionKeepsInv(faithful, env, states[j - 1], actions[j - 1]);
    }
  }

  // ---- What every run guarantees ----

  /**
   * In every run whose entries are replayable, whatever a call is answered with, from the vendor, the cache or
   * another caller's flight, is what the vendor produced for a request of the same tenant that is the same request (or
   * whose fingerprint text collides under the digest), and a streaming caller gets that reply's events.
   */
  lemma AnswersBelongToTheRequest(env: Env, states: seq<Gateway>, actions: seq<Action>, j: nat, id: nat) returns (s: Served)
    requires Sound(env.codec) && Run(env, states, actions) && Faithful(env, states, actions) && j < |states|
    requires id in states[j].stages && states[j].stages[id].Answered? && states[j].stages[id].answer.Replied?
    ensures var Answered(call, answer, _) := states[j].stages[id];
      && s in states[j].served && s.call.request.tenantId == call.request.tenantId
      && SameUpToOrder(answer.body, BodyOf(s.payload))
      && answer.events == (if WantsStream(call) then EventsOf(s.payload) else None)
      && (WantsStream(call) <==> answer.events.Some?)
      && (SameRequest(s.call.request, call.request)
          || (FingerprintText(s.call.request) != FingerprintText(call.request)
              && env.hash(FingerprintText(s.call.request)) == env.hash(FingerprintText(call.request))))
  {
    RunsKeepInv(true, env, states, actions, j);
    var stage := states[j].stages[id];
    assert StageOk(true, env, states[j].served, stage);
    s :| s in states[j].served && Replays(env, stage.call, stage.answer, s);
    assert ServedOk(env, s);
    KeysDifferUnlessHashCollides(env.hash, s.call.request, stage.call.request);
  }

  /** In every run, entries come only from calls whose mode may write, and no eligible cache-only call reaches the vendor. */
  lemma ModesAreRespected(env: Env, states: seq<Gateway>, actions: seq<Action>, j: nat)
    requires Run(env, states, actions) && j < |states|
    ensures forall k :: k in states[j].entries ==> exists s :: s in states[j].served && Writes(false, env, s, k, states[j].entries[k])
    ensures forall s :: s in states[j].served && s.call.request.control == CacheOnly ==> !s.call.eligible
  {
    RunsKeepInv(false, env, states, actions, j);
    forall k | k in states[j].entries ensures EntryOk(false, env, states[j].served, k, states[j].entries[k]) { }
  }

  /** A cache-only request goes to the vendor exactly when it is not eligible, whatever the cache holds. */
  lemma CacheOnlyReachesVendorIffIneligible(env: Env, entries: map<ObjKey, string>, call: Call, cacheUp: bool, fetched: bool)
    requires call.request.control == CacheOnly
    ensures !Decide(env, entries, call, cacheUp, fetched).Answered? <==> !call.eligible
  {
  }

  // ---- A run with a body that does not read back ----

  /** A default plain call that misses. */
  ghost predicate Ordinary(call: Call) {
    WellFormed(call.request.body) && call.eligible && call.request.control == Default && !WantsStream(call)
  }

  ghost predicate Reached(env: Env, g: Gateway) {
    exists states, actions :: Run(env, states, actions) && states[|actions|] == g
  }

  lemma RunGrows(env: Env, states: seq<Gateway>, actions: seq<Action>, a: Action, g': Gateway)
    requires Run(env, states, actions) && Step(env, states[|actions|], a, g')
    ensures Run(env, states + [g'], actions + [a])
  {
    var s, t := states + [g'], actions + [a];
    forall i | 0 <= i < |t| ensures Step(env, s[i], t[i], s[i + 1]) {
      if i < |actions| {
        assert s[i] == states[i] && s[i + 1] == states[i + 1] && t[i] == actions[i];
      }
    }
  }

  lemma ReachOn(env: Env, g: Gateway, a: Action, g': Gateway)
    requires Reached(env, g) && Step(env, g, a, g')
    ensures Reached(env, g')
  {
    var states, actions :| Run(env, states, actions) && states[|actions|] == g;
    RunGrows(env, states, actions, a, g');
    assert (states + [g'])[|actions + [a]|] == g';
  }

  lemma MissStep(env: Env, call: Call) returns (g: Gateway)
    requires Ordinary(call)
    ensures Reached(env, g) && g == Gateway(map[], map[0 := Missed(call)], [])
  {
    var a := Arrive(0, call, true, true);
    g := Act(env, EMPTY_GATEWAY, a);
    assert Run(env, [EMPTY_GATEWAY], []);
    ReachOn(env, EMPTY_GATEWAY, a, g);
  }

  lemma CacheStep(env: Env, g: Gateway, call: Call, body: Json) returns (g': Gateway)
    requires Ordinary(call) && WellFormed(body) && Reached(env, g) && g == Gateway(map[], map[0 := Missed(call)], [])
    ensures Reached(env, g') && 1 !in g'.stages
    ensures g'.entries == map[KeyOf(env, call) := Stored(Plain(body))] && g'.served == [Served(call, Plain(body))]
  {
    var a := Respond(0, Some(Plain(body)), true);
    g' := Act(env, g, a);
    ReachOn(env, g, a, g');
  }

  lemma HitStep(env: Env, g: Gateway, call: Call, text: string) returns (g': Gateway)
    requires Ordinary(call) && Reached(env, g) && 1 !in g.stages && g.entries == map[KeyOf(env, call) := text]
    ensures Reached(env, g') && g'.served == g.served
    ensures 1 in g'.stages && g'.stages[1] == Answered(call, OnPlainRead(env, text), false)
  {
    var a := Arrive(1, call, true, true);
    g' := Act(env, g, a);
    ReachOn(env, g, a, g');
  }

  lemma HitMisleads(env: Env, call: Call, body: Json, served: seq<Served>)
    requires Sound(env.codec) && Ordinary(call) && WellFormed(body) && !Replayable(env, Plain(body))
    requires served == [Served(call, Plain(body))]
    ensures forall s :: s in served ==> !Replays(env, call, OnPlainRead(env, Stored(Plain(body))), s)
  {
    HitReplays(env, call, served[0]);
  }

  /** Any tagged or unstable body, once cached for a plain call, is not what the next such call is answered with. */
  lemma MisreadBodyRun(env: Env, call: Call, body: Json) returns (states: seq<Gateway>, actions: seq<Action>, id: nat)
    requires Sound(env.codec) && Ordinary(call) && WellFormed(body) && !Replayable(env, Plain(body))
    ensures Run(env, states, actions)
    ensures var g := states[|actions|];
      && id in g.stages && g.stages[id].Answered? && g.stages[id].call == call
      && g.served == [Served(call, Plain(body))]
      && forall s :: s in g.served ==> !Replays(env, call, g.stages[id].answer, s)
  {
    var g1 := MissStep(env, call);
    var g2 := CacheStep(env, g1, call, body);
    var g3 := HitStep(env, g2, call, Stored(Plain(body)));
    HitMisleads(env, call, body, g3.served);
    id := 1;
    states, actions :| Run(env, states, actions) && states[|actions|] == g3;
  }
}
