/** The master service: handlers that change the master under its lock and then save a snapshot of it. */
module MasterApp {
  import opened Types
  import opened Segments
  import opened Objects
  import opened Master
  import opened MasterRuns
  import opened Snapshots

  /** A commit that took effect: the step of its `put_end`, and its replicas. */
  datatype Commit = Commit(since: nat, replicas: seq<Replica>)

  type Commits = map<ObjKey, Commit>

  /** A snapshot, the step at which it was taken, and the commits that stood in the table then. */
  datatype Shot = Shot(snapshot: Snapshot, taken: nat, commits: Commits)

  /**
   * A handler since its change at step `at`, under the leader of `epoch`; `standing` until a revoke or removal takes its
   * key's commit back; `shot` once taken.
   */
  datatype Handler = Handler(op: Op, at: nat, epoch: nat, standing: bool, shot: Option<Shot>)

  /**
   * Stamps, `commits`, `acked` and `epoch` are history. `commits` are those that stand in the table; `acked` those
   * answered with success and not revoked or removed since, nor already lost to a failover; `epoch` counts failovers.
   */
  datatype App = App(
    master: Master,
    commits: Commits,
    register: Option<Shot>,
    handlers: map<nat, Handler>,
    acked: Commits,
    epoch: nat,
    steps: nat)

  datatype AppAction =
    | Change(h: nat, op: Op)
    | Snap(h: nat, snapshot: Snapshot)
    | Save(h: nat)
    | SaveFails(h: nat, landed: bool)
    | Serve(k: ObjKey, nowMs: u64)
    | Failover

  /** Operations that have a handler; eviction has none. */
  predicate Handled(op: Op) {
    op.OpMount? || op.OpSetQuota? || op.OpPutStart? || op.OpPutEnd? || op.OpPutRevoke? || op.OpRemove?
  }

  /** The master after a handled operation, and whether it succeeded. */
  ghost function Handle(m: Master, op: Op): (Master, bool) {
    match op
    case OpMount(nodeId, capacity) => (MountSegment(m, nodeId, capacity), true)
    case OpSetQuota(tenant, dram, ssd) => var (m', r) := SetTenantQuota(m, tenant, dram, ssd); (m', r.Ok?)
    case OpPutStart(k, len, count) => var (m', r) := PutStart(m, k, len, count); (m', r.Ok?)
    case OpPutEnd(k) => var (m', r) := PutEnd(m, k); (m', r.Ok?)
    case OpPutRevoke(k) => var (m', r) := PutRevoke(m, k); (m', r.Ok?)
    case OpRemove(k) => var (m', r) := Remove(m, k); (m', r.Ok?)
    case _ => (m, false)
  }

  /** A master started on what the register holds: the saved tables and one default segment. */
  function Reload(register: Option<Shot>): Master {
    MountSegment(match register case Some(shot) => Restore(shot.snapshot) case None => EMPTY, "default", 1_048_576)
  }

  function CommitsOf(register: Option<Shot>): Commits {
    match register case Some(shot) => shot.commits case None => map[]
  }

  ghost predicate AppReady(app: App, a: AppAction) {
    match a
    case Change(h, op) => h !in app.handlers && Handled(op)
    case Snap(h, snapshot) => h in app.handlers && app.handlers[h].shot.None? && IsSnapshot(app.master, snapshot)
    case Save(h) => h in app.handlers && app.handlers[h].shot.Some?
    case SaveFails(h, _) => h in app.handlers && app.handlers[h].shot.Some?
    case Serve(_, _) => true
    case Failover => true
  }

  /** The operation takes a commit of `k` back. */
  predicate Undoes(op: Op, k: ObjKey) {
    op == OpPutRevoke(k) || op == OpRemove(k)
  }

  function Undone(handlers: map<nat, Handler>, op: Op): map<nat, Handler> {
    map h | h in handlers ::
      if handlers[h].op.OpPutEnd? && Undoes(op, handlers[h].op.k) then handlers[h].(standing := false) else handlers[h]
  }

  function Withdraw(commits: Commits, op: Op): Commits {
    map k | k in commits && !Undoes(op, k) :: commits[k]
  }

  predicate Covers(shot: Shot, k: ObjKey, commit: Commit) {
    k in shot.commits && shot.commits[k] == commit
  }

  /** What a successful operation does to the commits that stand. */
  function CommitsAfter(commits: Commits, op: Op, objects: ObjectMap, step: nat): Commits {
    if op.OpPutEnd? && op.k in objects then commits[op.k := Commit(step, objects[op.k].replicas)] else Withdraw(commits, op)
  }

  ghost function DoChange(app: App, h: nat, op: Op): App {
    var (master, succeeded) := Handle(app.master, op);
    var next := app.(master := master, steps := app.steps + 1);
    if !succeeded then next
    else
      next.(commits := CommitsAfter(app.commits, op, master.objects, app.steps),
            handlers := Undone(app.handlers, op)[h := Handler(op, app.steps, app.epoch, true, None)],
            acked := Withdraw(app.acked, op))
  }

  /** The handler's reply tells a client that its commit is made. */
  predicate Acknowledges(handler: Handler) {
    && handler.op.OpPutEnd? && handler.standing && handler.shot.Some?
    && handler.op.k in handler.shot.value.commits && handler.shot.value.commits[handler.op.k].since == handler.at
  }

  function DoSave(app: App, h: nat): App
    requires h in app.handlers
  {
    var handler := app.handlers[h];
    app.(register := handler.shot, handlers := app.handlers - {h}, steps := app.steps + 1,
         acked := if Acknowledges(handler) then app.acked[handler.op.k := handler.shot.value.commits[handler.op.k]]
                  else app.acked)
  }

  /** A new leader starts on the register; saves of the old one that are under way may still land. */
  function DoFailover(app: App): App {
    App(Reload(app.register), CommitsOf(app.register), app.register,
        map h | h in app.handlers && app.handlers[h].shot.Some? :: app.handlers[h],
        map k | k in app.acked && app.register.Some? && Covers(app.register.value, k, app.acked[k]) :: app.acked[k],
        app.epoch + 1, app.steps + 1)
  }

  ghost function AppAct(app: App, a: AppAction): App
    requires AppReady(app, a)
  {
    match a
    case Change(h, op) => DoChange(app, h, op)
    case Snap(h, snapshot) =>
      var shot := Shot(snapshot, app.steps, app.commits);
      app.(handlers := app.handlers[h := app.handlers[h].(shot := Some(shot))], steps := app.steps + 1)
    case Save(h) => DoSave(app, h)
    case SaveFails(h, landed) =>
      app.(register := if landed then app.handlers[h].shot else app.register, handlers := app.handlers - {h},
           steps := app.steps + 1)
    case Serve(k, nowMs) => app.(master := GetReplicaList(app.master, k, nowMs).0, steps := app.steps + 1)
    case Failover => DoFailover(app)
  }

  const START_APP: App := App(Reload(None), map[], None, map[], map[], 0, 0)

  ghost predicate AppStep(app: App, action: AppAction, next: App) {
    AppReady(app, action) && next == AppAct(app, action)
  }

  ghost predicate AppRun(apps: seq<App>, actions: seq<AppAction>) {
    && |apps| == |actions| + 1 && apps[0] == START_APP
    && forall i :: 0 <= i < |actions| ==> AppStepAt(apps, actions, i)
  }

  ghost predicate AppStepAt(apps: seq<App>, actions: seq<AppAction>, i: nat) {
    i < |actions| && i + 1 < |apps| && AppStep(apps[i], actions[i], apps[i + 1])
  }

  // ---- The invariant ----

  ghost predicate Pending(objects: ObjectMap, k: ObjKey) {
    k in objects && (objects[k].status == Reserving || objects[k].status == Writing)
  }

  /** The commits are those of the table. */
  ghost predicate TableOk(objects: ObjectMap, commits: Commits) {
    && Coherent(objects)
    && (forall k :: k in objects && objects[k].status == Committed ==> k in commits)
    && forall k :: k in commits ==>
      k in objects && objects[k].status == Committed && objects[k].replicas == commits[k].replicas
  }

  ghost predicate Before(commits: Commits, step: nat) {
    forall k :: k in commits ==> commits[k].since < step
  }

  ghost predicate ShotOk(shot: Shot, steps: nat) {
    shot.taken < steps && TableOk(Restore(shot.snapshot).objects, shot.commits) && Before(shot.commits, shot.taken)
  }

  /** The shot has all that stands now and stood then. */
  ghost predicate InLine(shot: Shot, commits: Commits) {
    forall k :: k in commits && commits[k].since < shot.taken ==> Covers(shot, k, commits[k])
  }

  /** A handler's commit stands where it should. */
  ghost predicate Made(handler: Handler, commits: Commits) {
    handler.op.OpPutEnd? && handler.standing ==>
      handler.op.k in commits && commits[handler.op.k].since == handler.at
  }

  ghost predicate HandlerOk(app: App, handler: Handler) {
    && handler.at < app.steps && handler.epoch <= app.epoch
    && (handler.shot.Some? ==>
          ShotOk(handler.shot.value, app.steps) && handler.at < handler.shot.value.taken
          && Made(handler, handler.shot.value.commits))
    && (handler.shot.None? ==> handler.epoch == app.epoch)
    && (handler.epoch == app.epoch ==>
          Made(handler, app.commits) && (handler.shot.Some? ==> InLine(handler.shot.value, app.commits)))
  }

  ghost predicate HandlersOk(app: App) {
    forall h :: h in app.handlers ==> HandlerOk(app, app.handlers[h])
  }

  ghost predicate AppOk(app: App) {
    && TableOk(app.master.objects, app.commits) && Before(app.commits, app.steps)
    && (app.register.Some? ==> ShotOk(app.register.value, app.steps))
    && HandlersOk(app)
    && Before(app.acked, app.steps) && (app.acked != map[] ==> app.register.Some?)
  }

  lemma RestoredTable(s: Snapshot, m: Master)
    requires Coherent(m.objects) && IsSnapshot(m, s)
    ensures Restore(s).objects == m.objects
  {
    RestoreUndoesSnapshot(m, s);
  }

  /** What one operation does to the table and its commits. */
  lemma ChangeKeepsTable(m: Master, commits: Commits, op: Op, step: nat)
    requires Handled(op) && TableOk(m.objects, commits)
    ensures var (m', ok) := Handle(m, op);
      && (!ok ==> m'.objects == m.objects)
      && (ok ==> TableOk(m'.objects, CommitsAfter(commits, op, m'.objects, step)))
      && (ok && op.OpPutEnd? ==> Pending(m.objects, op.k) && op.k in m'.objects && op.k !in commits)
  {
    var (m', ok) := Handle(m, op);
    if op.OpPutEnd? {
      PutEndOnTable(m, op.k);
      if ok { PutEndKeepsTable(m.objects, commits, op.k, step); }
    } else if op.OpPutRevoke? || op.OpRemove? {
      UndoOnTable(m, op);
      if ok { UndoKeepsTable(m.objects, m'.objects, commits, op); }
    } else {
      OtherOnTable(m, op);
      OtherKeepsTable(m.objects, m'.objects, commits, op);
    }
  }

  lemma PutEndKeepsTable(objects: ObjectMap, commits: Commits, k: ObjKey, step: nat)
    requires TableOk(objects, commits) && Pending(objects, k)
    ensures k !in commits
    ensures var objects' := objects[k := objects[k].(status := Committed)];
      TableOk(objects', CommitsAfter(commits, OpPutEnd(k), objects', step))
  {
  }

  lemma UndoKeepsTable(objects: ObjectMap, objects': ObjectMap, commits: Commits, op: Op)
    requires TableOk(objects, commits) && (op.OpPutRevoke? || op.OpRemove?) && SameExceptAt(objects, objects', op.k)
    requires op.k in objects' ==> op.k in objects && objects'[op.k] == objects[op.k].(status := Revoked)
    ensures TableOk(objects', Withdraw(commits, op))
  {
  }

  lemma OtherKeepsTable(objects: ObjectMap, objects': ObjectMap, commits: Commits, op: Op)
    requires TableOk(objects, commits) && (op.OpMount? || op.OpSetQuota? || op.OpPutStart?)
    requires objects' == objects
      || (op.OpPutStart? && op.k !in objects && SameExceptAt(objects, objects', op.k) && Pending(objects', op.k)
          && objects'[op.k].tenantId == op.k.tenant && objects'[op.k].cacheKey == op.k.key)
    ensures TableOk(objects', Withdraw(commits, op))
  {
  }

  lemma PutEndOnTable(m: Master, k: ObjKey)
    ensures var (m', ok) := Handle(m, OpPutEnd(k));
      if ok then
        Pending(m.objects, k) && m'.objects == m.objects[k := m.objects[k].(status := Committed)]
      else m'.objects == m.objects
  {
  }

  lemma UndoOnTable(m: Master, op: Op)
    requires op.OpPutRevoke? || op.OpRemove?
    ensures var (m', ok) := Handle(m, op);
      if ok then
        && SameExceptAt(m.objects, m'.objects, op.k)
        && (op.k in m'.objects ==> op.k in m.objects && m'.objects[op.k] == m.objects[op.k].(status := Revoked))
      else m'.objects == m.objects
  {
  }

  /** Everything else leaves the objects alone but for a new one that is pending. */
  lemma OtherOnTable(m: Master, op: Op)
    requires op.OpMount? || op.OpSetQuota? || op.OpPutStart?
    ensures var (m', ok) := Handle(m, op);
      || m'.objects == m.objects
      || (ok && op.OpPutStart? && op.k !in m.objects && SameExceptAt(m.objects, m'.objects, op.k)
          && Pending(m'.objects, op.k) && m'.objects[op.k].tenantId == op.k.tenant && m'.objects[op.k].cacheKey == op.k.key)
  {
  }

  lemma HandlerStaysOk(app: App, app': App, handler: Handler)
    requires HandlerOk(app, handler) && app.steps <= app'.steps && app'.epoch == app.epoch
    requires app'.commits == app.commits
    ensures HandlerOk(app', handler)
  {
  }

  /** A handler under way when another operation changes the commits. */
  lemma HandlerSurvivesChange(app: App, app': App, handler: Handler, op: Op, objects: ObjectMap)
    requires HandlerOk(app, handler) && app'.steps == app.steps + 1 && app'.epoch == app.epoch
    requires app'.commits == CommitsAfter(app.commits, op, objects, app.steps)
    requires op.OpPutEnd? ==> op.k in objects && op.k !in app.commits
    ensures HandlerOk(app', if handler.op.OpPutEnd? && Undoes(op, handler.op.k) then handler.(standing := false) else handler)
  {
  }

  lemma ChangeKeepsHandlers(app: App, h: nat, op: Op)
    requires AppOk(app) && AppReady(app, Change(h, op))
    ensures HandlersOk(DoChange(app, h, op))
  {
    var app' := DoChange(app, h, op);
    var (m', ok) := Handle(app.master, op);
    ChangeKeepsTable(app.master, app.commits, op, app.steps);
    forall q | q in app'.handlers ensures HandlerOk(app', app'.handlers[q]) {
      if !ok {
        HandlerStaysOk(app, app', app.handlers[q]);
      } else if q != h {
        HandlerSurvivesChange(app, app', app.handlers[q], op, m'.objects);
      }
    }
  }

  lemma ChangeKeepsOk(app: App, h: nat, op: Op)
    requires AppOk(app) && AppReady(app, Change(h, op))
    ensures AppOk(DoChange(app, h, op))
  {
    ChangeKeepsHandlers(app, h, op);
    ChangeKeepsTable(app.master, app.commits, op, app.steps);
  }

  /** Steps that leave the table alone: snapshots, saves that work or fail, and lookups. */
  lemma OtherStepKeepsOk(app: App, a: AppAction, app': App)
    requires AppOk(app) && AppStep(app, a, app') && !a.Change? && a != Failover
    ensures AppOk(app')
  {
    if a.Snap? {
      RestoredTable(a.snapshot, app.master);
    }
    forall h | h in app'.handlers ensures HandlerOk(app', app'.handlers[h]) {
      HandlerStaysOk(app, app', app.handlers[h]);
    }
  }

  lemma FailoverKeepsOk(app: App)
    requires AppOk(app)
    ensures AppOk(DoFailover(app))
  {
  }

  lemma StepKeepsOk(app: App, a: AppAction, app': App)
    requires AppOk(app) && AppStep(app, a, app')
    ensures AppOk(app') && app'.steps == app.steps + 1
  {
    match a {
      case Change(h, op) => ChangeKeepsOk(app, h, op);
      case Failover => FailoverKeepsOk(app);
      case _ => OtherStepKeepsOk(app, a, app');
    }
  }

  /** In every run, however handlers overlap, saves fail or land late, snapshots and acknowledgements are what they claim. */
  lemma {:induction false} RunsStayOk(apps: seq<App>, actions: seq<AppAction>, j: nat)
    requires AppRun(apps, actions) && j < |apps|
    ensures AppOk(apps[j]) && apps[j].steps == j
    decreases j
  {
    if j > 0 {
      RunsStayOk(apps, actions, j - 1);
      assert AppStepAt(apps, actions, j - 1);
      StepKeepsOk(apps[j - 1], actions[j - 1], apps[j]);
    }
  }

  /** What a step of the service does to the master: one operation of it, or nothing, or a reload. */
  ghost predicate MasterMoves(app: App, a: AppAction, app': App) {
    match a
    case Change(h, op) => Next(app.master, op, app'.master)
    case Serve(k, nowMs) => Next(app.master, OpLookup(k, nowMs), app'.master)
    case Failover =>
      && app'.master.objects == (match app.register case None => map[] case Some(shot) => Restore(shot.snapshot).objects)
      && app'.master.quotas == (match app.register case None => map[] case Some(shot) => Restore(shot.snapshot).quotas)
      && app'.master.leases == map[] && app'.master.segments == [Segment("default", 1_048_576, 0)]
    case _ => app'.master == app.master
  }

  /** What a step does to the register and to the handlers under way. */
  ghost predicate HandlersMove(app: App, a: AppAction, app': App) {
    match a
    case Change(h, op) =>
      && app'.register == app.register
      && app'.handlers.Keys == app.handlers.Keys + (if Handle(app.master, op).1 then {h} else {})
      && (h in app'.handlers && h !in app.handlers ==> app'.handlers[h] == Handler(op, app.steps, app.epoch, true, None))
    case Snap(h, snapshot) =>
      && app'.register == app.register && app'.handlers.Keys == app.handlers.Keys && h in app'.handlers
      && app'.handlers[h].shot == Some(Shot(snapshot, app.steps, app.commits)) && IsSnapshot(app.master, snapshot)
      && forall q :: q in app.handlers && q != h ==> app'.handlers[q] == app.handlers[q]
    case Save(h) => h in app.handlers && app'.register == app.handlers[h].shot && app'.handlers == app.handlers - {h}
    case SaveFails(h, landed) =>
      && h in app.handlers && app'.handlers == app.handlers - {h} && app'.acked == app.acked
      && app'.register == if landed then app.handlers[h].shot else app.register
    case Serve(_, _) => app'.register == app.register && app'.handlers == app.handlers
    case Failover =>
      && app'.register == app.register
      && forall h :: h in app.handlers && app.handlers[h].shot.Some? ==> h in app'.handlers && app'.handlers[h] == app.handlers[h]
  }

  /**
   * In every run: handlers and lookups are operations of the master; a saved or half-failed save puts its handler's snapshot
   * into the register; a new leader starts on what the register holds, with one default segment and no leases.
   */
  lemma StepsMoveAsTold(apps: seq<App>, actions: seq<AppAction>, i: nat)
    requires AppRun(apps, actions) && i < |actions|
    ensures MasterMoves(apps[i], actions[i], apps[i + 1]) && HandlersMove(apps[i], actions[i], apps[i + 1])
  {
    assert AppStepAt(apps, actions, i);
    StepMoves(apps[i], actions[i]);
  }

  lemma StepMoves(app: App, a: AppAction)
    requires AppReady(app, a)
    ensures MasterMoves(app, a, AppAct(app, a)) && HandlersMove(app, a, AppAct(app, a))
  {
    if a.Change? {
      ChangeMoves(app, a.h, a.op);
    }
  }

  lemma ChangeMoves(app: App, h: nat, op: Op)
    requires h !in app.handlers && Handled(op)
    ensures MasterMoves(app, Change(h, op), DoChange(app, h, op)) && HandlersMove(app, Change(h, op), DoChange(app, h, op))
  {
  }

  /** A handler that changed the master can take a snapshot, and then save it or fail to; the service can fail over. */
  lemma HandlersCanGoOn(app: App, h: nat)
    requires h in app.handlers
    ensures app.handlers[h].shot.None? ==> exists snapshot :: AppReady(app, Snap(h, snapshot))
    ensures app.handlers[h].shot.Some? ==>
      AppReady(app, Save(h)) && AppReady(app, SaveFails(h, true)) && AppReady(app, SaveFails(h, false))
    ensures AppReady(app, Failover)
  {
    var snapshot := SomeSnapshot(app.master);
    assert app.handlers[h].shot.None? ==> AppReady(app, Snap(h, snapshot));
  }

  /** New handlers may begin any handled operation, and lookups are served, at any time. */
  lemma AnyoneMayCall(app: App, h: nat, op: Op, k: ObjKey, nowMs: u64)
    requires h !in app.handlers && !op.OpLookup? && !op.OpEvict?
    ensures AppReady(app, Change(h, op)) && AppReady(app, Serve(k, nowMs))
  {
  }

  // ---- Landings ----

  /** The step puts a snapshot into the register. */
  predicate Lands(a: AppAction) {
    a.Save? || (a.SaveFails? && a.landed)
  }

  /** The register covers every acknowledged commit. */
  ghost predicate CoversAll(app: App) {
    forall k :: k in app.acked ==> app.register.Some? && Covers(app.register.value, k, app.acked[k])
  }

  /** What lands covers every acknowledged commit, except of the key it acknowledges itself. */
  ghost predicate LandingCovers(app: App, a: AppAction) {
    Lands(a) && a.h in app.handlers && app.handlers[a.h].shot.Some? ==>
      forall k :: k in app.acked && !(a.Save? && Acknowledges(app.handlers[a.h]) && app.handlers[a.h].op.k == k) ==>
        Covers(app.handlers[a.h].shot.value, k, app.acked[k])
  }

  lemma StepKeepsCover(app: App, a: AppAction, app': App)
    requires AppStep(app, a, app') && CoversAll(app)
    ensures LandingCovers(app, a) <==> CoversAll(app')
  {
    if Lands(a) {
      var handler := app.handlers[a.h];
      var own := if a.Save? && Acknowledges(handler) then {handler.op.k} else {};
      assert forall k :: k in app.acked && k !in own ==> k in app'.acked && app'.acked[k] == app.acked[k];
      assert forall k :: k in app'.acked && k !in own ==> k in app.acked;
    }
  }

  ghost predicate LandingsCover(apps: seq<App>, actions: seq<AppAction>) {
    |apps| == |actions| + 1 && forall p :: 0 <= p < |actions| ==> LandingCovers(apps[p], actions[p])
  }

  lemma {:induction false} CoverLasts(apps: seq<App>, actions: seq<AppAction>, j: nat)
    requires AppRun(apps, actions) && LandingsCover(apps, actions) && j < |apps|
    ensures CoversAll(apps[j])
    decreases j
  {
    if j > 0 {
      CoverLasts(apps, actions, j - 1);
      assert AppStepAt(apps, actions, j - 1);
      StepKeepsCover(apps[j - 1], actions[j - 1], apps[j]);
    }
  }

  lemma StepKeepsAck(app: App, a: AppAction, app': App, k: ObjKey)
    requires AppStep(app, a, app') && CoversAll(app) && k in app.acked && !(a.Change? && Undoes(a.op, k))
    ensures k in app'.acked
    ensures app'.acked[k] == app.acked[k] || (a.Save? && Acknowledges(app.handlers[a.h]) && app.handlers[a.h].op.k == k)
  {
  }

  /** No later handler acknowledges another commit of `k` than the one already acknowledged. */
  ghost predicate SameCommit(app: App, a: AppAction, k: ObjKey, commit: Commit) {
    a.Save? && a.h in app.handlers && Acknowledges(app.handlers[a.h]) && app.handlers[a.h].op.k == k ==>
      app.handlers[a.h].shot.value.commits[k] == commit
  }

  lemma {:induction false} AcksLast(apps: seq<App>, actions: seq<AppAction>, i: nat, j: nat, k: ObjKey)
    requires AppRun(apps, actions) && LandingsCover(apps, actions) && i <= j < |apps| && k in apps[i].acked
    requires forall p :: i <= p < j ==>
      !(actions[p].Change? && Undoes(actions[p].op, k)) && SameCommit(apps[p], actions[p], k, apps[i].acked[k])
    ensures k in apps[j].acked && apps[j].acked[k] == apps[i].acked[k]
    decreases j
  {
    if i < j {
      AcksLast(apps, actions, i, j - 1, k);
      CoverLasts(apps, actions, j - 1);
      assert AppStepAt(apps, actions, j - 1);
      StepKeepsAck(apps[j - 1], actions[j - 1], apps[j], k);
      assert SameCommit(apps[j - 1], actions[j - 1], k, apps[i].acked[k]);
    }
  }

  /** A covered commit is found, with its replicas, on the master that reloads the register. */
  lemma CoveredIsFound(app: App, k: ObjKey, nowMs: u64)
    requires AppOk(app) && app.register.Some?
    ensures var found := GetReplicaList(Reload(app.register), k, nowMs).1;
      && (found.Ok? <==> k in app.register.value.commits)
      && (found.Ok? ==> found.value.replicas == app.register.value.commits[k].replicas)
  {
  }

  /**
   * If every landing covers what is acknowledged, then through any number of overlapping handlers, failed, half-failed and
   * late saves, and failovers, a commit once acknowledged is found, with its replicas, on every master that reloads the
   * register, until its key is revoked, removed or acknowledged anew.
   */
  lemma AckedCommitsSurviveFailover(apps: seq<App>, actions: seq<AppAction>, i: nat, j: nat, k: ObjKey, nowMs: u64)
    requires AppRun(apps, actions) && LandingsCover(apps, actions) && i <= j < |apps| && k in apps[i].acked
    requires forall p :: i <= p < j ==>
      !(actions[p].Change? && Undoes(actions[p].op, k)) && SameCommit(apps[p], actions[p], k, apps[i].acked[k])
    ensures var r := GetReplicaList(Reload(apps[j].register), k, nowMs).1;
      r.Ok? && r.value.replicas == apps[i].acked[k].replicas
  {
    AcksLast(apps, actions, i, j, k);
    CoverLasts(apps, actions, j);
    RunsStayOk(apps, actions, j);
    CoveredIsFound(apps[j], k, nowMs);
  }

  // ---- Deciding by stamps ----

  /** No save of an old leader lands after the failover that replaced it. */
  ghost predicate NoLateLanding(apps: seq<App>, actions: seq<AppAction>, j: nat) {
    |apps| == |actions| + 1 && forall p :: 0 <= p < j <= |actions| && Lands(actions[p]) ==> OnTime(apps[p], actions[p])
  }

  ghost predicate OnTime(app: App, a: AppAction) {
    Lands(a) && a.h in app.handlers ==> app.handlers[a.h].epoch == app.epoch
  }

  /** Every acknowledged commit stands in the live table, and the register has all of them that are older than it. */
  ghost predicate OneLine(app: App) {
    && (forall k :: k in app.acked ==> k in app.commits && app.commits[k] == app.acked[k])
    && (app.register.Some? ==> InLine(app.register.value, app.commits))
  }

  lemma StepKeepsLine(app: App, a: AppAction, app': App)
    requires AppOk(app) && OneLine(app) && AppStep(app, a, app') && OnTime(app, a)
    ensures OneLine(app')
  {
    match a {
      case Change(h, op) => ChangeKeepsLine(app, h, op);
      case Save(h) => SaveKeepsLine(app, h);
      case SaveFails(h, _) => assert HandlerOk(app, app.handlers[h]);
      case _ =>
    }
  }

  lemma ChangeKeepsLine(app: App, h: nat, op: Op)
    requires AppOk(app) && OneLine(app) && AppReady(app, Change(h, op))
    ensures OneLine(DoChange(app, h, op))
  {
    ChangeKeepsTable(app.master, app.commits, op, app.steps);
    var (m', ok) := Handle(app.master, op);
    if ok {
      CommitsKeepLine(app, op, m'.objects);
    }
  }

  lemma CommitsKeepLine(app: App, op: Op, objects: ObjectMap)
    requires OneLine(app) && (app.register.Some? ==> app.register.value.taken <= app.steps)
    requires op.OpPutEnd? ==> op.k in objects && op.k !in app.commits
    ensures var commits := CommitsAfter(app.commits, op, objects, app.steps);
      && (forall k :: k in Withdraw(app.acked, op) ==> k in commits && commits[k] == app.acked[k])
      && (app.register.Some? ==> InLine(app.register.value, commits))
  {
  }

  lemma SaveKeepsLine(app: App, h: nat)
    requires AppOk(app) && OneLine(app) && h in app.handlers && app.handlers[h].shot.Some? && app.handlers[h].epoch == app.epoch
    ensures OneLine(DoSave(app, h))
  {
    assert HandlerOk(app, app.handlers[h]);
  }

  lemma {:induction false} RunsStayInLine(apps: seq<App>, actions: seq<AppAction>, j: nat)
    requires AppRun(apps, actions) && j < |apps| && NoLateLanding(apps, actions, j)
    ensures OneLine(apps[j])
    decreases j
  {
    if j > 0 {
      RunsStayInLine(apps, actions, j - 1);
      RunsStayOk(apps, actions, j - 1);
      assert AppStepAt(apps, actions, j - 1);
      StepKeepsLine(apps[j - 1], actions[j - 1], apps[j]);
    }
  }

  /** Every acknowledged commit is older than the snapshot about to land. */
  ghost predicate FreshLanding(app: App, a: AppAction) {
    Lands(a) && a.h in app.handlers && app.handlers[a.h].shot.Some? ==>
      forall k :: k in app.acked ==> app.acked[k].since < app.handlers[a.h].shot.value.taken
  }

  /** For a save that is not late, the stamps decide. */
  lemma FreshIffCovers(app: App, a: AppAction)
    requires AppOk(app) && OneLine(app) && AppReady(app, a) && OnTime(app, a)
    ensures FreshLanding(app, a) <==> LandingCovers(app, a)
  {
    if Lands(a) {
      assert HandlerOk(app, app.handlers[a.h]);
    }
  }

  /** No snapshot lands that is older than a commit already acknowledged. */
  ghost predicate NoStaleLanding(apps: seq<App>, actions: seq<AppAction>) {
    |apps| == |actions| + 1 && forall p :: 0 <= p < |actions| ==> FreshLanding(apps[p], actions[p])
  }

  lemma {:induction false} LandingsCoverIff(apps: seq<App>, actions: seq<AppAction>)
    requires AppRun(apps, actions)
    ensures (forall j :: 0 <= j < |apps| ==> CoversAll(apps[j])) <==> LandingsCover(apps, actions)
  {
    if LandingsCover(apps, actions) {
      forall j | 0 <= j < |apps| ensures CoversAll(apps[j]) { CoverLasts(apps, actions, j); }
    }
    if forall j :: 0 <= j < |apps| ==> CoversAll(apps[j]) {
      forall p | 0 <= p < |actions| ensures LandingCovers(apps[p], actions[p]) {
        assert AppStepAt(apps, actions, p) && CoversAll(apps[p]) && CoversAll(apps[p + 1]);
        StepKeepsCover(apps[p], actions[p], apps[p + 1]);
      }
    }
  }

  /**
   * Where no save lands late, every acknowledged commit is covered at every step if and only if each snapshot that lands
   * was taken after every commit acknowledged before it lands.
   */
  lemma CoveredIffNoStaleLanding(apps: seq<App>, actions: seq<AppAction>)
    requires AppRun(apps, actions) && NoLateLanding(apps, actions, |actions|)
    ensures (forall j :: 0 <= j < |apps| ==> CoversAll(apps[j])) <==> NoStaleLanding(apps, actions)
  {
    LandingsCoverIff(apps, actions);
    forall p | 0 <= p < |actions| ensures FreshLanding(apps[p], actions[p]) <==> LandingCovers(apps[p], actions[p]) {
      FreshHere(apps, actions, p);
    }
  }

  lemma FreshHere(apps: seq<App>, actions: seq<AppAction>, p: nat)
    requires AppRun(apps, actions) && NoLateLanding(apps, actions, |actions|) && p < |actions|
    ensures FreshLanding(apps[p], actions[p]) <==> LandingCovers(apps[p], actions[p])
  {
    RunsStayOk(apps, actions, p);
    RunsStayInLine(apps, actions, p);
    assert AppStepAt(apps, actions, p);
    FreshIffCovers(apps[p], actions[p]);
  }

  /** Snapshots land in the order in which they were taken. */
  ghost predicate LandInOrder(apps: seq<App>, actions: seq<AppAction>) {
    && |apps| == |actions| + 1
    && forall p :: 0 <= p < |actions| && Lands(actions[p]) && apps[p].register.Some? ==>
      apps[p + 1].register.Some? && apps[p].register.value.taken <= apps[p + 1].register.value.taken
  }

  lemma OrderedIsFresh(app: App, a: AppAction, app': App)
    requires AppOk(app) && CoversAll(app) && AppStep(app, a, app')
    requires Lands(a) && app.register.Some? ==> app'.register.Some? && app.register.value.taken <= app'.register.value.taken
    ensures FreshLanding(app, a)
  {
  }

  lemma {:induction false} OrderKeepsCover(apps: seq<App>, actions: seq<AppAction>, j: nat)
    requires AppRun(apps, actions) && LandInOrder(apps, actions) && NoLateLanding(apps, actions, |actions|) && j < |apps|
    ensures CoversAll(apps[j])
    decreases j
  {
    if j > 0 {
      var p := j - 1;
      OrderKeepsCover(apps, actions, p);
      RunsStayOk(apps, actions, p);
      assert AppStepAt(apps, actions, p);
      OrderedIsFresh(apps[p], actions[p], apps[p + 1]);
      FreshHere(apps, actions, p);
      StepKeepsCover(apps[p], actions[p], apps[p + 1]);
    }
  }

  /** Handlers may overlap as they like: if no save lands late and snapshots land in order, none is stale. */
  lemma OrderedLandingsAreNotStale(apps: seq<App>, actions: seq<AppAction>)
    requires AppRun(apps, actions) && LandInOrder(apps, actions) && NoLateLanding(apps, actions, |actions|)
    ensures NoStaleLanding(apps, actions)
  {
    forall j | 0 <= j < |apps| ensures CoversAll(apps[j]) { OrderKeepsCover(apps, actions, j); }
    CoveredIffNoStaleLanding(apps, actions);
  }

  // ---- Which commits survive a reload ----

  /** Shots and stamps refer to the steps they name. */
  ghost predicate ShotTrue(apps: seq<App>, j: nat, shot: Shot) {
    && shot.taken < j < |apps|
    && Restore(shot.snapshot).objects == apps[shot.taken].master.objects && shot.commits == apps[shot.taken].commits
  }

  ghost predicate CommitsTrue(apps: seq<App>, j: nat, commits: Commits) {
    forall k :: k in commits ==> commits[k].since < j < |apps| && Pending(apps[commits[k].since].master.objects, k)
  }

  ghost predicate StampsTrue(apps: seq<App>, j: nat) {
    && j < |apps| && ShotsTrue(apps, j, apps[j])
    && CommitsTrue(apps, j, apps[j].commits) && CommitsTrue(apps, j, apps[j].acked)
  }

  ghost predicate ShotsTrue(apps: seq<App>, j: nat, app: App) {
    && (app.register.Some? ==> ShotTrue(apps, j, app.register.value))
    && forall h :: h in app.handlers && app.handlers[h].shot.Some? ==> ShotTrue(apps, j, app.handlers[h].shot.value)
  }

  lemma StampsOfShot(apps: seq<App>, j: nat, shot: Shot)
    requires ShotTrue(apps, j, shot) && forall p :: 0 <= p <= j ==> StampsTrue(apps, p)
    ensures CommitsTrue(apps, j, shot.commits)
  {
    assert StampsTrue(apps, shot.taken);
  }

  lemma ChangeKeepsStamps(apps: seq<App>, j: nat, app: App, h: nat, op: Op, app': App)
    requires j + 1 < |apps| && app == apps[j] && app.steps == j && StampsTrue(apps, j)
    requires AppOk(app) && AppReady(app, Change(h, op)) && app' == DoChange(app, h, op)
    ensures CommitsTrue(apps, j + 1, app'.commits) && CommitsTrue(apps, j + 1, app'.acked)
  {
    ChangeKeepsTable(app.master, app.commits, op, app.steps);
  }

  lemma ShotCarries(apps: seq<App>, j: nat, shot: Shot)
    requires ShotTrue(apps, j, shot) && j + 1 < |apps|
    ensures ShotTrue(apps, j + 1, shot)
  {
  }

  lemma StepKeepsShots(apps: seq<App>, j: nat, app: App, a: AppAction, app': App)
    requires j + 1 < |apps| && app == apps[j] && app.steps == j && ShotsTrue(apps, j, app)
    requires Coherent(app.master.objects) && AppStep(app, a, app')
    ensures ShotsTrue(apps, j + 1, app')
  {
    ShotsCarry(apps, j, app);
    if a.Snap? {
      RestoredTable(a.snapshot, app.master);
    } else if a.Change? {
      ChangeKeepsShots(apps, j + 1, app, a.h, a.op);
    }
  }

  lemma ShotsCarry(apps: seq<App>, j: nat, app: App)
    requires ShotsTrue(apps, j, app) && j + 1 < |apps|
    ensures ShotsTrue(apps, j + 1, app)
  {
    forall h | h in app.handlers && app.handlers[h].shot.Some? ensures ShotTrue(apps, j + 1, app.handlers[h].shot.value) {
      ShotCarries(apps, j, app.handlers[h].shot.value);
    }
    if app.register.Some? {
      ShotCarries(apps, j, app.register.value);
    }
  }

  lemma ChangeKeepsShots(apps: seq<App>, j: nat, app: App, h: nat, op: Op)
    requires ShotsTrue(apps, j, app)
    ensures ShotsTrue(apps, j, DoChange(app, h, op))
  {
  }

  lemma SaveKeepsStamps(apps: seq<App>, j: nat, app: App, h: nat)
    requires j + 1 < |apps| && h in app.handlers && app.handlers[h].shot.Some?
    requires CommitsTrue(apps, j, app.acked) && CommitsTrue(apps, j, app.handlers[h].shot.value.commits)
    ensures CommitsTrue(apps, j + 1, DoSave(app, h).acked)
  {
  }

  lemma StampsCarry(apps: seq<App>, j: nat, commits: Commits)
    requires CommitsTrue(apps, j, commits) && j + 1 < |apps|
    ensures CommitsTrue(apps, j + 1, commits)
  {
  }

  lemma StepKeepsStamps(apps: seq<App>, j: nat, app: App, a: AppAction, app': App)
    requires j + 1 < |apps| && app == apps[j] && app.steps == j && (forall p :: 0 <= p <= j ==> StampsTrue(apps, p))
    requires AppOk(app) && AppStep(app, a, app')
    ensures CommitsTrue(apps, j + 1, app'.commits) && CommitsTrue(apps, j + 1, app'.acked)
  {
    assert StampsTrue(apps, j);
    StampsCarry(apps, j, app.commits);
    StampsCarry(apps, j, app.acked);
    match a {
      case Change(h, op) => ChangeKeepsStamps(apps, j, app, h, op, app');
      case Save(h) =>
        StampsOfShot(apps, j, app.handlers[h].shot.value);
        SaveKeepsStamps(apps, j, app, h);
      case Failover =>
        if app.register.Some? {
          StampsOfShot(apps, j, app.register.value);
          StampsCarry(apps, j, app.register.value.commits);
        }
      case _ =>
    }
  }

  lemma {:induction false} RunsKeepStamps(apps: seq<App>, actions: seq<AppAction>, j: nat)
    requires AppRun(apps, actions) && j < |apps|
    ensures forall p :: 0 <= p <= j ==> StampsTrue(apps, p)
    decreases j
  {
    if j > 0 {
      RunsKeepStamps(apps, actions, j - 1);
      RunsStayOk(apps, actions, j - 1);
      assert AppStepAt(apps, actions, j - 1);
      assert StampsTrue(apps, j - 1);
      StepKeepsShots(apps, j - 1, apps[j - 1], actions[j - 1], apps[j]);
      StepKeepsStamps(apps, j - 1, apps[j - 1], actions[j - 1], apps[j]);
    }
  }

  /** Between two steps no removal of `k` and no failover happened. */
  ghost predicate Undisturbed(actions: seq<AppAction>, i: nat, j: nat, k: ObjKey) {
    forall p :: i <= p < j < |actions| ==> actions[p] != Failover && !(actions[p].Change? && actions[p].op == OpRemove(k))
  }

  ghost predicate Settled(app: App, k: ObjKey) {
    k in app.master.objects && !Pending(app.master.objects, k)
  }

  /** Once settled, a key is not pending again before it is removed. */
  lemma SettledStep(app: App, a: AppAction, app': App, k: ObjKey)
    requires AppStep(app, a, app') && a != Failover && !(a.Change? && a.op == OpRemove(k)) && Settled(app, k)
    ensures Settled(app', k)
  {
    if a.Change? {
      SettledChange(app.master, a.op, k);
    }
  }

  lemma SettledChange(m: Master, op: Op, k: ObjKey)
    requires Handled(op) && op != OpRemove(k) && k in m.objects && !Pending(m.objects, k)
    ensures k in Handle(m, op).0.objects && !Pending(Handle(m, op).0.objects, k)
  {
  }

  lemma {:induction false} StaysSettled(apps: seq<App>, actions: seq<AppAction>, i: nat, j: nat, k: ObjKey)
    requires AppRun(apps, actions) && i <= j < |actions| && Undisturbed(actions, i, j, k) && Settled(apps[i], k)
    ensures Settled(apps[j], k)
    decreases j
  {
    if i < j {
      StaysSettled(apps, actions, i, j - 1, k);
      assert AppStepAt(apps, actions, j - 1);
      SettledStep(apps[j - 1], actions[j - 1], apps[j], k);
    }
  }

  /**
   * In every run without late landings, an acknowledged commit is on the master that reloads the register if and only if
   * the snapshot that landed last was taken after its `put_end`; unless the key was removed, or a failover happened,
   * between the two, that is exactly when the key is found at all. In any run a key is found, with the replicas of the
   * commit in question, exactly where a commit of it stood when the snapshot was taken.
   */
  lemma FoundOnReloadIff(apps: seq<App>, actions: seq<AppAction>, j: nat, k: ObjKey, nowMs: u64)
    requires AppRun(apps, actions) && j < |apps| && k in apps[j].acked
    ensures apps[j].register.Some?
    ensures var ack, shot := apps[j].acked[k], apps[j].register.value;
      var found := GetReplicaList(Reload(apps[j].register), k, nowMs).1;
      && ack.since < j && shot.taken < j
      && (NoLateLanding(apps, actions, j) ==> (Covers(shot, k, ack) <==> ack.since < shot.taken))
      && (NoLateLanding(apps, actions, j) && Undisturbed(actions, shot.taken, ack.since, k) ==>
            (found.Ok? <==> ack.since < shot.taken))
      && (found.Ok? <==> k in shot.commits)
      && (found.Ok? ==> found.value.replicas == shot.commits[k].replicas)
  {
    RunsStayOk(apps, actions, j);
    CoveredIsFound(apps[j], k, nowMs);
    if NoLateLanding(apps, actions, j) {
      RunsStayInLine(apps, actions, j);
      CoversIffOlder(apps[j], k);
      if Undisturbed(actions, apps[j].register.value.taken, apps[j].acked[k].since, k) {
        NoEarlierCommit(apps, actions, j, k);
      }
    }
  }

  lemma CoversIffOlder(app: App, k: ObjKey)
    requires AppOk(app) && OneLine(app) && k in app.acked
    ensures app.register.Some? && (Covers(app.register.value, k, app.acked[k]) <==> app.acked[k].since < app.register.value.taken)
  {
  }

  /** An undisturbed key that was committed by the snapshot's step could not be committed after it. */
  lemma NoEarlierCommit(apps: seq<App>, actions: seq<AppAction>, j: nat, k: ObjKey)
    requires AppRun(apps, actions) && j < |apps| && AppOk(apps[j]) && k in apps[j].acked && apps[j].register.Some?
    requires Undisturbed(actions, apps[j].register.value.taken, apps[j].acked[k].since, k)
    ensures apps[j].acked[k].since >= apps[j].register.value.taken ==> k !in apps[j].register.value.commits
  {
    var since, shot := apps[j].acked[k].since, apps[j].register.value;
    RunsKeepStamps(apps, actions, j);
    assert StampsTrue(apps, j);
    if since >= shot.taken && k in shot.commits {
      RunsStayOk(apps, actions, shot.taken);
      StaysSettled(apps, actions, shot.taken, since, k);
    }
  }

  // ---- Runs that lose a commit ----

  /** The service gets into this state; `inOrder` if snapshots landed in the order they were taken. */
  ghost predicate Reached(inOrder: bool, app: App) {
    exists apps, actions :: AppRun(apps, actions) && apps[|actions|] == app && (inOrder ==> LandInOrder(apps, actions))
  }

  lemma StartReached(inOrder: bool)
    ensures Reached(inOrder, START_APP)
  {
    assert AppRun([START_APP], []) && LandInOrder([START_APP], []);
  }

  lemma ReachOn(inOrder: bool, app: App, a: AppAction, next: App)
    requires Reached(inOrder, app) && AppStep(app, a, next)
    requires inOrder && Lands(a) && app.register.Some? ==>
      next.register.Some? && app.register.value.taken <= next.register.value.taken
    ensures Reached(inOrder, next)
  {
    var apps, actions :| AppRun(apps, actions) && apps[|actions|] == app && (inOrder ==> LandInOrder(apps, actions));
    var s, t := apps + [next], actions + [a];
    forall i | 0 <= i < |t| ensures AppStepAt(s, t, i) {
      if i < |actions| {
        assert AppStepAt(apps, actions, i) && s[i] == apps[i] && s[i + 1] == apps[i + 1] && t[i] == actions[i];
      }
    }
    if inOrder {
      forall i | 0 <= i < |t| && Lands(t[i]) && s[i].register.Some?
        ensures s[i + 1].register.Some? && s[i].register.value.taken <= s[i + 1].register.value.taken
      {
        assert i < |actions| ==> s[i] == apps[i] && s[i + 1] == apps[i + 1] && t[i] == actions[i];
      }
    }
    assert AppRun(s, t);
  }

  lemma ReachedIsOk(inOrder: bool, app: App)
    requires Reached(inOrder, app)
    ensures AppOk(app)
  {
    var apps, actions :| AppRun(apps, actions) && apps[|actions|] == app && (inOrder ==> LandInOrder(apps, actions));
    RunsStayOk(apps, actions, |actions|);
  }

  lemma OneByteGrant(m: Master, k: ObjKey)
    requires m.quotas == map[] && |m.segments| == 1 && m.segments[0].nextOffset + 1 <= m.segments[0].len
    requires k !in m.objects
    ensures PutStart(m, k, 1, 1).1.Ok?
    ensures var m' := PutStart(m, k, 1, 1).0;
      && m'.quotas == map[] && |m'.segments| == 1 && m'.segments[0].len == m.segments[0].len
      && m'.segments[0].nextOffset == m.segments[0].nextOffset + 1
      && Pending(m'.objects, k) && m'.objects == m.objects[k := m'.objects[k]] && m'.objects[k].len == 1
      && m'.objects[k].replicas == [Replica(m.segments[0].nodeId, m.segments[0].nextOffset, 1)]
      && m'.segments[0].nodeId == m.segments[0].nodeId
  {
    PutStartSucceedsIff(m, k, 1, 1);
    OneByteAdvances(m, k);
  }

  lemma OneByteAdvances(m: Master, k: ObjKey)
    requires Bounded(m.segments) && |m.segments| == 1 && PutStart(m, k, 1, 1).1.Ok?
    ensures var segments := PutStart(m, k, 1, 1).0.segments;
      && |segments| == 1 && segments[0].len == m.segments[0].len
      && segments[0].nextOffset == m.segments[0].nextOffset + 1 && segments[0].nodeId == m.segments[0].nodeId
    ensures PutStart(m, k, 1, 1).1.value == [Replica(m.segments[0].nodeId, m.segments[0].nextOffset, 1)]
  {
    PutStartGrants(m, k, 1, 1);
    assert FirstFit(m.segments, 1, 1, 0)[0] == 0;
    var granted := PutStart(m, k, 1, 1).1.value;
    assert granted == [granted[0]];
  }

  /** A service without quotas, with room, whose table has nothing but what `keys` name. */
  ghost predicate Roomy(app: App, used: u64, keys: set<ObjKey>) {
    && app.master.quotas == map[] && |app.master.segments| == 1
    && app.master.segments[0] == Segment("default", 1_048_576, used)
    && app.master.objects.Keys == keys
  }

  lemma ReserveEffect(app: App, h: nat, k: ObjKey, used: u64, keys: set<ObjKey>) returns (next: App)
    requires h !in app.handlers && Roomy(app, used, keys) && used < 8 && k !in keys
    ensures next == DoChange(app, h, OpPutStart(k, 1, 1))
    ensures Roomy(next, used + 1, keys + {k}) && Pending(next.master.objects, k)
    ensures next.master.objects[k].replicas == [Replica("default", used, 1)] && next.master.objects[k].len == 1
    ensures next.master.objects == app.master.objects[k := next.master.objects[k]]
    ensures next.handlers.Keys == app.handlers.Keys + {h} && next.commits == app.commits
    ensures forall q :: q in app.handlers ==> next.handlers[q] == app.handlers[q]
    ensures next.register == app.register && next.epoch == app.epoch && next.steps == app.steps + 1
  {
    OneByteGrant(app.master, k);
    next := DoChange(app, h, OpPutStart(k, 1, 1));
    NothingUndone(app, OpPutStart(k, 1, 1));
  }

  lemma ReserveStep(inOrder: bool, app: App, h: nat, k: ObjKey, used: u64, keys: set<ObjKey>) returns (next: App)
    requires Reached(inOrder, app) && h !in app.handlers && Roomy(app, used, keys) && used < 8 && k !in keys
    ensures Reached(inOrder, next) && Roomy(next, used + 1, keys + {k}) && Pending(next.master.objects, k)
    ensures next.master.objects == app.master.objects[k := next.master.objects[k]]
    ensures next.handlers.Keys == app.handlers.Keys + {h} && next.commits == app.commits
    ensures forall q :: q in app.handlers ==> next.handlers[q] == app.handlers[q]
    ensures next.register == app.register && next.epoch == app.epoch && next.steps == app.steps + 1
  {
    next := ReserveEffect(app, h, k, used, keys);
    ReachOn(inOrder, app, Change(h, OpPutStart(k, 1, 1)), next);
  }

  lemma NothingUndone(app: App, op: Op)
    requires op.OpPutStart?
    ensures Withdraw(app.commits, op) == app.commits && Undone(app.handlers, op) == app.handlers
  {
  }

  lemma CommitStep(inOrder: bool, app: App, h: nat, k: ObjKey, used: u64, keys: set<ObjKey>) returns (next: App)
    requires Reached(inOrder, app) && h !in app.handlers && Roomy(app, used, keys) && Pending(app.master.objects, k)
    ensures Reached(inOrder, next) && Roomy(next, used, keys)
    ensures next.master.objects == app.master.objects[k := app.master.objects[k].(status := Committed)]
    ensures next.commits == app.commits[k := Commit(app.steps, app.master.objects[k].replicas)]
    ensures next.handlers == app.handlers[h := Handler(OpPutEnd(k), app.steps, app.epoch, true, None)]
    ensures next == app.(master := next.master, commits := next.commits, handlers := next.handlers, steps := app.steps + 1)
  {
    var a := Change(h, OpPutEnd(k));
    next := AppAct(app, a);
    ReachOn(inOrder, app, a, next);
    assert Withdraw(app.acked, a.op) == app.acked;
    assert Undone(app.handlers, a.op) == app.handlers;
  }

  lemma SnapStep(inOrder: bool, app: App, h: nat) returns (next: App, shot: Shot)
    requires Reached(inOrder, app) && h in app.handlers && app.handlers[h].shot.None?
    ensures Reached(inOrder, next) && shot.taken == app.steps && shot.commits == app.commits
    ensures next.handlers == app.handlers[h := app.handlers[h].(shot := Some(shot))]
    ensures next == app.(handlers := next.handlers, steps := app.steps + 1)
  {
    var s := SomeSnapshot(app.master);
    shot := Shot(s, app.steps, app.commits);
    next := AppAct(app, Snap(h, s));
    ReachOn(inOrder, app, Snap(h, s), next);
  }

  lemma SaveStep(inOrder: bool, app: App, h: nat) returns (next: App)
    requires Reached(inOrder, app) && h in app.handlers && Acknowledges(app.handlers[h])
    requires inOrder && app.register.Some? ==> app.register.value.taken <= app.handlers[h].shot.value.taken
    ensures Reached(inOrder, next) && next.register == app.handlers[h].shot && next.handlers == app.handlers - {h}
    ensures next.acked == app.acked[app.handlers[h].op.k := app.handlers[h].shot.value.commits[app.handlers[h].op.k]]
  {
    next := AppAct(app, Save(h));
    ReachOn(inOrder, app, Save(h), next);
  }

  lemma FreshService(inOrder: bool)
    ensures Reached(inOrder, START_APP) && Roomy(START_APP, 0, {})
  {
    StartReached(inOrder);
  }

  /** One reserved key is committed, and the handler takes its snapshot. */
  lemma CommitAndSnap(inOrder: bool, app: App, h: nat, k: ObjKey, used: u64, keys: set<ObjKey>) returns (next: App, shot: Shot)
    requires Reached(inOrder, app) && h !in app.handlers && Roomy(app, used, keys) && Pending(app.master.objects, k)
    ensures Reached(inOrder, next) && Roomy(next, used, keys) && next.steps == app.steps + 2
    ensures next.handlers == app.handlers[h := Handler(OpPutEnd(k), app.steps, app.epoch, true, Some(shot))]
    ensures shot.taken == app.steps + 1 && k in shot.commits && shot.commits[k].since == app.steps
    ensures shot.commits.Keys == app.commits.Keys + {k} && next.commits == shot.commits
    ensures next.register == app.register && next.acked == app.acked && next.epoch == app.epoch
    ensures next.master.objects == app.master.objects[k := app.master.objects[k].(status := Committed)]
  {
    var a1 := CommitStep(inOrder, app, h, k, used, keys);
    next, shot := SnapStep(inOrder, a1, h);
  }

  /** A state of the service with an acknowledged commit that a reload does not find. */
  ghost predicate Lost(app: App, k: ObjKey, nowMs: u64) {
    k in app.acked && GetReplicaList(Reload(app.register), k, nowMs).1 == Err(NotFound)
  }

  /** Two saves, the last of a snapshot without the commit that the first one acknowledged. */
  lemma LastSaveLoses(inOrder: bool, app: App, h1: nat, h2: nat, nowMs: u64) returns (next: App)
    requires Reached(inOrder, app) && app.register.None? && h1 != h2 && h1 in app.handlers && h2 in app.handlers
    requires Acknowledges(app.handlers[h1]) && Acknowledges(app.handlers[h2])
    requires app.handlers[h1].op.k != app.handlers[h2].op.k && app.handlers[h1].op.k !in app.handlers[h2].shot.value.commits
    requires inOrder ==> app.handlers[h1].shot.value.taken <= app.handlers[h2].shot.value.taken
    ensures Reached(inOrder, next) && Lost(next, app.handlers[h1].op.k, nowMs)
  {
    var first := SaveStep(inOrder, app, h1);
    next := SaveStep(inOrder, first, h2);
    ReachedIsOk(inOrder, next);
    CoveredIsFound(next, app.handlers[h1].op.k, nowMs);
  }

  lemma TwoReserved(a: ObjKey, b: ObjKey) returns (app: App)
    requires a != b
    ensures Reached(false, app) && Roomy(app, 2, {a, b}) && app.handlers.Keys == {1, 2} && app.commits == map[]
    ensures app.register.None? && Pending(app.master.objects, a) && Pending(app.master.objects, b)
  {
    FreshService(false);
    var first := ReserveStep(false, START_APP, 1, a, 0, {});
    app := ReserveStep(false, first, 2, b, 1, {a});
    assert {a} + {b} == {a, b};
  }

  /** Overlapping commits on a fresh service: the older snapshot lands last, and the later commit is lost. */
  lemma StaleState(a: ObjKey, b: ObjKey, nowMs: u64) returns (app: App)
    requires a != b
    ensures Reached(false, app) && Lost(app, b, nowMs)
  {
    var a2 := TwoReserved(a, b);
    var a3, early := CommitAndSnap(false, a2, 3, a, 2, {a, b});
    var a4, late := CommitAndSnap(false, a3, 4, b, 2, {a, b});
    app := LastSaveLoses(false, a4, 4, 3, nowMs);
  }

  lemma StaleSaveLosesCommit(a: ObjKey, b: ObjKey, nowMs: u64) returns (apps: seq<App>, actions: seq<AppAction>)
    requires a != b
    ensures AppRun(apps, actions) && Lost(apps[|actions|], b, nowMs)
  {
    var app := StaleState(a, b, nowMs);
    apps, actions :| AppRun(apps, actions) && apps[|actions|] == app;
  }

  /** A new leader starts on an empty register while the old one's only save is still under way. */
  lemma FailoverStep(inOrder: bool, app: App) returns (next: App)
    requires Reached(inOrder, app) && app.register.None?
    ensures Reached(inOrder, next) && Roomy(next, 0, {}) && next.commits == map[] && next.register.None?
    ensures next.handlers == map h | h in app.handlers && app.handlers[h].shot.Some? :: app.handlers[h]
    ensures next.epoch == app.epoch + 1 && next.steps == app.steps + 1
  {
    next := AppAct(app, Failover);
    ReachOn(inOrder, app, Failover, next);
  }

  lemma LateState(a: ObjKey, b: ObjKey, nowMs: u64) returns (app: App)
    requires a != b
    ensures Reached(true, app) && Lost(app, a, nowMs)
  {
    var a3 := SaveUnderWay(a);
    var a4 := ReserveStep(true, a3, 3, b, 0, {});
    var a5, late := CommitAndSnap(true, a4, 4, b, 1, {b});
    app := LastSaveLoses(true, a5, 2, 4, nowMs);
  }

  /** A failover while the old leader's save of its only commit is under way. */
  lemma SaveUnderWay(a: ObjKey) returns (app: App)
    ensures Reached(true, app) && Roomy(app, 0, {}) && app.commits == map[] && app.register.None?
    ensures app.handlers.Keys <= {1, 2} && 2 in app.handlers && Acknowledges(app.handlers[2]) && app.handlers[2].op.k == a
    ensures app.handlers[2].shot.value.taken < app.steps
  {
    FreshService(true);
    var a1 := ReserveStep(true, START_APP, 1, a, 0, {});
    var a2, early := CommitAndSnap(true, a1, 2, a, 1, {a});
    app := FailoverStep(true, a2);
  }

  /** A late save loses a commit even when snapshots land in order: the new leader's table never had it. */
  lemma LateSaveLosesCommit(a: ObjKey, b: ObjKey, nowMs: u64) returns (apps: seq<App>, actions: seq<AppAction>)
    requires a != b
    ensures AppRun(apps, actions) && LandInOrder(apps, actions) && Lost(apps[|actions|], a, nowMs)
  {
    var app := LateState(a, b, nowMs);
    apps, actions :| AppRun(apps, actions) && apps[|actions|] == app && LandInOrder(apps, actions);
  }
}
