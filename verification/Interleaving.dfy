/**
 * Any number of controllers interleave their loads, plan reads, decisions and
 * compare-and-sets on one store, and may crash between any two. Every run of that
 * system is a sequence of atomic lifecycle operations per product run.
 */
module Interleaving {
  import opened Prelude
  import opened Plans
  import opened Lifecycle
  import opened LifecycleInvariant
  import opened LifecycleTheorems
  import opened Store

  datatype Client =
    | Idle
    | Loaded(runId: string, op: Op, snapshot: ProductRun)
    | Planned(runId: string, op: Op, snapshot: ProductRun, plan: ExecutionPlan)
    | Computed(runId: string, op: Op, snapshot: ProductRun, plan: ExecutionPlan, at: nat, updated: ProductRun)

  /**
   * genesis and log are history: the record each run started from and the operations
   * whose compare-and-set succeeded on it, oldest first.
   */
  datatype World = World(
    store: StoreState, clock: nat, clients: map<nat, Client>,
    genesis: map<string, ProductRun>, log: map<string, seq<Event>>)

  const Empty := World(EmptyStore, 0, map[], map[], map[])

  datatype Step =
    | Submit(plan: ExecutionPlan, productKind: string, key: string, runId: string)
    | Load(client: nat, runId: string, op: Op)
    | ReadPlan(client: nat)
    | Compute(client: nat)
    | Commit(client: nat)
    | Crash(client: nat)

  function ClientOf(w: World, c: nat): Client {
    if c in w.clients then w.clients[c] else Idle
  }

  function SubmitStep(w: World, plan: ExecutionPlan, kind: string, key: string, runId: string): World {
    if runId in w.store.runs || !ValidPlan(plan) then w
    else
      var (st, r) := Submitted(w.store, plan, kind, key, runId, w.clock);
      if runId in st.runs
      then w.(store := st, clock := w.clock + 1,
              genesis := w.genesis[runId := st.runs[runId]], log := w.log[runId := []])
      else w.(clock := w.clock + 1)
  }

  function CommitStep(w: World, c: nat): World {
    match ClientOf(w, c)
    case Computed(runId, op, snapshot, _, at, updated) =>
      var (st, r) := Swapped(w.store, updated, snapshot.generation, w.clock);
      var past := if runId in w.log then w.log[runId] else [];
      w.(store := st, clock := w.clock + 1, clients := w.clients[c := Idle],
         log := if r.Ok? then w.log[runId := past + [Event(op, at, w.clock)]] else w.log)
    case _ => w
  }

  /** A step whose guard does not hold leaves the world as it is. */
  function Next(w: World, step: Step): World {
    match step
    case Submit(plan, kind, key, runId) => SubmitStep(w, plan, kind, key, runId)
    case Load(c, runId, op) =>
      if runId in w.store.runs && ClientOf(w, c).Idle?
      then w.(clients := w.clients[c := Loaded(runId, op, w.store.runs[runId])])
      else w
    case ReadPlan(c) =>
      (match ClientOf(w, c)
       case Loaded(runId, op, snapshot) =>
         if snapshot.planId in w.store.plans
         then w.(clients := w.clients[c := Planned(runId, op, snapshot, w.store.plans[snapshot.planId])])
         else w.(clients := w.clients[c := Idle])
       case _ => w)
    case Compute(c) =>
      (match ClientOf(w, c)
       case Planned(runId, op, snapshot, plan) =>
         (match Decide(plan, snapshot, op, w.clock)
          case Write(u) =>
            w.(clock := w.clock + 1, clients := w.clients[c := Computed(runId, op, snapshot, plan, w.clock, u)])
          case _ => w.(clock := w.clock + 1, clients := w.clients[c := Idle]))
       case _ => w)
    case Commit(c) => CommitStep(w, c)
    case Crash(c) => w.(clients := w.clients[c := Idle])
  }

  function Exec(w: World, steps: seq<Step>): World {
    if steps == [] then w
    else Next(Exec(w, steps[..|steps| - 1]), steps[|steps| - 1])
  }

  // ----- The invariant: every record is a replay of the log -----

  predicate SameIdentity(a: ProductRun, b: ProductRun) {
    && a.runId == b.runId && a.planId == b.planId
    && a.productKind == b.productKind && a.idempotencyKey == b.idempotencyKey
  }

  predicate Known(w: World, runId: string) {
    && runId in w.store.runs && runId in w.genesis && runId in w.log
    && w.genesis[runId].planId in w.store.plans
  }

  function PlanFor(w: World, runId: string): ExecutionPlan
    requires Known(w, runId)
  {
    w.store.plans[w.genesis[runId].planId]
  }

  /** The record the first g operations of the log produce. */
  function RecordAt(w: World, runId: string, g: nat): ProductRun
    requires Known(w, runId) && g <= |w.log[runId]|
  {
    Replay(PlanFor(w, runId), w.genesis[runId], w.log[runId][..g])
  }

  predicate RunOk(w: World, runId: string) {
    && Known(w, runId)
    && ValidPlan(PlanFor(w, runId))
    && JustCreated(w.genesis[runId]) && w.genesis[runId].runId == runId
    && SameIdentity(w.genesis[runId], w.store.runs[runId])
    && FreshTrace(PlanFor(w, runId), w.genesis[runId], w.log[runId])
    && w.store.runs[runId] == Replay(PlanFor(w, runId), w.genesis[runId], w.log[runId])
    && w.store.runs[runId].generation == |w.log[runId]|
    && Fresh(w.store.runs[runId], w.clock)
  }

  predicate SnapshotOk(w: World, runId: string, snapshot: ProductRun) {
    && Known(w, runId)
    && snapshot.generation <= |w.log[runId]|
    && snapshot == RecordAt(w, runId, snapshot.generation)
    && SameIdentity(w.genesis[runId], snapshot)
    && Fresh(snapshot, w.clock)
  }

  predicate ClientOk(w: World, c: nat) {
    match ClientOf(w, c)
    case Idle => true
    case Loaded(runId, _, snapshot) => SnapshotOk(w, runId, snapshot)
    case Planned(runId, _, snapshot, plan) => SnapshotOk(w, runId, snapshot) && plan == PlanFor(w, runId)
    case Computed(runId, op, snapshot, plan, at, updated) =>
      && SnapshotOk(w, runId, snapshot) && plan == PlanFor(w, runId)
      && at < w.clock && Fresh(snapshot, at)
      && Decide(plan, snapshot, op, at) == Write(updated)
  }

  predicate KeyOk(w: World, key: string) {
    key in w.store.idempotency ==>
      && w.store.idempotency[key] in w.store.runs
      && w.store.runs[w.store.idempotency[key]].idempotencyKey == key
  }

  /** Every run is filed under its own key. */
  predicate FiledOk(w: World, runId: string) {
    runId in w.store.runs ==>
      && w.store.runs[runId].idempotencyKey in w.store.idempotency
      && w.store.idempotency[w.store.runs[runId].idempotencyKey] == runId
  }

  ghost predicate RunsOk(w: World) {
    forall runId {:trigger RunOk(w, runId)} | runId in w.store.runs :: RunOk(w, runId)
  }

  ghost predicate ClientsOk(w: World) {
    forall c :: ClientOk(w, c)
  }

  ghost predicate KeysOk(w: World) {
    && (forall key :: KeyOk(w, key))
    && (forall runId :: FiledOk(w, runId))
  }

  predicate PlansOk(w: World) {
    forall p {:trigger ValidPlan(w.store.plans[p])} | p in w.store.plans :: ValidPlan(w.store.plans[p])
  }

  predicate LogsOk(w: World) {
    && (forall runId | runId in w.log :: runId in w.store.runs)
    && (forall runId | runId in w.genesis :: runId in w.store.runs)
    && (forall runId | runId in w.store.runs :: runId in w.log && runId in w.genesis)
  }

  ghost predicate WorldInv(w: World) {
    RunsOk(w) && ClientsOk(w) && KeysOk(w) && PlansOk(w) && LogsOk(w)
  }

  // ----- Preservation -----

  lemma WriteIdentity(plan: ExecutionPlan, r: ProductRun, op: Op, now: nat)
    requires Decide(plan, r, op, now).Write?
    ensures SameIdentity(r, Decide(plan, r, op, now).updated)
    ensures Decide(plan, r, op, now).updated.generation == r.generation
  {
  }

  lemma WriteFresh(plan: ExecutionPlan, r: ProductRun, op: Op, at: nat, later: nat)
    requires ValidPlan(plan) && Inv(plan, r) && Fresh(r, at) && at < later
    requires Decide(plan, r, op, at).Write?
    ensures Fresh(Decide(plan, r, op, at).updated, later)
  {
    match op {
      case StartNextAttempt => var s := StartShape(plan, r, at);
      case ResumeAttempt(s) => ResumeShape(plan, r, s, at);
      case ObserveAttempt(id, status, d, expected) => ObserveWritesIff(r, id, status, d, expected, at);
      case RequestCancel =>
      case ApplyTerminalAction => TerminalKeeps(plan, r);
    }
  }

  /** Everything a client relies on survives a step that only extends logs and plans. */
  predicate Grows(w: World, v: World) {
    && w.clock <= v.clock
    && (forall p | p in w.store.plans :: p in v.store.plans && v.store.plans[p] == w.store.plans[p])
    && (forall id | id in w.genesis :: id in v.genesis && v.genesis[id] == w.genesis[id])
    && (forall id | id in w.log :: id in v.log && w.log[id] <= v.log[id])
    && (forall id | id in w.store.runs :: id in v.store.runs)
  }

  lemma SnapshotSurvives(w: World, v: World, runId: string, snapshot: ProductRun)
    requires Grows(w, v) && SnapshotOk(w, runId, snapshot)
    ensures SnapshotOk(v, runId, snapshot) && PlanFor(v, runId) == PlanFor(w, runId)
  {
    var g := snapshot.generation;
    assert w.log[runId][..g] == v.log[runId][..g];
  }

  lemma ClientSurvives(w: World, v: World, c: nat)
    requires Grows(w, v) && ClientOk(w, c) && ClientOf(v, c) == ClientOf(w, c)
    ensures ClientOk(v, c)
  {
    match ClientOf(w, c) {
      case Idle =>
      case Loaded(runId, _, snapshot) => SnapshotSurvives(w, v, runId, snapshot);
      case Planned(runId, _, snapshot, _) => SnapshotSurvives(w, v, runId, snapshot);
      case Computed(runId, _, snapshot, _, _, _) => SnapshotSurvives(w, v, runId, snapshot);
    }
  }

  lemma RunSurvives(w: World, v: World, runId: string)
    requires Grows(w, v) && RunOk(w, runId)
    requires v.store.runs[runId] == w.store.runs[runId] && v.log[runId] == w.log[runId]
    ensures RunOk(v, runId)
  {
  }

  lemma LoadOk(w: World, runId: string)
    requires WorldInv(w) && runId in w.store.runs
    ensures SnapshotOk(w, runId, w.store.runs[runId])
  {
    assert RunOk(w, runId);
    assert w.log[runId][..|w.log[runId]|] == w.log[runId];
  }

  lemma OtherClientsSurvive(w: World, v: World, c: nat)
    requires Grows(w, v) && ClientsOk(w) && ClientOk(v, c)
    requires forall d | d != c :: ClientOf(v, d) == ClientOf(w, d)
    ensures ClientsOk(v)
  {
    forall d ensures ClientOk(v, d) {
      if d != c {
        assert ClientOk(w, d);
        ClientSurvives(w, v, d);
      }
    }
  }

  lemma OtherRunsSurvive(w: World, v: World, runId: string)
    requires Grows(w, v) && RunsOk(w) && (runId in v.store.runs ==> RunOk(v, runId))
    requires forall id | id != runId && id in v.store.runs ::
               && id in w.store.runs && v.store.runs[id] == w.store.runs[id]
               && id in w.log && v.log[id] == w.log[id]
    ensures RunsOk(v)
  {
    forall id {:trigger RunOk(v, id)} | id in v.store.runs ensures RunOk(v, id) {
      if id != runId {
        RunSurvives(w, v, id);
      }
    }
  }

  lemma KeysSurvive(w: World, v: World)
    requires KeysOk(w) && v.store.idempotency == w.store.idempotency
    requires v.store.runs.Keys == w.store.runs.Keys
    requires forall id | id in w.store.runs :: v.store.runs[id].idempotencyKey == w.store.runs[id].idempotencyKey
    ensures KeysOk(v)
  {
    forall key ensures KeyOk(v, key) {
      assert KeyOk(w, key);
    }
    forall id ensures FiledOk(v, id) {
      assert FiledOk(w, id);
    }
  }

  /** A step that touches only client c's local state. */
  lemma LocalStep(w: World, c: nat, client: Client, clock: nat)
    requires WorldInv(w) && clock >= w.clock
    requires ClientOk(w.(clock := clock, clients := w.clients[c := client]), c)
    ensures WorldInv(w.(clock := clock, clients := w.clients[c := client]))
    ensures Grows(w, w.(clock := clock, clients := w.clients[c := client]))
  {
    hide RunOk, ClientOk, KeyOk, FiledOk;
    var v := w.(clock := clock, clients := w.clients[c := client]);
    OtherClientsSurvive(w, v, c);
    LocalRuns(w, v);
    KeysSurvive(w, v);
  }

  lemma LocalRuns(w: World, v: World)
    requires RunsOk(w) && v == w.(clock := v.clock, clients := v.clients) && v.clock >= w.clock
    ensures RunsOk(v)
  {
    forall id {:trigger RunOk(v, id)} | id in v.store.runs ensures RunOk(v, id) {
      RunSurvives(w, v, id);
    }
  }

  lemma SubmitShape(w: World, plan: ExecutionPlan, kind: string, key: string, runId: string)
    requires WorldInv(w) && runId !in w.store.runs && ValidPlan(plan)
    ensures var v := SubmitStep(w, plan, kind, key, runId);
            || v == w.(clock := w.clock + 1)
            || (key !in w.store.idempotency && v == Created(w, plan, kind, key, runId))
  {
    hide RunOk, ClientsOk, RunsOk, LogsOk;
    assert KeyOk(w, key);
  }

  lemma SubmitKeys(w: World, v: World, key: string, runId: string, run: ProductRun)
    requires KeysOk(w) && key !in w.store.idempotency && runId !in w.store.runs && run.idempotencyKey == key
    requires v.store.runs == w.store.runs[runId := run] && v.store.idempotency == w.store.idempotency[key := runId]
    ensures KeysOk(v)
  {
    forall k ensures KeyOk(v, k) {
      assert KeyOk(w, k);
    }
    forall id ensures FiledOk(v, id) {
      assert FiledOk(w, id);
    }
  }

  /** The world after a submission that created a run. */
  function Created(w: World, plan: ExecutionPlan, kind: string, key: string, runId: string): World {
    var run := CreateRun(runId, kind, plan.planId, key, w.clock);
    World(StoreState(if plan.planId in w.store.plans then w.store.plans else w.store.plans[plan.planId := plan],
                     w.store.runs[runId := run], w.store.idempotency[key := runId]),
          w.clock + 1, w.clients, w.genesis[runId := run], w.log[runId := []])
  }

  lemma CreatedGrows(w: World, plan: ExecutionPlan, kind: string, key: string, runId: string)
    requires WorldInv(w) && runId !in w.store.runs && ValidPlan(plan)
    ensures var v := Created(w, plan, kind, key, runId);
            Grows(w, v) && PlansOk(v) && LogsOk(v) && runId !in w.log && runId !in w.genesis
  {
  }

  lemma CreatedClients(w: World, v: World)
    requires ClientsOk(w) && Grows(w, v) && v.clients == w.clients
    ensures ClientsOk(v)
  {
    assert ClientOk(w, 0);
    ClientSurvives(w, v, 0);
    OtherClientsSurvive(w, v, 0);
  }

  lemma CreatedKeeps(w: World, plan: ExecutionPlan, kind: string, key: string, runId: string)
    requires WorldInv(w) && runId !in w.store.runs && ValidPlan(plan) && key !in w.store.idempotency
    ensures WorldInv(Created(w, plan, kind, key, runId)) && Grows(w, Created(w, plan, kind, key, runId))
  {
    var v := Created(w, plan, kind, key, runId);
    CreatedGrows(w, plan, kind, key, runId);
    NewRunOk(w, v, plan, kind, key, runId);
    OtherRunsSurvive(w, v, runId);
    SubmitKeys(w, v, key, runId, v.store.runs[runId]);
    CreatedClients(w, v);
  }

  lemma SubmitKeeps(w: World, plan: ExecutionPlan, kind: string, key: string, runId: string)
    requires WorldInv(w)
    ensures WorldInv(SubmitStep(w, plan, kind, key, runId)) && Grows(w, SubmitStep(w, plan, kind, key, runId))
  {
    if runId !in w.store.runs && ValidPlan(plan) {
      SubmitShape(w, plan, kind, key, runId);
      if SubmitStep(w, plan, kind, key, runId) == w.(clock := w.clock + 1) {
        TickKeeps(w, w.(clock := w.clock + 1));
      } else {
        CreatedKeeps(w, plan, kind, key, runId);
      }
    }
  }

  lemma TickKeeps(w: World, v: World)
    requires WorldInv(w) && v == w.(clock := w.clock + 1)
    ensures WorldInv(v) && Grows(w, v)
  {
    assert ClientOk(w, 0);
    ClientSurvives(w, v, 0);
    OtherClientsSurvive(w, v, 0);
    LocalRuns(w, v);
    KeysSurvive(w, v);
  }

  lemma NewRunOk(w: World, v: World, plan: ExecutionPlan, kind: string, key: string, runId: string)
    requires WorldInv(w) && runId !in w.store.runs && ValidPlan(plan)
    requires v == Created(w, plan, kind, key, runId)
    ensures RunOk(v, runId)
  {
    assert Known(v, runId);
    assert PlanFor(v, runId) == if plan.planId in w.store.plans then w.store.plans[plan.planId] else plan;
  }

  /** What a commit that reaches the store with its generation does. */
  lemma CommitOk(w: World, c: nat)
    requires WorldInv(w) && ClientOf(w, c).Computed? && ClientOf(w, c).runId in w.store.runs
    requires w.store.runs[ClientOf(w, c).runId].generation == ClientOf(w, c).snapshot.generation
    ensures var m := ClientOf(w, c);
            var current := w.store.runs[m.runId];
            && m.snapshot == current
            && Known(w, m.runId) && m.plan == PlanFor(w, m.runId)
            && Inv(m.plan, current)
            && Swapped(w.store, m.updated, m.snapshot.generation, w.clock) ==
               (w.store.(runs := w.store.runs[m.runId := Apply(m.plan, current, Event(m.op, m.at, w.clock))]),
                Ok(Apply(m.plan, current, Event(m.op, m.at, w.clock))))
  {
    var m := ClientOf(w, c);
    assert ClientOk(w, c);
    assert RunOk(w, m.runId);
    assert w.log[m.runId][..|w.log[m.runId]|] == w.log[m.runId];
    ReachableInv(m.plan, w.genesis[m.runId], w.log[m.runId]);
    HistoryNeverRejected(m.plan, m.snapshot, m.op, m.at);
    WriteIdentity(m.plan, m.snapshot, m.op, m.at);
  }

  lemma CommitStale(w: World, c: nat)
    requires WorldInv(w) && ClientOf(w, c).Computed? && ClientOf(w, c).runId in w.store.runs
    requires w.store.runs[ClientOf(w, c).runId].generation != ClientOf(w, c).snapshot.generation
    ensures Swapped(w.store, ClientOf(w, c).updated, ClientOf(w, c).snapshot.generation, w.clock)
            == (w.store, Err(StaleGeneration))
  {
    var m := ClientOf(w, c);
    assert ClientOk(w, c);
    assert RunOk(w, m.runId);
    WriteIdentity(m.plan, m.snapshot, m.op, m.at);
  }

  /** The world after an operation of client c reached the store. */
  function Committed(w: World, c: nat, m: Client): World
    requires m.Computed? && m.runId in w.store.runs && m.runId in w.log
  {
    var e := Event(m.op, m.at, w.clock);
    World(w.store.(runs := w.store.runs[m.runId := Apply(m.plan, w.store.runs[m.runId], e)]),
          w.clock + 1, w.clients[c := Idle], w.genesis, w.log[m.runId := w.log[m.runId] + [e]])
  }

  lemma CommittedRunOk(w: World, c: nat, m: Client)
    requires m.Computed? && RunOk(w, m.runId)
    requires m.snapshot == w.store.runs[m.runId] && m.plan == PlanFor(w, m.runId)
    requires Inv(m.plan, m.snapshot) && m.at < w.clock && Fresh(m.snapshot, m.at)
    requires Decide(m.plan, m.snapshot, m.op, m.at) == Write(m.updated)
    ensures RunOk(Committed(w, c, m), m.runId)
    ensures SameIdentity(w.store.runs[m.runId], Committed(w, c, m).store.runs[m.runId])
  {
    var e := Event(m.op, m.at, w.clock);
    ReplaySnoc(m.plan, w.genesis[m.runId], w.log[m.runId], e);
    WriteIdentity(m.plan, m.snapshot, m.op, m.at);
    WriteFresh(m.plan, m.snapshot, m.op, m.at, w.clock + 1);
    assert Apply(m.plan, m.snapshot, e) == Persist(m.snapshot, m.updated, w.clock);
    assert PlanFor(Committed(w, c, m), m.runId) == m.plan;
  }

  lemma CommittedGrows(w: World, c: nat, m: Client)
    requires WorldInv(w) && m.Computed? && m.runId in w.store.runs && m.runId in w.log
    ensures var v := Committed(w, c, m); Grows(w, v) && PlansOk(v) && LogsOk(v)
  {
    hide Apply, RunsOk, ClientsOk, KeysOk;
  }

  lemma CommittedRuns(w: World, c: nat, m: Client)
    requires WorldInv(w) && m.Computed? && m.runId in w.store.runs && m.runId in w.log
    requires RunOk(Committed(w, c, m), m.runId) && Grows(w, Committed(w, c, m))
    requires SameIdentity(w.store.runs[m.runId], Committed(w, c, m).store.runs[m.runId])
    ensures RunsOk(Committed(w, c, m)) && KeysOk(Committed(w, c, m))
  {
    hide Apply, RunOk, KeysOk, RunsOk, ClientsOk;
    var v := Committed(w, c, m);
    OtherRunsSurvive(w, v, m.runId);
    KeysSurvive(w, v);
  }

  lemma CommittedKeeps(w: World, c: nat, m: Client)
    requires WorldInv(w) && m.Computed? && m.runId in w.store.runs
    requires RunOk(Committed(w, c, m), m.runId)
    requires SameIdentity(w.store.runs[m.runId], Committed(w, c, m).store.runs[m.runId])
    ensures WorldInv(Committed(w, c, m)) && Grows(w, Committed(w, c, m))
  {
    hide Apply, RunOk, Grows, RunsOk, KeysOk;
    CommittedGrows(w, c, m);
    CommittedRuns(w, c, m);
    OtherClientsSurvive(w, Committed(w, c, m), c);
  }

  lemma CommitKeeps(w: World, c: nat)
    requires WorldInv(w)
    ensures WorldInv(CommitStep(w, c)) && Grows(w, CommitStep(w, c))
  {
    hide Decide, Replay;
    var m := ClientOf(w, c);
    if !m.Computed? { return; }
    assert ClientOk(w, c);
    if w.store.runs[m.runId].generation != m.snapshot.generation {
      CommitStale(w, c);
      LocalStep(w, c, Idle, w.clock + 1);
    } else {
      CommitOk(w, c);
      assert RunOk(w, m.runId);
      CommittedRunOk(w, c, m);
      CommittedKeeps(w, c, m);
      assert CommitStep(w, c) == Committed(w, c, m);
    }
  }

  /** Where a computation takes its client. */
  lemma ComputeIs(w: World, c: nat)
    requires ClientOf(w, c).Planned?
    ensures var m := ClientOf(w, c);
            var d := Decide(m.plan, m.snapshot, m.op, w.clock);
            var client := if d.Write? then Computed(m.runId, m.op, m.snapshot, m.plan, w.clock, d.updated) else Idle;
            Next(w, Compute(c)) == w.(clock := w.clock + 1, clients := w.clients[c := client])
  {
    hide Decide, SubmitStep, CommitStep;
  }

  lemma ComputeKeeps(w: World, c: nat)
    requires WorldInv(w)
    ensures WorldInv(Next(w, Compute(c))) && Grows(w, Next(w, Compute(c)))
  {
    hide RunOk, KeysOk, Decide;
    var m := ClientOf(w, c);
    assert ClientOk(w, c);
    if m.Planned? {
      hide Next;
      ComputeIs(w, c);
      var d := Decide(m.plan, m.snapshot, m.op, w.clock);
      var client := if d.Write? then Computed(m.runId, m.op, m.snapshot, m.plan, w.clock, d.updated) else Idle;
      var v := w.(clock := w.clock + 1, clients := w.clients[c := client]);
      SnapshotSurvives(w, v, m.runId, m.snapshot);
      assert Fresh(m.snapshot, w.clock);
      LocalStep(w, c, client, w.clock + 1);
    } else {
      assert Next(w, Compute(c)) == w;
    }
  }

  lemma LoadKeeps(w: World, c: nat, runId: string, op: Op)
    requires WorldInv(w) && runId in w.store.runs
    ensures var v := w.(clients := w.clients[c := Loaded(runId, op, w.store.runs[runId])]); WorldInv(v) && Grows(w, v)
  {
    hide WorldInv, RunOk;
    var client := Loaded(runId, op, w.store.runs[runId]);
    LoadOk(w, runId);
    SnapshotSurvives(w, w.(clients := w.clients[c := client]), runId, w.store.runs[runId]);
    LocalStep(w, c, client, w.clock);
  }

  lemma ReadPlanKeeps(w: World, c: nat)
    requires WorldInv(w)
    ensures WorldInv(Next(w, ReadPlan(c))) && Grows(w, Next(w, ReadPlan(c)))
  {
    hide RunOk, Decide;
    var m := ClientOf(w, c);
    assert ClientOk(w, c);
    if m.Loaded? {
      var client := Planned(m.runId, m.op, m.snapshot, w.store.plans[m.snapshot.planId]);
      SnapshotSurvives(w, w.(clients := w.clients[c := client]), m.runId, m.snapshot);
      LocalStep(w, c, client, w.clock);
    }
  }

  lemma NextKeeps(w: World, step: Step)
    requires WorldInv(w)
    ensures WorldInv(Next(w, step)) && Grows(w, Next(w, step))
  {
    hide WorldInv, SubmitStep, CommitStep, Decide;
    match step {
      case Submit(plan, kind, key, runId) => SubmitKeeps(w, plan, kind, key, runId);
      case Load(c, runId, op) => if runId in w.store.runs { LoadKeeps(w, c, runId, op); }
      case ReadPlan(c) => ReadPlanKeeps(w, c);
      case Compute(c) => ComputeKeeps(w, c);
      case Commit(c) => CommitKeeps(w, c);
      case Crash(c) => LocalStep(w, c, Idle, w.clock);
    }
  }

  lemma {:induction false} ReachableWorld(steps: seq<Step>)
    ensures WorldInv(Exec(Empty, steps))
  {
    if steps != [] {
      ReachableWorld(steps[..|steps| - 1]);
      NextKeeps(Exec(Empty, steps[..|steps| - 1]), steps[|steps| - 1]);
    }
  }

  // ----- The theorems -----

  /**
   * Refinement: whatever the interleaving and the crashes, each stored record is the
   * result of its logged operations applied atomically one after another, and its
   * generation counts them.
   */
  lemma InterleavingRefinesAtomic(steps: seq<Step>, runId: string)
    requires runId in Exec(Empty, steps).store.runs
    ensures var w := Exec(Empty, steps);
            && Known(w, runId) && JustCreated(w.genesis[runId]) && ValidPlan(PlanFor(w, runId))
            && FreshTrace(PlanFor(w, runId), w.genesis[runId], w.log[runId])
            && w.store.runs[runId] == Replay(PlanFor(w, runId), w.genesis[runId], w.log[runId])
            && w.store.runs[runId].generation == |w.log[runId]|
            && Inv(PlanFor(w, runId), w.store.runs[runId])
  {
    ReachableWorld(steps);
    var w := Exec(Empty, steps);
    assert RunOk(w, runId);
    ReachableInv(PlanFor(w, runId), w.genesis[runId], w.log[runId]);
  }

  lemma CommitIsAtomic(w: World, c: nat)
    requires WorldInv(w) && ClientOf(w, c).Computed? && ClientOf(w, c).runId in w.store.runs
    requires w.store.runs[ClientOf(w, c).runId].generation == ClientOf(w, c).snapshot.generation
    ensures var m := ClientOf(w, c);
            var swapped := Swapped(w.store, m.updated, m.snapshot.generation, w.clock).0;
            && swapped == Atomic(w.store, m.runId, m.op, m.at, w.clock).0
            && m.runId in swapped.runs && swapped.runs == w.store.runs[m.runId := swapped.runs[m.runId]]
            && swapped.runs[m.runId].generation == w.store.runs[m.runId].generation + 1
  {
    assert ClientOk(w, c) && RunOk(w, ClientOf(w, c).runId);
    CommitOk(w, c);
  }

  /** v is w after this client's commit: its operation applied to the current record, or nothing. */
  predicate AtomicOrStale(w: World, v: World, m: Client) {
    m.Computed? && m.runId in w.store.runs &&
    var current := w.store.runs[m.runId];
    if current.generation == m.snapshot.generation
    then v.store == Atomic(w.store, m.runId, m.op, m.at, w.clock).0
         && m.runId in v.store.runs && v.store.runs == w.store.runs[m.runId := v.store.runs[m.runId]]
         && v.store.runs[m.runId].generation == current.generation + 1
    else v.store == w.store
  }

  lemma CommitCases(w: World, c: nat)
    requires WorldInv(w) && ClientOf(w, c).Computed?
    ensures AtomicOrStale(w, Next(w, Commit(c)), ClientOf(w, c))
  {
    hide Replay;
    var m := ClientOf(w, c);
    assert ClientOk(w, c);
    if w.store.runs[m.runId].generation == m.snapshot.generation {
      CommitIsAtomic(w, c);
    } else {
      CommitStale(w, c);
    }
  }

  /** A commit either finds its generation and applies its operation atomically to the
      current record, or is stale and changes nothing; nothing else can happen. */
  lemma CommitIsAtomicOrStale(steps: seq<Step>, c: nat)
    requires ClientOf(Exec(Empty, steps), c).Computed?
    ensures AtomicOrStale(Exec(Empty, steps), Next(Exec(Empty, steps), Commit(c)), ClientOf(Exec(Empty, steps), c))
  {
    ReachableWorld(steps);
    CommitCases(Exec(Empty, steps), c);
  }

  lemma {:induction false} LogsGrow(steps: seq<Step>, k: nat)
    requires k <= |steps|
    ensures Grows(Exec(Empty, steps[..k]), Exec(Empty, steps))
  {
    if k == |steps| {
      assert steps[..k] == steps;
    } else {
      var before := steps[..|steps| - 1];
      LogsGrow(before, k);
      assert before[..k] == steps[..k];
      ReachableWorld(before);
      NextKeeps(Exec(Empty, before), steps[|steps| - 1]);
    }
  }

  lemma RecordIsNamed(steps: seq<Step>, k: nat, runId: string)
    requires k <= |steps| && runId in Exec(Empty, steps[..k]).store.runs
    ensures var w, r := Exec(Empty, steps), Exec(Empty, steps[..k]).store.runs[runId];
            && Known(w, runId) && r.generation <= |w.log[runId]|
            && r == RecordAt(w, runId, r.generation)
  {
    ReachableWorld(steps[..k]);
    ReachableWorld(steps);
    LogsGrow(steps, k);
    var v, w := Exec(Empty, steps[..k]), Exec(Empty, steps);
    LoadOk(v, runId);
    SnapshotSurvives(v, w, runId, v.store.runs[runId]);
  }

  /** Over the whole history a run and a generation name exactly one record. */
  lemma GenerationNamesOneRecord(steps: seq<Step>, j: nat, k: nat, runId: string)
    requires j <= |steps| && k <= |steps|
    requires runId in Exec(Empty, steps[..j]).store.runs && runId in Exec(Empty, steps[..k]).store.runs
    requires Exec(Empty, steps[..j]).store.runs[runId].generation == Exec(Empty, steps[..k]).store.runs[runId].generation
    ensures Exec(Empty, steps[..j]).store.runs[runId] == Exec(Empty, steps[..k]).store.runs[runId]
  {
    RecordIsNamed(steps, j, runId);
    RecordIsNamed(steps, k, runId);
  }

  /** One idempotency key belongs to at most one run, and resubmission returns that run. */
  lemma KeysAreIdempotent(steps: seq<Step>, a: string, b: string)
    requires var w := Exec(Empty, steps); a in w.store.runs && b in w.store.runs
    requires var w := Exec(Empty, steps); w.store.runs[a].idempotencyKey == w.store.runs[b].idempotencyKey
    ensures a == b
    ensures var w := Exec(Empty, steps);
            forall plan: ExecutionPlan, newId: string, now: nat ::
              plan.planId == w.store.runs[a].planId ==>
                Submitted(w.store, plan, w.store.runs[a].productKind, w.store.runs[a].idempotencyKey, newId, now)
                == (w.store, Ok(w.store.runs[a]))
  {
    ReachableWorld(steps);
    assert FiledOk(Exec(Empty, steps), a) && FiledOk(Exec(Empty, steps), b);
  }
}
