/**
 * The durable control-plane store and the application service over it: every change of
 * a run goes through one compare-and-set on its generation.
 */
module Store {
  import opened Prelude
  import opened Plans
  import opened Lifecycle

  datatype StoreState = StoreState(
    plans: map<string, ExecutionPlan>,
    runs: map<string, ProductRun>,
    idempotency: map<string, string>)

  const EmptyStore := StoreState(map[], map[], map[])

  /** Submission with an idempotency key; runId is a name no run carries yet. */
  function Submitted(st: StoreState, plan: ExecutionPlan, productKind: string, key: string, runId: string, now: nat)
    : (StoreState, Result<ProductRun, Error>)
  {
    if key in st.idempotency then
      if st.idempotency[key] !in st.runs then (st, Err(UnknownRun))
      else
        var existing := st.runs[st.idempotency[key]];
        if existing.planId != plan.planId || existing.productKind != productKind
        then (st, Err(IdempotencyConflict))
        else (st, Ok(existing))
    else if productKind == "" then (st, Err(MissingKind))
    else if key == "" then (st, Err(MissingKey))
    else
      var run := CreateRun(runId, productKind, plan.planId, key, now);
      (StoreState(
         if plan.planId in st.plans then st.plans else st.plans[plan.planId := plan],
         st.runs[runId := run],
         st.idempotency[key := runId]),
       Ok(run))
  }

  function IdentityError(previous: ProductRun, replacement: ProductRun): Error {
    if previous.idempotencyKey != replacement.idempotencyKey || previous.planId != replacement.planId
       || previous.productKind != replacement.productKind
    then IdentityChanged
    else if exists i | 0 <= i < |previous.attempts| :: Lookup(replacement.attempts, previous.attempts[i].id).None?
    then HistoryRemoved
    else HistoryChanged
  }

  function Swapped(st: StoreState, run: ProductRun, expected: nat, now: nat)
    : (StoreState, Result<ProductRun, Error>)
  {
    if run.runId !in st.runs then (st, Err(UnknownRun))
    else
      var current := st.runs[run.runId];
      if current.generation != expected then (st, Err(StaleGeneration))
      else if !HistoryImmutable(current, run) then (st, Err(IdentityError(current, run)))
      else
        var persisted := Persist(current, run, now);
        (st.(runs := st.runs[run.runId := persisted]), Ok(persisted))
  }

  // ----- What a replacement must keep, as its caller sees it -----

  predicate SameDocument(previous: ProductRun, replacement: ProductRun) {
    && replacement.idempotencyKey == previous.idempotencyKey && replacement.planId == previous.planId
    && replacement.productKind == previous.productKind
  }

  predicate LosesAttempt(previous: ProductRun, replacement: ProductRun) {
    exists i | 0 <= i < |previous.attempts| ::
      forall j | 0 <= j < |replacement.attempts| :: replacement.attempts[j].id != previous.attempts[i].id
  }

  /** The stored attempt under an identity is over, and the replacement holds another record there. */
  predicate RewritesEnd(previous: ProductRun, replacement: ProductRun, id: AttemptId) {
    var was, now := Lookup(previous.attempts, id), Lookup(replacement.attempts, id);
    was.Some? && now.Some? && was.value.status in {Succeeded, Failed, Lost, Blocked, Cancelled} && now != was
  }

  /** The run keeps what identifies it, loses no attempt and rewrites none that is over. */
  predicate KeepsHistory(previous: ProductRun, replacement: ProductRun) {
    && SameDocument(previous, replacement) && !LosesAttempt(previous, replacement)
    && forall i | 0 <= i < |previous.attempts| :: !RewritesEnd(previous, replacement, previous.attempts[i].id)
  }

  lemma {:induction false} LookupNone(attempts: seq<Attempt>, id: AttemptId)
    ensures Lookup(attempts, id).None? <==> forall j | 0 <= j < |attempts| :: attempts[j].id != id
  {
    if attempts != [] {
      LookupNone(attempts[..|attempts| - 1], id);
      assert attempts == attempts[..|attempts| - 1] + [attempts[|attempts| - 1]];
    }
  }

  /** The store's check passes exactly for such a replacement, and otherwise says what it breaks. */
  lemma {:induction false} HistoryCheckIff(previous: ProductRun, replacement: ProductRun)
    ensures HistoryImmutable(previous, replacement) <==> KeepsHistory(previous, replacement)
    ensures !SameDocument(previous, replacement) ==> IdentityError(previous, replacement) == IdentityChanged
    ensures SameDocument(previous, replacement) ==>
              IdentityError(previous, replacement) == if LosesAttempt(previous, replacement) then HistoryRemoved else HistoryChanged
  {
    forall i | 0 <= i < |previous.attempts|
      ensures var id := previous.attempts[i].id;
              && Lookup(previous.attempts, id).Some?
              && (Lookup(replacement.attempts, id).None? <==>
                    forall j | 0 <= j < |replacement.attempts| :: replacement.attempts[j].id != id)
              && (AttemptKept(previous.attempts, replacement.attempts, id) <==>
                    Lookup(replacement.attempts, id).Some? && !RewritesEnd(previous, replacement, id))
    {
      LookupNone(previous.attempts, previous.attempts[i].id);
      LookupNone(replacement.attempts, previous.attempts[i].id);
    }
    if LosesAttempt(previous, replacement) {
      var i :| 0 <= i < |previous.attempts| && forall j | 0 <= j < |replacement.attempts| :: replacement.attempts[j].id != previous.attempts[i].id;
      assert Lookup(replacement.attempts, previous.attempts[i].id).None?;
    }
  }

  /**
   * What one compare-and-set does: it refuses an unknown run, a moved generation and a
   * rewritten history, in this order, and changes nothing then; otherwise the new record
   * takes the run's place at the next generation, keeping the instant of creation.
   */
  lemma SwapsIff(st: StoreState, run: ProductRun, expected: nat, now: nat)
    ensures var (after, r) := Swapped(st, run, expected, now);
            if run.runId !in st.runs then after == st && r == Err(UnknownRun)
            else
              var current := st.runs[run.runId];
              if current.generation != expected then after == st && r == Err(StaleGeneration)
              else if !SameDocument(current, run) then after == st && r == Err(IdentityChanged)
              else if LosesAttempt(current, run) then after == st && r == Err(HistoryRemoved)
              else if !KeepsHistory(current, run) then after == st && r == Err(HistoryChanged)
              else
                && r == Ok(run.(generation := expected + 1, createdAt := current.createdAt, updatedAt := now))
                && after == StoreState(st.plans, st.runs[run.runId := r.value], st.idempotency)
  {
    if run.runId in st.runs { HistoryCheckIff(st.runs[run.runId], run); }
    hide HistoryImmutable, IdentityError;
  }

  /** The operations that consult the plan, in the states where they reach it. */
  predicate ReadsPlan(r: ProductRun, op: Op) {
    op.StartNextAttempt? || op.ApplyTerminalAction? || (op.ResumeAttempt? && Resumable(r.observed))
  }

  /** One operation on the store with nothing in between. */
  function Atomic(st: StoreState, runId: string, op: Op, at: nat, savedAt: nat): (StoreState, Result<ProductRun, Error>) {
    if runId !in st.runs then (st, Err(UnknownRun))
    else
      var r := st.runs[runId];
      if ReadsPlan(r, op) && r.planId !in st.plans then (st, Err(UnknownPlan))
      else
        var plan := if r.planId in st.plans then st.plans[r.planId] else ExecutionPlan(r.planId, []);
        match Decide(plan, r, op, at)
        case Raise(e) => (st, Err(e))
        case Keep => (st, Ok(r))
        case Write(u) => Swapped(st, u, r.generation, savedAt)
  }

  class JsonFileControlPlaneStore {
    var plans: map<string, ExecutionPlan>
    var runs: map<string, ProductRun>
    var idempotency: map<string, string>

    constructor ()
      ensures State() == EmptyStore
    {
      plans, runs, idempotency := map[], map[], map[];
    }

    function State(): StoreState
      reads this
    {
      StoreState(plans, runs, idempotency)
    }

    method CreateOrGet(plan: ExecutionPlan, productKind: string, key: string, runId: string, now: nat)
      returns (r: Result<ProductRun, Error>)
      modifies this
      ensures (State(), r) == Submitted(old(State()), plan, productKind, key, runId, now)
      ensures key in old(idempotency) || productKind == "" || key == "" ==> State() == old(State())
      ensures key in old(idempotency) && old(idempotency)[key] !in old(runs) ==> r == Err(UnknownRun)
      ensures key in old(idempotency) && old(idempotency)[key] in old(runs) ==>
                var filed := old(runs)[old(idempotency)[key]];
                r == if filed.planId == plan.planId && filed.productKind == productKind then Ok(filed) else Err(IdempotencyConflict)
      ensures key !in old(idempotency) && productKind == "" ==> r == Err(MissingKind)
      ensures key !in old(idempotency) && productKind != "" && key == "" ==> r == Err(MissingKey)
      ensures key !in old(idempotency) && productKind != "" && key != "" ==>
                && r == Ok(ProductRun(runId, productKind, plan.planId, key, Active, PlanPending, 0, [], map[], now, now))
                && runs == old(runs)[runId := r.value] && idempotency == old(idempotency)[key := runId]
                && plans == if plan.planId in old(plans) then old(plans) else old(plans)[plan.planId := plan]
    {
      if key in idempotency {
        var existingId := idempotency[key];
        if existingId !in runs {
          return Err(UnknownRun);
        }
        var existing := runs[existingId];
        if existing.planId != plan.planId || existing.productKind != productKind {
          return Err(IdempotencyConflict);
        }
        return Ok(existing);
      }
      if productKind == "" {
        return Err(MissingKind);
      }
      if key == "" {
        return Err(MissingKey);
      }
      var run := CreateRun(runId, productKind, plan.planId, key, now);
      if plan.planId !in plans {
        plans := plans[plan.planId := plan];
      }
      runs := runs[runId := run];
      idempotency := idempotency[key := runId];
      return Ok(run);
    }

    method LoadRun(runId: string) returns (r: Result<ProductRun, Error>)
      ensures r == if runId in runs then Ok(runs[runId]) else Err(UnknownRun)
    {
      if runId !in runs {
        return Err(UnknownRun);
      }
      return Ok(runs[runId]);
    }

    method LoadPlan(planId: string) returns (r: Result<ExecutionPlan, Error>)
      ensures r == if planId in plans then Ok(plans[planId]) else Err(UnknownPlan)
    {
      if planId !in plans {
        return Err(UnknownPlan);
      }
      return Ok(plans[planId]);
    }

    /** A stale or rewriting caller changes nothing; a fresh one moves the generation by one. */
    method CompareAndSet(run: ProductRun, expected: nat, now: nat) returns (r: Result<ProductRun, Error>)
      modifies this
      ensures (State(), r) == Swapped(old(State()), run, expected, now)
      ensures r.Err? ==> State() == old(State())
      ensures r.Ok? ==>
                && run.runId in old(runs) && old(runs)[run.runId].generation == expected
                && r.value.generation == expected + 1
                && runs == old(runs)[run.runId := r.value]
                && plans == old(plans) && idempotency == old(idempotency)
    {
      if run.runId !in runs {
        return Err(UnknownRun);
      }
      var current := runs[run.runId];
      if current.generation != expected {
        return Err(StaleGeneration);
      }
      if !HistoryImmutable(current, run) {
        return Err(IdentityError(current, run));
      }
      var persisted := run.(generation := current.generation + 1, createdAt := current.createdAt, updatedAt := now);
      runs := runs[persisted.runId := persisted];
      return Ok(persisted);
    }
  }

  /** Load, decide, compare-and-set: with no one in between this is one atomic operation. */
  class ProductControlPlane {
    const store: JsonFileControlPlaneStore

    constructor (store: JsonFileControlPlaneStore)
      ensures this.store == store
    {
      this.store := store;
    }

    method Submit(plan: ExecutionPlan, productKind: string, key: string, runId: string, now: nat)
      returns (r: Result<ProductRun, Error>)
      modifies store
      ensures (store.State(), r) == Submitted(old(store.State()), plan, productKind, key, runId, now)
    {
      r := store.CreateOrGet(plan, productKind, key, runId, now);
    }

    /** The action the reconciler chooses for the stored run. */
    method NextActionOf(runId: string) returns (r: Result<Action, Error>)
      ensures r == if runId !in store.runs then Err(UnknownRun)
                   else if store.runs[runId].planId !in store.plans then Err(UnknownPlan)
                   else var action := NextAction(store.plans[store.runs[runId].planId], store.runs[runId]);
                        if action.RaisesUnknownStep? then Err(UnknownStep) else Ok(action)
    {
      var run := store.LoadRun(runId);
      if run.Err? {
        return Err(run.error);
      }
      var plan := store.LoadPlan(run.value.planId);
      if plan.Err? {
        return Err(plan.error);
      }
      var action := NextAction(plan.value, run.value);
      if action.RaisesUnknownStep? {
        return Err(UnknownStep);
      }
      return Ok(action);
    }

    method StartNextAttempt(runId: string, at: nat, savedAt: nat) returns (r: Result<Attempt, Error>)
      modifies store
      ensures store.State() == Atomic(old(store.State()), runId, Op.StartNextAttempt, at, savedAt).0
      ensures r.Ok? <==> Atomic(old(store.State()), runId, Op.StartNextAttempt, at, savedAt).1.Ok?
      ensures r.Err? ==> r.error == Atomic(old(store.State()), runId, Op.StartNextAttempt, at, savedAt).1.error
      ensures r.Ok? ==>
                && runId in old(store.runs) && r.value == NewAttempt(old(store.runs)[runId], r.value.stepId, at)
                && (old(store.runs)[runId].runId == runId ==>
                      runId in store.runs && store.runs[runId].attempts == old(store.runs)[runId].attempts + [r.value])
    {
      var loaded := store.LoadRun(runId);
      if loaded.Err? {
        return Err(loaded.error);
      }
      var run := loaded.value;
      var plan := store.LoadPlan(run.planId);
      if plan.Err? {
        return Err(plan.error);
      }
      var action := NextAction(plan.value, run);
      if action.RaisesUnknownStep? {
        return Err(UnknownStep);
      }
      if !action.CreateAttempt? && !action.RetryAttempt? {
        return Err(CannotCreate);
      }
      var attempt := NewAttempt(run, action.stepId, at);
      var extended := WithAttempt(run, attempt);
      if extended.Err? {
        return Err(extended.error);
      }
      var updated := WithObservedStatus(WithStepStatus(extended.value, action.stepId, StepRunning), PlanRunning);
      var saved := store.CompareAndSet(updated.value, run.generation, savedAt);
      if saved.Err? {
        return Err(saved.error);
      }
      return Ok(attempt);
    }

    method ResumeAttempt(runId: string, stepId: string, at: nat, savedAt: nat) returns (r: Result<Attempt, Error>)
      modifies store
      ensures store.State() == Atomic(old(store.State()), runId, Op.ResumeAttempt(stepId), at, savedAt).0
      ensures r.Ok? <==> Atomic(old(store.State()), runId, Op.ResumeAttempt(stepId), at, savedAt).1.Ok?
      ensures r.Err? ==> r.error == Atomic(old(store.State()), runId, Op.ResumeAttempt(stepId), at, savedAt).1.error
      ensures r.Ok? ==>
                && runId in old(store.runs) && r.value == NewAttempt(old(store.runs)[runId], stepId, at)
                && (old(store.runs)[runId].runId == runId ==>
                      runId in store.runs && store.runs[runId].attempts == old(store.runs)[runId].attempts + [r.value])
    {
      var loaded := store.LoadRun(runId);
      if loaded.Err? {
        return Err(loaded.error);
      }
      var run := loaded.value;
      if !Resumable(run.observed) {
        return Err(NotResumable);
      }
      var plan := store.LoadPlan(run.planId);
      if plan.Err? {
        return Err(plan.error);
      }
      if FindStep(plan.value.steps, stepId).None? {
        return Err(UnknownStep);
      }
      var attempt := NewAttempt(run, stepId, at);
      var rewound := run.(desired := Active, observed := PlanRunning);
      var extended := WithAttempt(rewound, attempt);
      if extended.Err? {
        return Err(extended.error);
      }
      var updated := WithObservedStatus(WithStepStatus(extended.value, stepId, StepRunning), PlanRunning);
      var saved := store.CompareAndSet(updated.value, run.generation, savedAt);
      if saved.Err? {
        return Err(saved.error);
      }
      return Ok(attempt);
    }

    method ObserveAttempt(runId: string, id: AttemptId, status: AttemptStatus, d: Details, expected: Option<nat>,
                          at: nat, savedAt: nat) returns (r: Result<ProductRun, Error>)
      modifies store
      ensures (store.State(), r) ==
              Atomic(old(store.State()), runId, Op.ObserveAttempt(id, status, d, expected), at, savedAt)
    {
      hide NextAction, HistoryImmutable;
      var loaded := store.LoadRun(runId);
      if loaded.Err? {
        return loaded;
      }
      var run := loaded.value;
      if expected.Some? && run.generation != expected.value {
        return Err(StaleGeneration);
      }
      var attempt := FindAttempt(run.attempts, id);
      if attempt.None? {
        return Err(UnknownAttempt);
      }
      var observed := WithObservation(attempt.value, status, d, at);
      if observed.Err? {
        return Err(observed.error);
      }
      var updated := WithObservedAttempt(run, observed.value);
      if updated.Ok? {
        if status.Failed? || status.Lost? {
          updated := WithObservedStatus(updated.value, AwaitingRetry);
        } else if status.Cancelling? {
          updated := WithObservedStatus(updated.value, PlanCancelling);
        } else if status.Cancelled? {
          updated := WithObservedStatus(updated.value, CancelRequested);
        }
      }
      if updated.Err? {
        return Err(updated.error);
      }
      r := store.CompareAndSet(updated.value, run.generation, savedAt);
    }

    method RequestCancel(runId: string, savedAt: nat) returns (r: Result<ProductRun, Error>)
      modifies store
      ensures (store.State(), r) == Atomic(old(store.State()), runId, Op.RequestCancel, savedAt, savedAt)
    {
      var loaded := store.LoadRun(runId);
      if loaded.Err? || loaded.value.Terminal() {
        return loaded;
      }
      var run := loaded.value;
      var wanted := WithDesiredState(run, WantCancelled);
      if wanted.Err? {
        return wanted;
      }
      var updated := WithObservedStatus(wanted.value, CancelRequested);
      if updated.Err? {
        return updated;
      }
      r := store.CompareAndSet(updated.value, run.generation, savedAt);
    }

    method ApplyTerminalAction(runId: string, savedAt: nat) returns (r: Result<ProductRun, Error>)
      modifies store
      ensures (store.State(), r) == Atomic(old(store.State()), runId, Op.ApplyTerminalAction, savedAt, savedAt)
    {
      var loaded := store.LoadRun(runId);
      if loaded.Err? {
        return loaded;
      }
      var run := loaded.value;
      var plan := store.LoadPlan(run.planId);
      if plan.Err? {
        return Err(plan.error);
      }
      var updated: Result<ProductRun, Error>;
      match NextAction(plan.value, run) {
        case FinalizeSucceeded => updated := WithObservedStatus(run, PlanSucceeded);
        case FinalizeFailed => updated := WithObservedStatus(run, PlanFailed);
        case FinalizeBlocked => updated := WithObservedStatus(run, PlanBlocked);
        case FinalizeCancelled => updated := WithObservedStatus(run, PlanCancelled);
        case RaisesUnknownStep => return Err(UnknownStep);
        case _ => return Ok(run);
      }
      if updated.Err? {
        return updated;
      }
      r := store.CompareAndSet(updated.value, run.generation, savedAt);
    }
  }
}
