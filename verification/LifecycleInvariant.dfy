/**
 * The invariant of every reachable run, resume included: numbering, frozen history,
 * step statuses that mirror the last attempt, and what each run status implies.
 */
module LifecycleInvariant {
  import opened Prelude
  import opened Plans
  import opened Lifecycle

  /** The last attempt of a step. */
  function LastOf(attempts: seq<Attempt>, stepId: string): Option<Attempt> {
    if attempts == [] then None
    else if attempts[|attempts| - 1].stepId == stepId then Some(attempts[|attempts| - 1])
    else LastOf(attempts[..|attempts| - 1], stepId)
  }

  predicate NumberedAt(r: ProductRun, i: nat)
    requires i < |r.attempts|
  {
    && r.attempts[i].id == AttemptId(r.runId, i + 1)
    && r.attempts[i].number == i + 1
    && r.attempts[i].runId == r.runId
  }

  predicate Numbered(r: ProductRun) {
    forall i: nat | i < |r.attempts| :: NumberedAt(r, i)
  }

  /** Every attempt except possibly the last one is terminal. */
  predicate Frozen(r: ProductRun) {
    forall i | 0 <= i < |r.attempts| - 1 :: r.attempts[i].status.Terminal()
  }

  predicate KnownSteps(plan: ExecutionPlan, r: ProductRun) {
    forall i | 0 <= i < |r.attempts| :: FindStep(plan.steps, r.attempts[i].stepId).Some?
  }

  /** A step's status mirrors its last attempt; a just-started one counts as running. */
  predicate StepMatches(r: ProductRun, stepId: string) {
    match LastOf(r.attempts, stepId)
    case None => stepId !in r.stepStatuses
    case Some(a) =>
      && stepId in r.stepStatuses
      && (|| r.stepStatuses[stepId] == StepStatusOf(a.status)
          || (a.status.Pending? && r.stepStatuses[stepId].StepRunning?))
  }

  ghost predicate StatusesMatch(r: ProductRun) {
    forall stepId :: StepMatches(r, stepId)
  }

  predicate LatestFailed(r: ProductRun) {
    r.Latest().Some? && (r.Latest().value.status.Failed? || r.Latest().value.status.Lost?)
  }

  predicate NoActiveAttempt(r: ProductRun) {
    r.Latest().Some? ==> r.Latest().value.status.Terminal()
  }

  predicate StepSucceededLast(r: ProductRun, stepId: string) {
    LastOf(r.attempts, stepId).Some? && LastOf(r.attempts, stepId).value.status.Succeeded?
  }

  ghost predicate BlockedStep(r: ProductRun, stepId: string) {
    LastOf(r.attempts, stepId).Some? && LastOf(r.attempts, stepId).value.status.Blocked?
  }

  /** What each status of a run says about its attempts. */
  ghost predicate ObservedFits(plan: ExecutionPlan, r: ProductRun) {
    match r.observed
    case PlanPending => r.attempts == []
    case AwaitingRetry => LatestFailed(r)
    case PlanFailed => LatestFailed(r)
    case PlanCancelled =>
      && r.desired.WantCancelled?
      && NoActiveAttempt(r)
      && (r.Latest().Some? && r.Latest().value.status.Cancelled? ==> r.Latest().value.cleanupConfirmed)
    case PlanSucceeded =>
      && NoActiveAttempt(r)
      && forall i | 0 <= i < |plan.steps| :: StepSucceededLast(r, plan.steps[i].stepId)
    case PlanBlocked => exists s :: BlockedStep(r, s)
    case _ => true
  }

  ghost predicate Inv(plan: ExecutionPlan, r: ProductRun) {
    && Numbered(r)
    && Frozen(r)
    && KnownSteps(plan, r)
    && StatusesMatch(r)
    && ObservedFits(plan, r)
  }

  /** The clock has passed every observation the record holds. */
  predicate Fresh(r: ProductRun, now: nat) {
    forall i | 0 <= i < |r.attempts| :: r.attempts[i].observedAt < now
  }

  // ----- Lookups by identity -----

  lemma {:induction false} FindFirst(attempts: seq<Attempt>, id: AttemptId, i: nat)
    requires i < |attempts| && attempts[i].id == id
    requires forall j | 0 <= j < i :: attempts[j].id != id
    ensures FindAttempt(attempts, id) == Some(attempts[i])
  {
    if i > 0 { FindFirst(attempts[1..], id, i - 1); }
  }

  lemma {:induction false} FindNone(attempts: seq<Attempt>, id: AttemptId)
    requires forall i | 0 <= i < |attempts| :: attempts[i].id != id
    ensures FindAttempt(attempts, id).None?
  {
    if attempts != [] { FindNone(attempts[1..], id); }
  }

  lemma {:induction false} FindSome(attempts: seq<Attempt>, id: AttemptId) returns (i: nat)
    requires FindAttempt(attempts, id).Some?
    ensures i < |attempts| && attempts[i] == FindAttempt(attempts, id).value && attempts[i].id == id
  {
    if attempts[0].id == id { i := 0; }
    else { i := FindSome(attempts[1..], id); i := i + 1; }
  }

  lemma {:induction false} FindByNumber(r: ProductRun, i: nat)
    requires Numbered(r) && i < |r.attempts|
    ensures FindAttempt(r.attempts, AttemptId(r.runId, i + 1)) == Some(r.attempts[i])
  {
    assert NumberedAt(r, i);
    forall j | 0 <= j < i ensures r.attempts[j].id != AttemptId(r.runId, i + 1) {
      assert NumberedAt(r, j);
    }
    FindFirst(r.attempts, AttemptId(r.runId, i + 1), i);
  }

  lemma {:induction false} ReplaceOther(attempts: seq<Attempt>, observed: Attempt)
    requires forall j | 0 <= j < |attempts| :: attempts[j].id != observed.id
    ensures ReplaceAttempt(attempts, observed) == attempts
  {
    if attempts != [] { ReplaceOther(attempts[1..], observed); }
  }

  lemma {:induction false} ReplaceOne(attempts: seq<Attempt>, observed: Attempt, i: nat)
    requires i < |attempts| && attempts[i].id == observed.id
    requires forall j | 0 <= j < |attempts| && j != i :: attempts[j].id != observed.id
    ensures ReplaceAttempt(attempts, observed) == attempts[i := observed]
  {
    if i == 0 {
      ReplaceOther(attempts[1..], observed);
    } else {
      ReplaceOne(attempts[1..], observed, i - 1);
      assert attempts[i := observed] == [attempts[0]] + attempts[1..][i - 1 := observed];
    }
  }

  lemma LastOfAppend(attempts: seq<Attempt>, a: Attempt, stepId: string)
    ensures LastOf(attempts + [a], stepId) == if a.stepId == stepId then Some(a) else LastOf(attempts, stepId)
  {
    assert (attempts + [a])[..|attempts|] == attempts;
  }

  lemma LastOfUpdate(attempts: seq<Attempt>, a: Attempt, stepId: string)
    requires attempts != [] && a.stepId == attempts[|attempts| - 1].stepId
    ensures LastOf(attempts[|attempts| - 1 := a], stepId) ==
            if a.stepId == stepId then Some(a) else LastOf(attempts, stepId)
  {
    var n := |attempts| - 1;
    assert attempts[n := a][..n] == attempts[..n];
  }

  lemma {:induction false} LastOfIndex(attempts: seq<Attempt>, stepId: string) returns (i: nat)
    requires LastOf(attempts, stepId).Some?
    ensures i < |attempts| && attempts[i] == LastOf(attempts, stepId).value && attempts[i].stepId == stepId
  {
    var n := |attempts| - 1;
    if attempts[n].stepId == stepId { i := n; }
    else { i := LastOfIndex(attempts[..n], stepId); }
  }

  // ----- What a write looks like -----

  /** The record after an attempt of this step is appended. */
  function Appended(r: ProductRun, desired: DesiredState, stepId: string, now: nat): ProductRun {
    r.(desired := desired,
       observed := PlanRunning,
       attempts := r.attempts + [NewAttempt(r, stepId, now)],
       stepStatuses := r.stepStatuses[stepId := StepRunning])
  }

  function Observed(a: Attempt, status: AttemptStatus, d: Details, now: nat): Attempt {
    a.(status := status,
       refs := d.refs.GetOr(a.refs),
       cleanupConfirmed := d.cleanup.GetOr(a.cleanupConfirmed),
       error := if d.error.None? then a.error else d.error,
       observedAt := now)
  }

  /** The record after its last attempt is observed. */
  function ObservedLatest(r: ProductRun, status: AttemptStatus, d: Details, now: nat): ProductRun
    requires r.attempts != []
  {
    var last := r.attempts[|r.attempts| - 1];
    r.(attempts := r.attempts[|r.attempts| - 1 := Observed(last, status, d, now)],
       stepStatuses := r.stepStatuses[last.stepId := StepStatusOf(status)],
       observed := ForcedStatus(status).GetOr(r.observed))
  }

  lemma {:induction false} NewIdUnused(r: ProductRun)
    requires Numbered(r)
    ensures FindAttempt(r.attempts, AttemptId(r.runId, |r.attempts| + 1)).None?
  {
    var id := AttemptId(r.runId, |r.attempts| + 1);
    forall i | 0 <= i < |r.attempts| ensures r.attempts[i].id != id {
      assert NumberedAt(r, i);
    }
    FindNone(r.attempts, id);
  }

  /** An append on a nonterminal run always goes through, with the next number. */
  lemma AppendShape(r: ProductRun, stepId: string, now: nat)
    requires Numbered(r) && !r.Terminal()
    ensures Append(r, stepId, now) == Write(Appended(r, r.desired, stepId, now))
  {
    NewIdUnused(r);
  }

  lemma ResumeShape(plan: ExecutionPlan, r: ProductRun, stepId: string, now: nat)
    requires Numbered(r)
    requires DecideResume(plan, r, stepId, now).Write?
    ensures DecideResume(plan, r, stepId, now) == Write(Appended(r, Active, stepId, now))
    ensures Resumable(r.observed) && FindStep(plan.steps, stepId).Some?
  {
    var rewound := r.(desired := Active, observed := PlanRunning);
    assert Numbered(rewound) by {
      forall i: nat | i < |rewound.attempts| ensures NumberedAt(rewound, i) {
        assert NumberedAt(r, i);
      }
    }
    AppendShape(rewound, stepId, now);
  }

  /** Only the last, still active attempt of a record can be observed. */
  predicate Observable(r: ProductRun, id: AttemptId, status: AttemptStatus, expected: Option<nat>) {
    && (expected.Some? ==> expected.value == r.generation)
    && r.attempts != []
    && id == r.attempts[|r.attempts| - 1].id
    && !r.attempts[|r.attempts| - 1].status.Terminal()
    && (r.Terminal() ==> ForcedStatus(status).None?)
  }

  lemma {:induction false} ObserveLast(r: ProductRun, status: AttemptStatus, d: Details, expected: Option<nat>, now: nat)
    requires Numbered(r) && r.attempts != []
    requires expected.Some? ==> expected.value == r.generation
    requires !r.attempts[|r.attempts| - 1].status.Terminal()
    ensures var id := r.attempts[|r.attempts| - 1].id;
            DecideObserve(r, id, status, d, expected, now) ==
            if r.Terminal() && ForcedStatus(status).Some? then Raise(TerminalRun)
            else Write(ObservedLatest(r, status, d, now))
  {
    var n := |r.attempts| - 1;
    var last := r.attempts[n];
    assert NumberedAt(r, n);
    FindByNumber(r, n);
    var o := Observed(last, status, d, now);
    assert WithObservation(last, status, d, now) == Ok(o);
    forall j | 0 <= j < |r.attempts| && j != n ensures r.attempts[j].id != o.id {
      assert NumberedAt(r, j);
    }
    ReplaceOne(r.attempts, o, n);
  }

  /** Whatever the instant, observing a terminal attempt again never writes. */
  lemma {:induction false} ObserveOther(r: ProductRun, id: AttemptId, status: AttemptStatus, d: Details, expected: Option<nat>, now: nat)
    requires Numbered(r) && Frozen(r) && Fresh(r, now)
    requires !(r.attempts != [] && id == r.attempts[|r.attempts| - 1].id && !r.attempts[|r.attempts| - 1].status.Terminal())
    ensures DecideObserve(r, id, status, d, expected, now).Raise?
  {
    if FindAttempt(r.attempts, id).Some? {
      var i := FindSome(r.attempts, id);
      assert NumberedAt(r, i);
      assert r.attempts[i].status.Terminal() by {
        if i < |r.attempts| - 1 { assert r.attempts[i].status.Terminal(); }
      }
      var a := r.attempts[i];
      if WithObservation(a, status, d, now).Ok? {
        assert WithObservation(a, status, d, now).value.observedAt != a.observedAt;
      }
    }
  }

  lemma {:induction false} ObserveWritesIff(r: ProductRun, id: AttemptId, status: AttemptStatus, d: Details, expected: Option<nat>, now: nat)
    requires Numbered(r) && Frozen(r) && Fresh(r, now)
    ensures DecideObserve(r, id, status, d, expected, now).Write? <==> Observable(r, id, status, expected)
    ensures Observable(r, id, status, expected) ==>
              DecideObserve(r, id, status, d, expected, now) == Write(ObservedLatest(r, status, d, now))
  {
    if expected.Some? && expected.value != r.generation {
    } else if r.attempts != [] && id == r.attempts[|r.attempts| - 1].id && !r.attempts[|r.attempts| - 1].status.Terminal() {
      ObserveLast(r, status, d, expected, now);
    } else {
      ObserveOther(r, id, status, d, expected, now);
    }
  }

  // ----- Preservation -----

  lemma {:induction false} AppendKeeps(plan: ExecutionPlan, r: ProductRun, desired: DesiredState, stepId: string, now: nat)
    requires Numbered(r) && Frozen(r) && KnownSteps(plan, r) && StatusesMatch(r)
    requires NoActiveAttempt(r) && FindStep(plan.steps, stepId).Some?
    ensures Inv(plan, Appended(r, desired, stepId, now))
  {
    var u := Appended(r, desired, stepId, now);
    forall i: nat | i < |u.attempts| ensures NumberedAt(u, i) {
      if i < |r.attempts| { assert NumberedAt(r, i); }
    }
    forall s ensures StepMatches(u, s) {
      assert StepMatches(r, s);
      LastOfAppend(r.attempts, NewAttempt(r, stepId, now), s);
    }
  }

  lemma {:induction false} BlockedSurvives(r: ProductRun, status: AttemptStatus, d: Details, now: nat, s: string)
    requires r.attempts != [] && !r.attempts[|r.attempts| - 1].status.Terminal()
    requires BlockedStep(r, s)
    ensures BlockedStep(ObservedLatest(r, status, d, now), s)
  {
    var last := r.attempts[|r.attempts| - 1];
    LastOfUpdate(r.attempts, Observed(last, status, d, now), s);
  }

  lemma {:induction false} ObserveKeeps(plan: ExecutionPlan, r: ProductRun, status: AttemptStatus, d: Details, now: nat)
    requires Inv(plan, r) && r.attempts != [] && !r.attempts[|r.attempts| - 1].status.Terminal()
    requires r.Terminal() ==> ForcedStatus(status).None?
    ensures Inv(plan, ObservedLatest(r, status, d, now))
  {
    var u := ObservedLatest(r, status, d, now);
    var last := r.attempts[|r.attempts| - 1];
    var o := Observed(last, status, d, now);
    forall i: nat | i < |u.attempts| ensures NumberedAt(u, i) {
      assert NumberedAt(r, i);
    }
    forall s ensures StepMatches(u, s) {
      assert StepMatches(r, s);
      LastOfUpdate(r.attempts, o, s);
    }
    if r.observed.PlanBlocked? {
      var s :| BlockedStep(r, s);
      BlockedSurvives(r, status, d, now, s);
    }
  }

  lemma StatusKeeps(plan: ExecutionPlan, r: ProductRun, desired: DesiredState, observed: PlanStatus)
    requires Inv(plan, r)
    requires ObservedFits(plan, r.(desired := desired, observed := observed))
    ensures Inv(plan, r.(desired := desired, observed := observed))
  {
    var u := r.(desired := desired, observed := observed);
    forall i: nat | i < |u.attempts| ensures NumberedAt(u, i) {
      assert NumberedAt(r, i);
    }
    forall s ensures StepMatches(u, s) {
      assert StepMatches(r, s);
    }
  }

  lemma PersistKeeps(plan: ExecutionPlan, r: ProductRun, u: ProductRun, now: nat)
    requires Inv(plan, u)
    ensures Inv(plan, Persist(r, u, now))
  {
    var p := Persist(r, u, now);
    forall i: nat | i < |p.attempts| ensures NumberedAt(p, i) {
      assert NumberedAt(u, i);
    }
    forall s ensures StepMatches(p, s) {
      assert StepMatches(u, s);
    }
    if p.observed.PlanBlocked? {
      var s :| BlockedStep(u, s);
      assert BlockedStep(p, s);
    }
    if p.observed.PlanSucceeded? {
      forall i | 0 <= i < |plan.steps| ensures StepSucceededLast(p, plan.steps[i].stepId) {
        assert StepSucceededLast(u, plan.steps[i].stepId);
      }
    }
  }

  lemma SucceededFits(plan: ExecutionPlan, r: ProductRun)
    requires Inv(plan, r) && NextAction(plan, r).FinalizeSucceeded?
    ensures ObservedFits(plan, r.(observed := PlanSucceeded))
  {
    var u := r.(observed := PlanSucceeded);
    forall i | 0 <= i < |plan.steps| ensures StepSucceededLast(u, plan.steps[i].stepId) {
      assert StepMatches(r, plan.steps[i].stepId);
    }
  }

  lemma BlockedFits(plan: ExecutionPlan, r: ProductRun)
    requires Inv(plan, r) && NextAction(plan, r).FinalizeBlocked?
    ensures ObservedFits(plan, r.(observed := PlanBlocked))
  {
    var u := r.(observed := PlanBlocked);
    if AnyBlocked(r) {
      var s :| s in r.stepStatuses && r.stepStatuses[s].StepBlocked?;
      assert StepMatches(r, s);
      assert BlockedStep(u, s);
    } else {
      assert BlockedStep(u, r.Latest().value.stepId);
    }
  }

  lemma TerminalKeeps(plan: ExecutionPlan, r: ProductRun)
    requires Inv(plan, r) && DecideTerminal(plan, r).Write?
    ensures Inv(plan, DecideTerminal(plan, r).updated)
    ensures DecideTerminal(plan, r).updated == r.(observed := DecideTerminal(plan, r).updated.observed)
  {
    match NextAction(plan, r) {
      case FinalizeSucceeded => SucceededFits(plan, r); StatusKeeps(plan, r, r.desired, PlanSucceeded);
      case FinalizeFailed => StatusKeeps(plan, r, r.desired, PlanFailed);
      case FinalizeBlocked => BlockedFits(plan, r); StatusKeeps(plan, r, r.desired, PlanBlocked);
      case FinalizeCancelled => StatusKeeps(plan, r, r.desired, PlanCancelled);
      case _ =>
    }
  }

  lemma StartShape(plan: ExecutionPlan, r: ProductRun, now: nat) returns (stepId: string)
    requires Inv(plan, r) && DecideStart(plan, r, now).Write?
    ensures DecideStart(plan, r, now) == Write(Appended(r, r.desired, stepId, now))
    ensures NoActiveAttempt(r) && !r.Terminal() && r.desired.Active? && !AnyBlocked(r)
    ensures || (NextAction(plan, r) == CreateAttempt(stepId) &&
                NextRunnableStep(plan, r).Some? && NextRunnableStep(plan, r).value.stepId == stepId)
            || (r.Latest().Some? && NextAction(plan, r) == RetryAttempt(stepId, r.Latest().value.id) &&
                r.Latest().value.stepId == stepId)
  {
    var a := NextAction(plan, r);
    stepId := match a case CreateAttempt(s) => s case RetryAttempt(s, _) => s case _ => "";
    AppendShape(r, stepId, now);
  }

  lemma {:induction false} RunnableIsStep(ordered: seq<PlanStep>, r: ProductRun)
    requires FirstRunnable(ordered, r).Some?
    ensures var step := FirstRunnable(ordered, r).value;
            && step in ordered
            && r.StatusOf(step.stepId).StepPending?
            && DependenciesHold(step.dependencies, r)
  {
    if !(r.StatusOf(ordered[0].stepId).StepPending? && DependenciesHold(ordered[0].dependencies, r)) {
      RunnableIsStep(ordered[1..], r);
    }
  }

  /** The step chosen to run is declared, pending, and has its dependencies as required. */
  lemma RunnableCorrect(plan: ExecutionPlan, r: ProductRun)
    requires ValidPlan(plan) && NextRunnableStep(plan, r).Some?
    ensures var step := NextRunnableStep(plan, r).value;
            && step in plan.steps
            && FindStep(plan.steps, step.stepId) == Some(step)
            && r.StatusOf(step.stepId).StepPending?
            && DependenciesHold(step.dependencies, r)
  {
    var order := Ordered(plan.steps).value;
    RunnableIsStep(order, r);
    var step := NextRunnableStep(plan, r).value;
    OrderedStepsCorrect(plan.steps);
    assert step in multiset(order);
    assert step in plan.steps;
    var i :| 0 <= i < |plan.steps| && plan.steps[i] == step;
    FindStepUnique(plan.steps, i);
  }

  lemma StartKeeps(plan: ExecutionPlan, r: ProductRun, now: nat)
    requires ValidPlan(plan) && Inv(plan, r) && DecideStart(plan, r, now).Write?
    ensures Inv(plan, DecideStart(plan, r, now).updated)
  {
    var s := StartShape(plan, r, now);
    if NextAction(plan, r).CreateAttempt? {
      RunnableCorrect(plan, r);
    }
    AppendKeeps(plan, r, r.desired, s, now);
  }

  /** Every write of every operation keeps the invariant. */
  lemma DecideKeeps(plan: ExecutionPlan, r: ProductRun, op: Op, now: nat)
    requires ValidPlan(plan) && Inv(plan, r) && Fresh(r, now) && Decide(plan, r, op, now).Write?
    ensures Inv(plan, Decide(plan, r, op, now).updated)
  {
    match op {
      case StartNextAttempt => StartKeeps(plan, r, now);
      case ResumeAttempt(s) =>
        ResumeShape(plan, r, s, now);
        AppendKeeps(plan, r, Active, s, now);
      case ObserveAttempt(id, status, d, expected) =>
        ObserveWritesIff(r, id, status, d, expected, now);
        ObserveKeeps(plan, r, status, d, now);
      case RequestCancel => StatusKeeps(plan, r, WantCancelled, CancelRequested);
      case ApplyTerminalAction => TerminalKeeps(plan, r);
    }
  }

  lemma ApplyKeeps(plan: ExecutionPlan, r: ProductRun, e: Event)
    requires ValidPlan(plan) && Inv(plan, r) && Fresh(r, e.at)
    ensures Inv(plan, Apply(plan, r, e))
  {
    if Decide(plan, r, e.op, e.at).Write? {
      DecideKeeps(plan, r, e.op, e.at);
      PersistKeeps(plan, r, Decide(plan, r, e.op, e.at).updated, e.savedAt);
    }
  }

  /** The stamps of a run of operations keep increasing past what the record holds. */
  predicate FreshTrace(plan: ExecutionPlan, first: ProductRun, events: seq<Event>) {
    events == [] ||
    (var before := events[..|events| - 1];
     FreshTrace(plan, first, before) && Fresh(Replay(plan, first, before), events[|events| - 1].at))
  }

  predicate JustCreated(r: ProductRun) {
    r.attempts == [] && r.stepStatuses == map[] && r.observed.PlanPending? && r.desired.Active? && r.generation == 0
  }

  lemma CreatedInv(plan: ExecutionPlan, r: ProductRun)
    requires JustCreated(r)
    ensures Inv(plan, r)
  {
  }

  /** The reachable-run invariant, for every sequence of operations, resumes included. */
  lemma {:induction false} ReachableInv(plan: ExecutionPlan, first: ProductRun, events: seq<Event>)
    requires ValidPlan(plan) && JustCreated(first) && FreshTrace(plan, first, events)
    ensures Inv(plan, Replay(plan, first, events))
  {
    if events == [] {
      CreatedInv(plan, first);
    } else {
      var before := events[..|events| - 1];
      ReachableInv(plan, first, before);
      ApplyKeeps(plan, Replay(plan, first, before), events[|events| - 1]);
    }
  }
}
