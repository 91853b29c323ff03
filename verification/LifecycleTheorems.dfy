/**
 * What holds over whole runs of the lifecycle: frozen history, earned and final
 * success, retry bounds and dependency order.
 */
module LifecycleTheorems {
  import opened Prelude
  import opened Plans
  import opened Lifecycle
  import opened LifecycleInvariant

  // ----- History -----

  /** u keeps every terminal attempt of r in place, and every identity. */
  predicate Extends(r: ProductRun, u: ProductRun) {
    && |r.attempts| <= |u.attempts|
    && forall i | 0 <= i < |r.attempts| ::
         && u.attempts[i].id == r.attempts[i].id
         && (r.attempts[i].status.Terminal() ==> u.attempts[i] == r.attempts[i])
  }

  /** The attempts after a write: unchanged, one appended, or the active last one observed. */
  lemma WriteExtends(plan: ExecutionPlan, r: ProductRun, op: Op, now: nat)
    requires ValidPlan(plan) && Inv(plan, r) && Fresh(r, now) && Decide(plan, r, op, now).Write?
    ensures Extends(r, Decide(plan, r, op, now).updated)
  {
    match op {
      case StartNextAttempt => var s := StartShape(plan, r, now);
      case ResumeAttempt(s) => ResumeShape(plan, r, s, now);
      case ObserveAttempt(id, status, d, expected) => ObserveWritesIff(r, id, status, d, expected, now);
      case RequestCancel =>
      case ApplyTerminalAction => TerminalKeeps(plan, r);
    }
  }

  lemma {:induction false} LookupAt(attempts: seq<Attempt>, id: AttemptId, i: nat)
    requires i < |attempts| && attempts[i].id == id
    requires forall j | i < j < |attempts| :: attempts[j].id != id
    ensures Lookup(attempts, id) == Some(attempts[i])
  {
    if i < |attempts| - 1 { LookupAt(attempts[..|attempts| - 1], id, i); }
  }

  lemma {:induction false} LookupNumbered(r: ProductRun, i: nat)
    requires Numbered(r) && i < |r.attempts|
    ensures Lookup(r.attempts, r.attempts[i].id) == Some(r.attempts[i])
  {
    assert NumberedAt(r, i);
    forall j | i < j < |r.attempts| ensures r.attempts[j].id != r.attempts[i].id {
      assert NumberedAt(r, j);
    }
    LookupAt(r.attempts, r.attempts[i].id, i);
  }

  lemma WriteKeepsIdentity(plan: ExecutionPlan, r: ProductRun, op: Op, now: nat)
    requires Decide(plan, r, op, now).Write?
    ensures var u := Decide(plan, r, op, now).updated;
            u.idempotencyKey == r.idempotencyKey && u.planId == r.planId && u.productKind == r.productKind
  {
  }

  lemma {:induction false} ExtendedIsKept(r: ProductRun, u: ProductRun)
    requires Numbered(r) && Numbered(u) && Extends(r, u)
    ensures forall i | 0 <= i < |r.attempts| :: AttemptKept(r.attempts, u.attempts, r.attempts[i].id)
  {
    forall i | 0 <= i < |r.attempts| ensures AttemptKept(r.attempts, u.attempts, r.attempts[i].id) {
      LookupNumbered(r, i);
      LookupNumbered(u, i);
    }
  }

  /** The store's history check accepts every record the control plane hands it. */
  lemma {:induction false} HistoryNeverRejected(plan: ExecutionPlan, r: ProductRun, op: Op, now: nat)
    requires ValidPlan(plan) && Inv(plan, r) && Fresh(r, now) && Decide(plan, r, op, now).Write?
    ensures HistoryImmutable(r, Decide(plan, r, op, now).updated)
  {
    hide Decide;
    var u := Decide(plan, r, op, now).updated;
    WriteKeepsIdentity(plan, r, op, now);
    WriteExtends(plan, r, op, now);
    DecideKeeps(plan, r, op, now);
    ExtendedIsKept(r, u);
  }

  lemma {:induction false} ReplayExtends(plan: ExecutionPlan, first: ProductRun, events: seq<Event>, k: nat)
    requires ValidPlan(plan) && JustCreated(first) && FreshTrace(plan, first, events) && k <= |events|
    ensures FreshTrace(plan, first, events[..k])
    ensures Extends(Replay(plan, first, events[..k]), Replay(plan, first, events))
  {
    if k == |events| {
      assert events[..k] == events;
    } else {
      var before := events[..|events| - 1];
      ReplayExtends(plan, first, before, k);
      assert before[..k] == events[..k];
      ReachableInv(plan, first, before);
      var r, e := Replay(plan, first, before), events[|events| - 1];
      if Decide(plan, r, e.op, e.at).Write? {
        WriteExtends(plan, r, e.op, e.at);
      }
    }
  }

  /** Once terminal, an attempt stays the same record through every later operation. */
  lemma TerminalAttemptForever(plan: ExecutionPlan, first: ProductRun, events: seq<Event>, k: nat, i: nat)
    requires ValidPlan(plan) && JustCreated(first) && FreshTrace(plan, first, events) && k <= |events|
    requires i < |Replay(plan, first, events[..k]).attempts|
    requires Replay(plan, first, events[..k]).attempts[i].status.Terminal()
    ensures i < |Replay(plan, first, events).attempts|
    ensures Replay(plan, first, events).attempts[i] == Replay(plan, first, events[..k]).attempts[i]
  {
    ReplayExtends(plan, first, events, k);
  }

  // ----- Success, and what can still change a terminal run -----

  /** A run reports success only when every step's last attempt succeeded and nothing is active. */
  lemma SuccessIsEarned(plan: ExecutionPlan, first: ProductRun, events: seq<Event>)
    requires ValidPlan(plan) && JustCreated(first) && FreshTrace(plan, first, events)
    requires Replay(plan, first, events).observed.PlanSucceeded?
    ensures NoActiveAttempt(Replay(plan, first, events))
    ensures forall i | 0 <= i < |plan.steps| :: StepSucceededLast(Replay(plan, first, events), plan.steps[i].stepId)
  {
    ReachableInv(plan, first, events);
  }

  /** A run becomes CANCELLED only with no active attempt and confirmed cleanup of a cancelled last one. */
  lemma CancelledIsStopped(plan: ExecutionPlan, first: ProductRun, events: seq<Event>)
    requires ValidPlan(plan) && JustCreated(first) && FreshTrace(plan, first, events)
    requires Replay(plan, first, events).observed.PlanCancelled?
    ensures var r := Replay(plan, first, events);
            && r.desired.WantCancelled?
            && (r.Latest().Some? ==>
                  && r.Latest().value.status.Terminal()
                  && (r.Latest().value.status.Cancelled? ==> r.Latest().value.cleanupConfirmed))
  {
    ReachableInv(plan, first, events);
  }

  /** The two ways a terminal run is still written: an explicit resume, or an attempt
      left active behind a blocked step. */
  predicate WritesTerminal(plan: ExecutionPlan, r: ProductRun, op: Op) {
    match op
    case ResumeAttempt(s) => (r.observed.PlanFailed? || r.observed.PlanCancelled?) && FindStep(plan.steps, s).Some?
    case ObserveAttempt(id, status, _, expected) => r.observed.PlanBlocked? && Observable(r, id, status, expected)
    case _ => false
  }

  /** Exactly when an operation still writes a terminal run. */
  lemma TerminalRunWritesIff(plan: ExecutionPlan, r: ProductRun, op: Op, now: nat)
    requires ValidPlan(plan) && Inv(plan, r) && Fresh(r, now) && r.Terminal()
    ensures Decide(plan, r, op, now).Write? <==> WritesTerminal(plan, r, op)
  {
    match op {
      case ResumeAttempt(s) =>
        if WritesTerminal(plan, r, op) {
          var rewound := r.(desired := Active, observed := PlanRunning);
          forall i: nat | i < |rewound.attempts| ensures NumberedAt(rewound, i) {
            assert NumberedAt(r, i);
          }
          AppendShape(rewound, s, now);
        }
      case ObserveAttempt(id, status, d, expected) => ObserveWritesIff(r, id, status, d, expected, now);
      case _ =>
    }
  }

  lemma {:induction false} FinalStays(plan: ExecutionPlan, r: ProductRun, e: Event)
    requires ValidPlan(plan) && Inv(plan, r) && Fresh(r, e.at) && r.observed.PlanSucceeded?
    ensures Apply(plan, r, e) == r
  {
    TerminalRunWritesIff(plan, r, e.op, e.at);
  }

  /** Success is final: no later operation changes the record. */
  lemma {:induction false} SuccessIsFinal(plan: ExecutionPlan, first: ProductRun, events: seq<Event>, k: nat)
    requires ValidPlan(plan) && JustCreated(first) && FreshTrace(plan, first, events) && k <= |events|
    requires Replay(plan, first, events[..k]).observed.PlanSucceeded?
    ensures Replay(plan, first, events) == Replay(plan, first, events[..k])
  {
    if k == |events| {
      assert events[..k] == events;
    } else {
      var before := events[..|events| - 1];
      assert before[..k] == events[..k];
      SuccessIsFinal(plan, first, before, k);
      ReachableInv(plan, first, before);
      FinalStays(plan, Replay(plan, first, before), events[|events| - 1]);
    }
  }

  // ----- A terminal run with an active attempt -----

  const StepA := PlanStep("a", [], RetryPolicy(1, true, true))
  const StepB := PlanStep("b", [], RetryPolicy(1, true, true))
  const TwoSteps := ExecutionPlan("p", [StepA, StepB])

  /**
   * Exactly when a run is finalised over an active attempt: some other step's last
   * attempt is blocked. Only a resume past a blocked step gets there.
   */
  lemma FinalizesOverActiveIff(plan: ExecutionPlan, r: ProductRun)
    requires Inv(plan, r) && !r.Terminal() && r.Latest().Some? && IsActive(r.Latest().value.status)
    ensures DecideTerminal(plan, r).Write? <==> r.desired.Active? && exists s :: BlockedStep(r, s)
    ensures DecideTerminal(plan, r).Write? ==> DecideTerminal(plan, r) == Write(r.(observed := PlanBlocked))
  {
    if AnyBlocked(r) {
      var s :| s in r.stepStatuses && r.stepStatuses[s].StepBlocked?;
      assert StepMatches(r, s);
      assert BlockedStep(r, s);
    }
    if s :| BlockedStep(r, s) {
      assert StepMatches(r, s);
      assert r.stepStatuses[s].StepBlocked?;
    }
  }

  /** Step a is blocked, the run is cancelled, then step b is resumed: the run is
      finalised as blocked while b's attempt is still pending, and the success of b
      is then written into the terminal record. */
  lemma {:induction false} BlockedRunCanHoldActiveAttempt(first: ProductRun) returns (events: seq<Event>, late: Event)
    requires JustCreated(first)
    ensures ValidPlan(TwoSteps) && FreshTrace(TwoSteps, first, events)
    ensures var r := Replay(TwoSteps, first, events);
            && r.observed.PlanBlocked? && !NoActiveAttempt(r)
            && Fresh(r, late.at) && Apply(TwoSteps, r, late) != r
  {
    TwoStepsValid();
    var r: ProductRun;
    events, r := SceneBlocked(first);
    events, r := SceneCancelled(first, events, r);
    events, r := SceneResumed(first, events, r);
    events, r := SceneFinalised(first, events, r);
    late := LateSuccess(r);
  }

  predicate At(first: ProductRun, events: seq<Event>, r: ProductRun) {
    FreshTrace(TwoSteps, first, events) && Replay(TwoSteps, first, events) == r && Numbered(r)
  }

  lemma Extend(first: ProductRun, events: seq<Event>, r: ProductRun, e: Event) returns (more: seq<Event>)
    requires At(first, events, r) && Fresh(r, e.at) && Numbered(Apply(TwoSteps, r, e))
    ensures At(first, more, Apply(TwoSteps, r, e))
  {
    more := events + [e];
    ReplaySnoc(TwoSteps, first, events, e);
  }

  /** What each operation of the scene makes of the record. */
  lemma {:induction false} FirstStarts(r: ProductRun, now: nat)
    requires JustCreated(r)
    ensures Apply(TwoSteps, r, Event(StartNextAttempt, now, now)) == Persist(r, Appended(r, Active, "a", now), now)
  {
    TwoStepsOrder();
    assert NextRunnableStep(TwoSteps, r) == Some(StepA);
    AppendShape(r, "a", now);
  }

  lemma {:induction false} LastBlocks(r: ProductRun, now: nat)
    requires Numbered(r) && r.attempts != [] && !r.attempts[|r.attempts| - 1].status.Terminal() && !r.Terminal()
    ensures Apply(TwoSteps, r, Event(ObserveAttempt(r.attempts[|r.attempts| - 1].id, Blocked, NoDetails, None), now, now))
            == Persist(r, ObservedLatest(r, Blocked, NoDetails, now), now)
  {
    hide NextAction;
    ObserveLast(r, Blocked, NoDetails, None, now);
  }

  lemma CancelMarks(r: ProductRun, now: nat)
    requires !r.Terminal()
    ensures Apply(TwoSteps, r, Event(RequestCancel, now, now))
            == Persist(r, r.(desired := WantCancelled, observed := CancelRequested), now)
  {
    hide NextAction;
  }

  lemma CancelEnds(r: ProductRun, now: nat)
    requires !r.Terminal() && r.desired.WantCancelled?
    requires r.attempts != [] && r.attempts[|r.attempts| - 1].status.Blocked?
    ensures Apply(TwoSteps, r, Event(ApplyTerminalAction, now, now)) == Persist(r, r.(observed := PlanCancelled), now)
  {
    hide NextRunnableStep;
  }

  lemma {:induction false} ResumesB(r: ProductRun, now: nat)
    requires Numbered(r) && Resumable(r.observed)
    ensures Apply(TwoSteps, r, Event(ResumeAttempt("b"), now, now)) == Persist(r, Appended(r, Active, "b", now), now)
  {
    hide NextAction;
    assert TwoSteps.steps[1..] == [StepB];
    assert FindStep([StepB], "b") == Some(StepB);
    var rewound := r.(desired := Active, observed := PlanRunning);
    forall i: nat | i < |rewound.attempts| ensures NumberedAt(rewound, i) { assert NumberedAt(r, i); }
    AppendShape(rewound, "b", now);
  }

  lemma BlockedFinalises(r: ProductRun, now: nat)
    requires !r.Terminal() && r.desired.Active? && AnyBlocked(r)
    ensures Apply(TwoSteps, r, Event(ApplyTerminalAction, now, now)) == Persist(r, r.(observed := PlanBlocked), now)
  {
    hide NextRunnableStep, AfterFailure;
  }

  lemma SceneBlocked(first: ProductRun) returns (events: seq<Event>, r: ProductRun)
    requires JustCreated(first)
    ensures At(first, events, r) && |r.attempts| == 1 && r.attempts[0].status.Blocked? && Fresh(r, 3)
    ensures r.stepStatuses == map["a" := StepBlocked] && !r.Terminal()
  {
    hide Apply;
    FirstStarts(first, 1);
    var r1 := Persist(first, Appended(first, Active, "a", 1), 1);
    assert NumberedAt(r1, 0);
    events := Extend(first, [], first, Event(StartNextAttempt, 1, 1));
    LastBlocks(r1, 2);
    r := Persist(r1, ObservedLatest(r1, Blocked, NoDetails, 2), 2);
    assert NumberedAt(r, 0);
    events := Extend(first, events, r1, Event(ObserveAttempt(r1.attempts[0].id, Blocked, NoDetails, None), 2, 2));
  }

  lemma SceneCancelled(first: ProductRun, before: seq<Event>, r0: ProductRun) returns (events: seq<Event>, r: ProductRun)
    requires At(first, before, r0) && |r0.attempts| == 1 && r0.attempts[0].status.Blocked? && Fresh(r0, 3)
    requires !r0.Terminal()
    ensures At(first, events, r) && r.attempts == r0.attempts && r.stepStatuses == r0.stepStatuses
    ensures r.observed.PlanCancelled?
  {
    hide Apply;
    CancelMarks(r0, 3);
    var r3 := Persist(r0, r0.(desired := WantCancelled, observed := CancelRequested), 3);
    assert NumberedAt(r0, 0) && NumberedAt(r3, 0);
    events := Extend(first, before, r0, Event(RequestCancel, 3, 3));
    CancelEnds(r3, 4);
    r := Persist(r3, r3.(observed := PlanCancelled), 4);
    assert NumberedAt(r, 0);
    events := Extend(first, events, r3, Event(ApplyTerminalAction, 4, 4));
  }

  lemma SceneResumed(first: ProductRun, before: seq<Event>, r0: ProductRun) returns (events: seq<Event>, r: ProductRun)
    requires At(first, before, r0) && |r0.attempts| == 1 && Fresh(r0, 3)
    requires r0.observed.PlanCancelled? && r0.stepStatuses == map["a" := StepBlocked]
    ensures At(first, events, r) && |r.attempts| == 2 && r.attempts[1].status.Pending? && Fresh(r, 6)
    ensures r.observed.PlanRunning? && r.desired.Active? && r.stepStatuses == map["a" := StepBlocked, "b" := StepRunning]
  {
    hide Apply;
    ResumesB(r0, 5);
    r := Persist(r0, Appended(r0, Active, "b", 5), 5);
    assert NumberedAt(r0, 0) && NumberedAt(r, 0) && NumberedAt(r, 1);
    events := Extend(first, before, r0, Event(ResumeAttempt("b"), 5, 5));
  }

  lemma SceneFinalised(first: ProductRun, before: seq<Event>, r0: ProductRun) returns (events: seq<Event>, r: ProductRun)
    requires At(first, before, r0) && |r0.attempts| == 2 && r0.attempts[1].status.Pending? && Fresh(r0, 6)
    requires r0.observed.PlanRunning? && r0.desired.Active?
    requires r0.stepStatuses == map["a" := StepBlocked, "b" := StepRunning]
    ensures At(first, events, r) && r.attempts == r0.attempts && r.observed.PlanBlocked?
  {
    hide Apply;
    assert r0.stepStatuses["a"].StepBlocked?;
    BlockedFinalises(r0, 6);
    r := Persist(r0, r0.(observed := PlanBlocked), 6);
    assert NumberedAt(r0, 0) && NumberedAt(r0, 1) && NumberedAt(r, 0) && NumberedAt(r, 1);
    events := Extend(first, before, r0, Event(ApplyTerminalAction, 6, 6));
  }

  lemma LateSuccess(r: ProductRun) returns (late: Event)
    requires Numbered(r) && |r.attempts| == 2 && r.attempts[1].status.Pending?
    ensures Fresh(r, late.at) && Apply(TwoSteps, r, late) != r
  {
    var now := r.attempts[0].observedAt + r.attempts[1].observedAt + 1;
    late := Event(ObserveAttempt(r.attempts[1].id, Succeeded, NoDetails, None), now, now);
    ObserveLast(r, Succeeded, NoDetails, None, now);
    assert Apply(TwoSteps, r, late).generation == r.generation + 1;
  }

  lemma ReplaySnoc(plan: ExecutionPlan, first: ProductRun, events: seq<Event>, e: Event)
    ensures Replay(plan, first, events + [e]) == Apply(plan, Replay(plan, first, events), e)
    ensures FreshTrace(plan, first, events + [e]) <==>
            FreshTrace(plan, first, events) && Fresh(Replay(plan, first, events), e.at)
  {
    assert (events + [e])[..|events|] == events;
  }

  lemma TwoStepsOrder()
    ensures Ids(TwoSteps.steps) == {"a", "b"}
    ensures Ordered(TwoSteps.steps) == Some([StepA, StepB])
  {
    var steps := TwoSteps.steps;
    assert steps[1..] == [StepB];
    assert Ids(steps) == {"a"} + Ids([StepB]);
    assert Ids([StepB]) == {"b"};
    assert ReadySteps([StepB], {"a", "b"}, {}) == [StepB];
    assert ReadySteps(steps, {"a", "b"}, {}) == [StepA] + [StepB];
    assert [StepA] + [StepB] == steps;
    assert {"a", "b"} - Ids(steps) == {};
    assert OrderFrom(steps, {}, {} + Ids(steps)) == Some([]);
    assert OrderFrom(steps, {"a", "b"}, {}) ==
           Continue(steps, OrderFrom(steps, {"a", "b"} - Ids(steps), {} + Ids(steps)));
    assert steps + [] == steps;
  }

  lemma TwoStepsValid()
    ensures ValidPlan(TwoSteps)
  {
    TwoStepsOrder();
    var steps := TwoSteps.steps;
    assert steps[1..] == [StepB];
    assert UniqueIds([StepB]);
  }

  // ----- Runs without resume -----

  predicate NoResume(events: seq<Event>) {
    forall i | 0 <= i < |events| :: !events[i].op.ResumeAttempt?
  }

  /** A step other than the latest attempt's step was left only after success or cancellation. */
  predicate LeftBehind(r: ProductRun, stepId: string) {
    match LastOf(r.attempts, stepId)
    case None => true
    case Some(a) => a.number < |r.attempts| ==> a.status.Succeeded? || a.status.Cancelled?
  }

  ghost predicate Orderly(r: ProductRun) {
    forall s :: LeftBehind(r, s)
  }

  /** The i-th attempt comes after a succeeded attempt of every dependency of its step. */
  ghost predicate DependenciesDone(plan: ExecutionPlan, attempts: seq<Attempt>, i: nat)
    requires i < |attempts|
  {
    FindStep(plan.steps, attempts[i].stepId).Some? ==>
      var deps := FindStep(plan.steps, attempts[i].stepId).value.dependencies;
      forall k | 0 <= k < |deps| :: DoneBefore(attempts, i, deps[k].stepId)
  }

  ghost predicate DoneBefore(attempts: seq<Attempt>, i: nat, stepId: string)
    requires i <= |attempts|
  {
    exists j :: 0 <= j < i && attempts[j].stepId == stepId && attempts[j].status.Succeeded?
  }

  ghost predicate ResumeFreeInv(plan: ExecutionPlan, r: ProductRun) {
    && Orderly(r)
    && forall i: nat | i < |r.attempts| :: DependenciesDone(plan, r.attempts, i)
  }

  lemma {:induction false} DoneMonotone(a: seq<Attempt>, b: seq<Attempt>, i: nat, i': nat, stepId: string)
    requires i <= |a| && i <= i' <= |b| && i <= |b|
    requires forall j | 0 <= j < i :: a[j].status.Terminal() ==> b[j] == a[j]
    requires DoneBefore(a, i, stepId)
    ensures DoneBefore(b, i', stepId)
  {
    var j :| 0 <= j < i && a[j].stepId == stepId && a[j].status.Succeeded?;
    assert b[j] == a[j];
  }

  lemma {:induction false} DependenciesCarry(plan: ExecutionPlan, a: seq<Attempt>, b: seq<Attempt>, i: nat, i': nat)
    requires i < |a| && i <= i' < |b|
    requires forall j | 0 <= j < i :: a[j].status.Terminal() ==> b[j] == a[j]
    requires b[i'].stepId == a[i].stepId
    requires DependenciesDone(plan, a, i)
    ensures DependenciesDone(plan, b, i')
  {
    if FindStep(plan.steps, a[i].stepId).Some? {
      var deps := FindStep(plan.steps, a[i].stepId).value.dependencies;
      forall k | 0 <= k < |deps| ensures DoneBefore(b, i', deps[k].stepId) {
        DoneMonotone(a, b, i, i', deps[k].stepId);
      }
    }
  }

  /** A dependency whose step status is SUCCEEDED has a succeeded attempt. */
  lemma SucceededWasAttempted(r: ProductRun, stepId: string)
    requires StatusesMatch(r) && r.StatusOf(stepId).StepSucceeded?
    ensures DoneBefore(r.attempts, |r.attempts|, stepId)
  {
    assert StepMatches(r, stepId);
    var j := LastOfIndex(r.attempts, stepId);
  }

  lemma {:induction false} CreateDependencies(plan: ExecutionPlan, r: ProductRun, step: PlanStep, now: nat)
    requires ValidPlan(plan) && RequiresSuccess(plan) && Inv(plan, r)
    requires step in plan.steps && FindStep(plan.steps, step.stepId) == Some(step) && DependenciesHold(step.dependencies, r)
    ensures DependenciesDone(plan, r.attempts + [NewAttempt(r, step.stepId, now)], |r.attempts|)
  {
    var n := |r.attempts|;
    var b := r.attempts + [NewAttempt(r, step.stepId, now)];
    var i :| 0 <= i < |plan.steps| && plan.steps[i] == step;
    assert AllRequireSuccess(plan.steps[i].dependencies);
    forall k | 0 <= k < |step.dependencies| ensures DoneBefore(b, n, step.dependencies[k].stepId) {
      assert r.StatusOf(step.dependencies[k].stepId) == step.dependencies[k].required;
      SucceededWasAttempted(r, step.dependencies[k].stepId);
      DoneMonotone(r.attempts, b, n, n, step.dependencies[k].stepId);
    }
  }

  lemma {:induction false} OrderlyAppend(r: ProductRun, u: ProductRun, a: Attempt)
    requires Numbered(r) && Orderly(r)
    requires u.attempts == r.attempts + [a]
    requires r.Latest().Some? ==>
               r.Latest().value.stepId == a.stepId || r.Latest().value.status.Succeeded? || r.Latest().value.status.Cancelled?
    requires a.number == |u.attempts|
    ensures Orderly(u)
  {
    forall s ensures LeftBehind(u, s) {
      assert LeftBehind(r, s);
      LastOfAppend(r.attempts, a, s);
      if s != a.stepId && LastOf(r.attempts, s).Some? {
        var i := LastOfIndex(r.attempts, s);
        assert NumberedAt(r, i);
      }
    }
  }

  lemma {:induction false} OrderlyObserve(r: ProductRun, status: AttemptStatus, d: Details, now: nat)
    requires Numbered(r) && Orderly(r) && r.attempts != []
    ensures Orderly(ObservedLatest(r, status, d, now))
  {
    var u := ObservedLatest(r, status, d, now);
    var n := |r.attempts| - 1;
    assert NumberedAt(r, n);
    forall s ensures LeftBehind(u, s) {
      assert LeftBehind(r, s);
      LastOfUpdate(r.attempts, Observed(r.attempts[n], status, d, now), s);
    }
  }

  lemma {:induction false} StartOrderly(plan: ExecutionPlan, r: ProductRun, now: nat)
    requires ValidPlan(plan) && RequiresSuccess(plan) && Inv(plan, r) && ResumeFreeInv(plan, r)
    requires DecideStart(plan, r, now).Write?
    ensures ResumeFreeInv(plan, DecideStart(plan, r, now).updated)
  {
    var s := StartShape(plan, r, now);
    var u := DecideStart(plan, r, now).updated;
    var a := NewAttempt(r, s, now);
    OrderlyAppend(r, u, a);
    var n := |r.attempts|;
    forall i: nat | i < |u.attempts| ensures DependenciesDone(plan, u.attempts, i) {
      if i < n {
        assert DependenciesDone(plan, r.attempts, i);
        DependenciesCarry(plan, r.attempts, u.attempts, i, i);
      } else if NextAction(plan, r).CreateAttempt? {
        RunnableCorrect(plan, r);
        CreateDependencies(plan, r, NextRunnableStep(plan, r).value, now);
      } else {
        assert DependenciesDone(plan, r.attempts, n - 1);
        DependenciesCarry(plan, r.attempts, u.attempts, n - 1, n);
      }
    }
  }

  lemma {:induction false} ObserveOrderly(plan: ExecutionPlan, r: ProductRun, status: AttemptStatus, d: Details, now: nat)
    requires Inv(plan, r) && ResumeFreeInv(plan, r) && r.attempts != []
    requires !r.attempts[|r.attempts| - 1].status.Terminal()
    ensures ResumeFreeInv(plan, ObservedLatest(r, status, d, now))
  {
    var u := ObservedLatest(r, status, d, now);
    OrderlyObserve(r, status, d, now);
    forall i: nat | i < |u.attempts| ensures DependenciesDone(plan, u.attempts, i) {
      assert DependenciesDone(plan, r.attempts, i);
      DependenciesCarry(plan, r.attempts, u.attempts, i, i);
    }
  }

  lemma OrderlySame(plan: ExecutionPlan, r: ProductRun, u: ProductRun)
    requires ResumeFreeInv(plan, r) && u.attempts == r.attempts
    ensures ResumeFreeInv(plan, u)
  {
    forall s ensures LeftBehind(u, s) {
      assert LeftBehind(r, s);
    }
  }

  lemma {:induction false} ApplyOrderly(plan: ExecutionPlan, r: ProductRun, e: Event)
    requires ValidPlan(plan) && RequiresSuccess(plan) && Inv(plan, r) && ResumeFreeInv(plan, r)
    requires Fresh(r, e.at) && !e.op.ResumeAttempt?
    ensures ResumeFreeInv(plan, Apply(plan, r, e))
  {
    if Decide(plan, r, e.op, e.at).Write? {
      var u := Decide(plan, r, e.op, e.at).updated;
      match e.op {
        case StartNextAttempt => StartOrderly(plan, r, e.at);
        case ObserveAttempt(id, status, d, expected) =>
          ObserveWritesIff(r, id, status, d, expected, e.at);
          ObserveOrderly(plan, r, status, d, e.at);
        case RequestCancel => OrderlySame(plan, r, u);
        case ApplyTerminalAction => TerminalKeeps(plan, r); OrderlySame(plan, r, u);
      }
      OrderlySame(plan, u, Persist(r, u, e.savedAt));
    }
  }

  /** In runs without resume, an attempt of a step comes after the success of each dependency. */
  lemma {:induction false} DependencyOrder(plan: ExecutionPlan, first: ProductRun, events: seq<Event>)
    requires ValidPlan(plan) && RequiresSuccess(plan) && JustCreated(first)
    requires FreshTrace(plan, first, events) && NoResume(events)
    ensures ResumeFreeInv(plan, Replay(plan, first, events))
  {
    if events != [] {
      var before := events[..|events| - 1];
      DependencyOrder(plan, first, before);
      ReachableInv(plan, first, before);
      ApplyOrderly(plan, Replay(plan, first, before), events[|events| - 1]);
    } else {
      forall s ensures LeftBehind(first, s) { }
    }
  }

  /** Without resume no terminal run is left with an active attempt. */
  lemma TerminalMeansIdle(plan: ExecutionPlan, r: ProductRun)
    requires Inv(plan, r) && Orderly(r) && r.Terminal()
    ensures NoActiveAttempt(r)
  {
    if r.observed.PlanBlocked? {
      var s :| BlockedStep(r, s);
      assert LeftBehind(r, s);
      var i := LastOfIndex(r.attempts, s);
      assert NumberedAt(r, i);
    }
  }

  /** In runs without resume, a terminal run never holds an active attempt. */
  lemma {:induction false} ResumeFreeTerminalIsIdle(plan: ExecutionPlan, first: ProductRun, events: seq<Event>)
    requires ValidPlan(plan) && RequiresSuccess(plan) && JustCreated(first)
    requires FreshTrace(plan, first, events) && NoResume(events) && Replay(plan, first, events).Terminal()
    ensures NoActiveAttempt(Replay(plan, first, events))
  {
    ReachableInv(plan, first, events);
    DependencyOrder(plan, first, events);
    TerminalMeansIdle(plan, Replay(plan, first, events));
  }

  // ----- Retry bound and termination -----

  /** The manual resumes of a step that went through. */
  function Resumes(plan: ExecutionPlan, first: ProductRun, events: seq<Event>, stepId: string): nat {
    if events == [] then 0
    else
      var before, e := events[..|events| - 1], events[|events| - 1];
      Resumes(plan, first, before, stepId)
      + if e.op == ResumeAttempt(stepId) && Decide(plan, Replay(plan, first, before), e.op, e.at).Write? then 1 else 0
  }

  lemma {:induction false} CountNone(attempts: seq<Attempt>, stepId: string)
    requires LastOf(attempts, stepId).None?
    ensures AttemptsForStep(attempts, stepId) == 0
  {
    if attempts != [] { CountNone(attempts[..|attempts| - 1], stepId); }
  }

  lemma CountAppend(attempts: seq<Attempt>, a: Attempt, stepId: string)
    ensures AttemptsForStep(attempts + [a], stepId) ==
            AttemptsForStep(attempts, stepId) + if a.stepId == stepId then 1 else 0
  {
    assert (attempts + [a])[..|attempts|] == attempts;
  }

  lemma CountUpdate(attempts: seq<Attempt>, a: Attempt, stepId: string)
    requires attempts != [] && a.stepId == attempts[|attempts| - 1].stepId
    ensures AttemptsForStep(attempts[|attempts| - 1 := a], stepId) == AttemptsForStep(attempts, stepId)
  {
    var n := |attempts| - 1;
    assert attempts[n := a][..n] == attempts[..n];
  }

  /** A step the reconciler starts has attempts left in its policy. */
  lemma StartHasCapacity(plan: ExecutionPlan, r: ProductRun, now: nat) returns (step: PlanStep)
    requires ValidPlan(plan) && Inv(plan, r) && DecideStart(plan, r, now).Write?
    ensures FindStep(plan.steps, step.stepId) == Some(step)
    ensures DecideStart(plan, r, now) == Write(Appended(r, r.desired, step.stepId, now))
    ensures AttemptsForStep(r.attempts, step.stepId) < step.retryPolicy.maxAttempts
  {
    var s := StartShape(plan, r, now);
    if NextAction(plan, r).CreateAttempt? {
      RunnableCorrect(plan, r);
      step := NextRunnableStep(plan, r).value;
      assert StepMatches(r, s);
      if LastOf(r.attempts, s).Some? {
        var i := LastOfIndex(r.attempts, s);
        assert r.attempts[i].status.Terminal() by {
          if i < |r.attempts| - 1 { assert r.attempts[i].status.Terminal(); }
        }
      }
      CountNone(r.attempts, s);
      var i :| 0 <= i < |plan.steps| && plan.steps[i] == step;
      assert plan.steps[i].retryPolicy.maxAttempts >= 1;
    } else {
      FindStepCorrect(plan.steps, s);
      step := FindStep(plan.steps, s).value;
    }
  }

  predicate WithinBound(r: ProductRun, step: PlanStep, extra: nat) {
    AttemptsForStep(r.attempts, step.stepId) <= step.retryPolicy.maxAttempts + extra
  }

  lemma StartWithinBound(plan: ExecutionPlan, r: ProductRun, now: nat, step: PlanStep, extra: nat)
    requires ValidPlan(plan) && Inv(plan, r) && DecideStart(plan, r, now).Write?
    requires FindStep(plan.steps, step.stepId) == Some(step) && WithinBound(r, step, extra)
    ensures WithinBound(DecideStart(plan, r, now).updated, step, extra)
  {
    var started := StartHasCapacity(plan, r, now);
    CountAppend(r.attempts, NewAttempt(r, started.stepId, now), step.stepId);
  }

  lemma ApplyWithinBound(plan: ExecutionPlan, r: ProductRun, e: Event, step: PlanStep, extra: nat)
    requires ValidPlan(plan) && Inv(plan, r) && Fresh(r, e.at)
    requires FindStep(plan.steps, step.stepId) == Some(step) && WithinBound(r, step, extra)
    ensures WithinBound(Apply(plan, r, e), step,
              extra + if e.op == ResumeAttempt(step.stepId) && Decide(plan, r, e.op, e.at).Write? then 1 else 0)
  {
    if Decide(plan, r, e.op, e.at).Write? {
      match e.op {
        case StartNextAttempt => StartWithinBound(plan, r, e.at, step, extra);
        case ResumeAttempt(s) =>
          ResumeShape(plan, r, s, e.at);
          CountAppend(r.attempts, NewAttempt(r, s, e.at), step.stepId);
        case ObserveAttempt(id, status, d, expected) =>
          ObserveWritesIff(r, id, status, d, expected, e.at);
          CountUpdate(r.attempts, Observed(r.attempts[|r.attempts| - 1], status, d, e.at), step.stepId);
        case RequestCancel =>
        case ApplyTerminalAction => TerminalKeeps(plan, r);
      }
    }
  }

  /** Attempts of a step never exceed its policy plus the manual resumes of that step. */
  lemma {:induction false} RetryBound(plan: ExecutionPlan, first: ProductRun, events: seq<Event>, step: PlanStep)
    requires ValidPlan(plan) && JustCreated(first) && FreshTrace(plan, first, events)
    requires FindStep(plan.steps, step.stepId) == Some(step)
    ensures AttemptsForStep(Replay(plan, first, events).attempts, step.stepId)
            <= step.retryPolicy.maxAttempts + Resumes(plan, first, events, step.stepId)
  {
    if events == [] {
      FindStepCorrect(plan.steps, step.stepId);
      var i :| 0 <= i < |plan.steps| && plan.steps[i] == step;
      assert plan.steps[i].retryPolicy.maxAttempts >= 1;
    } else {
      var before, e := events[..|events| - 1], events[|events| - 1];
      RetryBound(plan, first, before, step);
      ReachableInv(plan, first, before);
      ApplyWithinBound(plan, Replay(plan, first, before), e, step, Resumes(plan, first, before, step.stepId));
    }
  }

  /** The automatic attempts every step may still make. */
  function Budget(steps: seq<PlanStep>, attempts: seq<Attempt>): nat {
    if steps == [] then 0
    else
      var used := AttemptsForStep(attempts, steps[0].stepId);
      (if used < steps[0].retryPolicy.maxAttempts then steps[0].retryPolicy.maxAttempts - used else 0)
      + Budget(steps[1..], attempts)
  }

  lemma {:induction false} BudgetOther(steps: seq<PlanStep>, attempts: seq<Attempt>, a: Attempt)
    requires a.stepId !in Ids(steps)
    ensures Budget(steps, attempts + [a]) == Budget(steps, attempts)
  {
    if steps != [] {
      CountAppend(attempts, a, steps[0].stepId);
      BudgetOther(steps[1..], attempts, a);
    }
  }

  lemma {:induction false} BudgetDrops(steps: seq<PlanStep>, attempts: seq<Attempt>, a: Attempt, step: PlanStep)
    requires UniqueIds(steps) && FindStep(steps, a.stepId) == Some(step)
    ensures Budget(steps, attempts + [a]) ==
            Budget(steps, attempts)
            - if AttemptsForStep(attempts, a.stepId) < step.retryPolicy.maxAttempts then 1 else 0
  {
    CountAppend(attempts, a, steps[0].stepId);
    if steps[0].stepId == a.stepId {
      BudgetOther(steps[1..], attempts, a);
    } else {
      BudgetDrops(steps[1..], attempts, a, step);
    }
  }

  lemma {:induction false} BudgetUpdate(steps: seq<PlanStep>, attempts: seq<Attempt>, a: Attempt)
    requires attempts != [] && a.stepId == attempts[|attempts| - 1].stepId
    ensures Budget(steps, attempts[|attempts| - 1 := a]) == Budget(steps, attempts)
  {
    if steps != [] {
      CountUpdate(attempts, a, steps[0].stepId);
      BudgetUpdate(steps[1..], attempts, a);
    }
  }

  /** Starting an attempt spends exactly one unit; no other operation ever adds one. */
  lemma BudgetStep(plan: ExecutionPlan, r: ProductRun, e: Event)
    requires ValidPlan(plan) && Inv(plan, r) && Fresh(r, e.at)
    ensures var after := Apply(plan, r, e);
            && Budget(plan.steps, after.attempts) <= Budget(plan.steps, r.attempts)
            && (e.op.StartNextAttempt? && Decide(plan, r, e.op, e.at).Write? ==>
                  Budget(plan.steps, after.attempts) == Budget(plan.steps, r.attempts) - 1)
            && (!e.op.StartNextAttempt? && !e.op.ResumeAttempt? ==>
                  Budget(plan.steps, after.attempts) == Budget(plan.steps, r.attempts))
  {
    if Decide(plan, r, e.op, e.at).Write? {
      match e.op {
        case StartNextAttempt =>
          var step := StartHasCapacity(plan, r, e.at);
          BudgetDrops(plan.steps, r.attempts, NewAttempt(r, step.stepId, e.at), step);
        case ResumeAttempt(s) =>
          ResumeShape(plan, r, s, e.at);
          FindStepCorrect(plan.steps, s);
          BudgetDrops(plan.steps, r.attempts, NewAttempt(r, s, e.at), FindStep(plan.steps, s).value);
        case ObserveAttempt(id, status, d, expected) =>
          ObserveWritesIff(r, id, status, d, expected, e.at);
          BudgetUpdate(plan.steps, r.attempts, Observed(r.attempts[|r.attempts| - 1], status, d, e.at));
        case RequestCancel =>
        case ApplyTerminalAction => TerminalKeeps(plan, r);
      }
    }
  }

  /** Successful starts of a run of operations. */
  function Starts(plan: ExecutionPlan, first: ProductRun, events: seq<Event>): nat {
    if events == [] then 0
    else
      var before, e := events[..|events| - 1], events[|events| - 1];
      Starts(plan, first, before)
      + if e.op.StartNextAttempt? && Decide(plan, Replay(plan, first, before), e.op, e.at).Write? then 1 else 0
  }

  /** Over any run of operations the automatic starts fit into the plan's retry budget. */
  lemma {:induction false} StartsAreBounded(plan: ExecutionPlan, first: ProductRun, events: seq<Event>)
    requires ValidPlan(plan) && JustCreated(first) && FreshTrace(plan, first, events)
    ensures Starts(plan, first, events) + Budget(plan.steps, Replay(plan, first, events).attempts)
            <= Budget(plan.steps, [])
  {
    if events != [] {
      var before, e := events[..|events| - 1], events[|events| - 1];
      StartsAreBounded(plan, first, before);
      ReachableInv(plan, first, before);
      BudgetStep(plan, Replay(plan, first, before), e);
    }
  }
}
