/**
 * What the reconciler does next, read off the attempts alone: exactly when a run waits,
 * and what still moves it then, resume and cancellation included.
 */
module LifecycleProgress {
  import opened Prelude
  import opened Plans
  import opened Lifecycle
  import opened LifecycleInvariant
  import opened LifecycleTheorems

  // ----- What the attempts say about the steps -----

  ghost predicate SomeStepBlocked(r: ProductRun) {
    exists s :: BlockedStep(r, s)
  }

  predicate NeverAttempted(r: ProductRun, stepId: string) {
    LastOf(r.attempts, stepId).None?
  }

  /** The step was attempted, and its last attempt did not succeed. */
  predicate Stuck(r: ProductRun, stepId: string) {
    LastOf(r.attempts, stepId).Some? && !LastOf(r.attempts, stepId).value.status.Succeeded?
  }

  /** The status a step's last attempt gives it. */
  function HistoryStatus(r: ProductRun, stepId: string): StepStatus {
    match LastOf(r.attempts, stepId)
    case None => StepPending
    case Some(a) => StepStatusOf(a.status)
  }

  /** Some dependency has not come to the status it is required to have. */
  predicate HeldBack(r: ProductRun, step: PlanStep) {
    exists k | 0 <= k < |step.dependencies| ::
      HistoryStatus(r, step.dependencies[k].stepId) != step.dependencies[k].required
  }

  predicate EveryStepSucceeded(plan: ExecutionPlan, r: ProductRun) {
    forall i | 0 <= i < |plan.steps| :: StepSucceededLast(r, plan.steps[i].stepId)
  }

  predicate SomeStepStuck(plan: ExecutionPlan, r: ProductRun) {
    exists i | 0 <= i < |plan.steps| :: Stuck(r, plan.steps[i].stepId)
  }

  /** A declared step that was never attempted and is not held back. */
  predicate CanBegin(r: ProductRun, step: PlanStep) {
    NeverAttempted(r, step.stepId) && !HeldBack(r, step)
  }

  predicate SomeStepCanBegin(plan: ExecutionPlan, r: ProductRun) {
    exists i | 0 <= i < |plan.steps| :: CanBegin(r, plan.steps[i])
  }

  lemma BlockedIsBlocked(r: ProductRun)
    requires StatusesMatch(r)
    ensures AnyBlocked(r) <==> SomeStepBlocked(r)
  {
    if AnyBlocked(r) {
      var s :| s in r.stepStatuses && r.stepStatuses[s].StepBlocked?;
      assert StepMatches(r, s);
      assert BlockedStep(r, s);
    }
    if SomeStepBlocked(r) {
      var s :| BlockedStep(r, s);
      assert StepMatches(r, s);
      assert r.stepStatuses[s].StepBlocked?;
    }
  }

  lemma LatestBlocks(r: ProductRun)
    requires r.Latest().Some? && r.Latest().value.status.Blocked?
    ensures SomeStepBlocked(r)
  {
    assert BlockedStep(r, r.Latest().value.stepId);
  }

  /** With no active attempt the recorded status of a step is what its attempts say. */
  lemma StatusIsHistory(r: ProductRun, stepId: string)
    requires StatusesMatch(r) && Frozen(r) && NoActiveAttempt(r)
    ensures r.StatusOf(stepId) == HistoryStatus(r, stepId)
    ensures r.StatusOf(stepId).StepPending? <==> NeverAttempted(r, stepId)
    ensures stepId in r.stepStatuses <==> !NeverAttempted(r, stepId)
  {
    assert StepMatches(r, stepId);
    if LastOf(r.attempts, stepId).Some? {
      var i := LastOfIndex(r.attempts, stepId);
      assert r.attempts[i].status.Terminal();
    }
  }

  lemma DependenciesAreHistory(r: ProductRun, step: PlanStep)
    requires StatusesMatch(r) && Frozen(r) && NoActiveAttempt(r)
    ensures DependenciesHold(step.dependencies, r) <==> !HeldBack(r, step)
  {
    forall k | 0 <= k < |step.dependencies|
      ensures r.StatusOf(step.dependencies[k].stepId) == HistoryStatus(r, step.dependencies[k].stepId)
    {
      StatusIsHistory(r, step.dependencies[k].stepId);
    }
  }

  lemma {:induction false} RunnableFound(ordered: seq<PlanStep>, r: ProductRun, k: nat)
    requires k < |ordered| && r.StatusOf(ordered[k].stepId).StepPending? && DependenciesHold(ordered[k].dependencies, r)
    ensures FirstRunnable(ordered, r).Some?
  {
    if k > 0 { RunnableFound(ordered[1..], r, k - 1); }
  }

  lemma OrderMembers(plan: ExecutionPlan, step: PlanStep)
    requires ValidPlan(plan)
    ensures step in plan.steps <==> step in Ordered(plan.steps).value
  {
    OrderedStepsCorrect(plan.steps);
    assert step in multiset(plan.steps) <==> step in multiset(Ordered(plan.steps).value);
  }

  /** The order's first runnable step is a declared step that can begin, if there is any. */
  lemma RunnableIff(plan: ExecutionPlan, r: ProductRun)
    requires ValidPlan(plan) && Inv(plan, r) && NoActiveAttempt(r)
    ensures NextRunnableStep(plan, r).Some? <==> SomeStepCanBegin(plan, r)
    ensures NextRunnableStep(plan, r).Some? ==> CanBegin(r, NextRunnableStep(plan, r).value)
  {
    var order := Ordered(plan.steps).value;
    if NextRunnableStep(plan, r).Some? {
      RunnableCorrect(plan, r);
      var step := NextRunnableStep(plan, r).value;
      StatusIsHistory(r, step.stepId);
      DependenciesAreHistory(r, step);
      var i :| 0 <= i < |plan.steps| && plan.steps[i] == step;
    }
    if SomeStepCanBegin(plan, r) {
      var i :| 0 <= i < |plan.steps| && CanBegin(r, plan.steps[i]);
      StatusIsHistory(r, plan.steps[i].stepId);
      DependenciesAreHistory(r, plan.steps[i]);
      OrderMembers(plan, plan.steps[i]);
      var k :| 0 <= k < |order| && order[k] == plan.steps[i];
      RunnableFound(order, r, k);
    }
  }

  lemma SucceededIsSucceeded(plan: ExecutionPlan, r: ProductRun)
    requires StatusesMatch(r)
    ensures AllSucceeded(plan, r) <==> EveryStepSucceeded(plan, r)
  {
    forall i | 0 <= i < |plan.steps|
      ensures (plan.steps[i].stepId in r.stepStatuses && r.stepStatuses[plan.steps[i].stepId].StepSucceeded?)
              <==> StepSucceededLast(r, plan.steps[i].stepId)
    {
      assert StepMatches(r, plan.steps[i].stepId);
    }
  }

  // ----- Exactly when each action is chosen -----

  /** The failed attempt's step may be tried again. */
  predicate MayRetry(plan: ExecutionPlan, r: ProductRun, latest: Attempt) {
    var step := FindStep(plan.steps, latest.stepId);
    && step.Some?
    && AttemptsForStep(r.attempts, latest.stepId) < step.value.retryPolicy.maxAttempts
    && (if latest.status.Lost? then step.value.retryPolicy.retryLost else step.value.retryPolicy.retryFailed)
  }

  predicate CancelledUnconfirmed(r: ProductRun) {
    r.Latest().Some? && r.Latest().value.status.Cancelled? && !r.Latest().value.cleanupConfirmed
  }

  /** Nothing blocks the run, nothing runs, and the latest attempt did not fail. */
  ghost predicate Clear(r: ProductRun) {
    !SomeStepBlocked(r) && NoActiveAttempt(r) && !LatestFailed(r)
  }

  /**
   * The pure reconciler, read off the attempts alone: on every reachable nonterminal run
   * each action is chosen exactly when the history says so.
   */
  lemma {:induction false} ActionsReadHistory(plan: ExecutionPlan, r: ProductRun)
    requires ValidPlan(plan) && Inv(plan, r) && !r.Terminal()
    ensures r.desired.WantCancelled? ==>
              && (NextAction(plan, r).RequestCancellation? <==> !NoActiveAttempt(r))
              && (NextAction(plan, r).Wait? <==> CancelledUnconfirmed(r))
              && (NextAction(plan, r).FinalizeCancelled? <==> NoActiveAttempt(r) && !CancelledUnconfirmed(r))
    ensures r.desired.Active? ==>
              && (NextAction(plan, r).FinalizeBlocked? <==> SomeStepBlocked(r))
              && (NextAction(plan, r).RetryAttempt? <==>
                    !SomeStepBlocked(r) && LatestFailed(r) && MayRetry(plan, r, r.Latest().value))
              && (NextAction(plan, r).FinalizeFailed? <==>
                    !SomeStepBlocked(r) && LatestFailed(r) && !MayRetry(plan, r, r.Latest().value))
              && (NextAction(plan, r).CreateAttempt? <==> Clear(r) && SomeStepCanBegin(plan, r))
              && (NextAction(plan, r).FinalizeSucceeded? <==> Clear(r) && EveryStepSucceeded(plan, r))
              && (NextAction(plan, r).Wait? <==>
                    || (!SomeStepBlocked(r) && !NoActiveAttempt(r))
                    || (Clear(r) && !SomeStepCanBegin(plan, r) && !EveryStepSucceeded(plan, r)))
  {
    BlockedIsBlocked(r);
    SucceededIsSucceeded(plan, r);
    if r.Latest().Some? {
      assert FindStep(plan.steps, r.attempts[|r.attempts| - 1].stepId).Some?;
      if r.Latest().value.status.Blocked? { LatestBlocks(r); }
    }
    if NoActiveAttempt(r) {
      RunnableIff(plan, r);
    }
  }

  // ----- The idle wait -----

  /** Every step of this part of the order has succeeded. */
  predicate SucceededAll(steps: seq<PlanStep>, r: ProductRun) {
    forall s | s in steps :: StepSucceededLast(r, s.stepId)
  }

  lemma {:induction false} PrefixIds(order: seq<PlanStep>, i: nat, x: string, r: ProductRun)
    requires i <= |order| && SucceededAll(order[..i], r) && x in Ids(order[..i])
    ensures StepSucceededLast(r, x)
  {
    var j := IdsWitness(order[..i], x);
    assert order[..i][j] in order[..i];
  }

  /** Along a topological order, steps that are neither stuck nor held back have succeeded. */
  lemma {:induction false} NoneStuckSucceeds(r: ProductRun, order: seq<PlanStep>, i: nat)
    requires Topological(order) && forall s | s in order :: AllRequireSuccess(s.dependencies)
    requires forall s | s in order :: !Stuck(r, s.stepId) && !CanBegin(r, s)
    requires i <= |order| && SucceededAll(order[..i], r)
    ensures SucceededAll(order, r)
    decreases |order| - i
  {
    if i == |order| {
      assert order[..i] == order;
    } else {
      var step := order[i];
      assert step in order && MetBefore(order, {}, i) && AllRequireSuccess(step.dependencies);
      forall k | 0 <= k < |step.dependencies|
        ensures HistoryStatus(r, step.dependencies[k].stepId) == step.dependencies[k].required
      {
        PrefixIds(order, i, step.dependencies[k].stepId, r);
      }
      assert order[..i + 1] == order[..i] + [step];
      NoneStuckSucceeds(r, order, i + 1);
    }
  }

  /** If nothing can begin, every step has succeeded or some step is stuck. */
  lemma SomeStepIsStuck(plan: ExecutionPlan, r: ProductRun)
    requires ValidPlan(plan) && RequiresSuccess(plan)
    requires !SomeStepCanBegin(plan, r)
    ensures EveryStepSucceeded(plan, r) <==> !SomeStepStuck(plan, r)
  {
    if !SomeStepStuck(plan, r) {
      var order := Ordered(plan.steps).value;
      OrderedStepsCorrect(plan.steps);
      forall s | s in order
        ensures AllRequireSuccess(s.dependencies) && !Stuck(r, s.stepId) && !CanBegin(r, s)
      {
        OrderMembers(plan, s);
        var i :| 0 <= i < |plan.steps| && plan.steps[i] == s;
      }
      NoneStuckSucceeds(r, order, 0);
      forall i | 0 <= i < |plan.steps| ensures StepSucceededLast(r, plan.steps[i].stepId) {
        OrderMembers(plan, plan.steps[i]);
      }
    }
    if SomeStepStuck(plan, r) {
      var i :| 0 <= i < |plan.steps| && Stuck(r, plan.steps[i].stepId);
      assert !StepSucceededLast(r, plan.steps[i].stepId);
    }
  }

  /** Every step that was never attempted has a dependency whose last attempt did not succeed. */
  predicate RestHeldBack(plan: ExecutionPlan, r: ProductRun) {
    forall i | 0 <= i < |plan.steps| && NeverAttempted(r, plan.steps[i].stepId) ::
      exists k | 0 <= k < |plan.steps[i].dependencies| ::
        !StepSucceededLast(r, plan.steps[i].dependencies[k].stepId)
  }

  lemma RestIsHeldBack(plan: ExecutionPlan, r: ProductRun)
    requires RequiresSuccess(plan)
    ensures RestHeldBack(plan, r) <==> !SomeStepCanBegin(plan, r)
  {
    forall i | 0 <= i < |plan.steps|
      ensures HeldBack(r, plan.steps[i]) <==>
              exists k | 0 <= k < |plan.steps[i].dependencies| ::
                !StepSucceededLast(r, plan.steps[i].dependencies[k].stepId)
    {
      assert AllRequireSuccess(plan.steps[i].dependencies);
    }
  }

  /** Nothing is active and the run still waits. */
  ghost predicate Idles(plan: ExecutionPlan, r: ProductRun) {
    if r.desired.WantCancelled? then CancelledUnconfirmed(r)
    else !SomeStepBlocked(r) && !LatestFailed(r) && SomeStepStuck(plan, r) && RestHeldBack(plan, r)
  }

  /**
   * Exactly when a nonterminal run with no active attempt waits, resume and cancellation
   * included: once cancellation is desired, when its last attempt is cancelled without
   * confirmed cleanup; before that, when some step is stuck and every step never
   * attempted depends on one that has not succeeded.
   */
  lemma {:induction false} WaitsIff(plan: ExecutionPlan, r: ProductRun)
    requires ValidPlan(plan) && RequiresSuccess(plan) && Inv(plan, r)
    requires !r.Terminal() && NoActiveAttempt(r)
    ensures NextAction(plan, r).Wait? <==> Idles(plan, r)
    ensures !NextAction(plan, r).Wait? ==> MakesProgress(NextAction(plan, r))
  {
    ActionsReadHistory(plan, r);
    RestIsHeldBack(plan, r);
    if RestHeldBack(plan, r) { SomeStepIsStuck(plan, r); }
    if r.Latest().Some? {
      assert FindStep(plan.steps, r.attempts[|r.attempts| - 1].stepId).Some?;
    }
  }

  predicate MakesProgress(a: Action) {
    || a.CreateAttempt? || a.RetryAttempt?
    || a.FinalizeSucceeded? || a.FinalizeFailed? || a.FinalizeBlocked? || a.FinalizeCancelled?
  }

  /** What still moves an idle run: a request to cancel it, and nothing else. */
  lemma {:induction false} OnlyCancelMovesIdle(plan: ExecutionPlan, r: ProductRun, op: Op, now: nat)
    requires ValidPlan(plan) && RequiresSuccess(plan) && Inv(plan, r) && Fresh(r, now)
    requires !r.Terminal() && NoActiveAttempt(r) && Idles(plan, r)
    ensures Decide(plan, r, op, now).Write? <==> op.RequestCancel?
    ensures op.RequestCancel? ==>
              Decide(plan, r, op, now) == Write(r.(desired := WantCancelled, observed := CancelRequested))
  {
    WaitsIff(plan, r);
    match op {
      case ResumeAttempt(s) => assert !r.observed.AwaitingRetry? || LatestFailed(r);
      case ObserveAttempt(id, status, d, expected) => ObserveWritesIff(r, id, status, d, expected, now);
      case _ =>
    }
  }

  /** A nonterminal run with nothing active that waits. */
  ghost predicate IsIdle(plan: ExecutionPlan, r: ProductRun) {
    !r.Terminal() && NoActiveAttempt(r) && Idles(plan, r)
  }

  /** v still waits where r waited; it makes no attempt and accepts no resume. */
  ghost predicate WaitsOn(plan: ExecutionPlan, r: ProductRun, v: ProductRun) {
    && v.attempts == r.attempts && v.desired.WantCancelled?
    && IsIdle(plan, v) && NextAction(plan, v).Wait? && !Resumable(v.observed)
  }

  lemma IdleWaitsOn(plan: ExecutionPlan, r: ProductRun)
    requires ValidPlan(plan) && RequiresSuccess(plan) && Inv(plan, r)
    requires IsIdle(plan, r) && r.desired.WantCancelled?
    ensures WaitsOn(plan, r, r)
  {
    WaitsIff(plan, r);
  }

  /** One more operation on an idle run. */
  lemma IdleStep(plan: ExecutionPlan, r: ProductRun, e: Event)
    requires ValidPlan(plan) && RequiresSuccess(plan) && Inv(plan, r) && Fresh(r, e.at) && IsIdle(plan, r)
    ensures !e.op.RequestCancel? ==> Apply(plan, r, e) == r
    ensures r.desired.WantCancelled? ==>
              IsIdle(plan, Apply(plan, r, e)) && Apply(plan, r, e).desired.WantCancelled?
              && Apply(plan, r, e).attempts == r.attempts
  {
    OnlyCancelMovesIdle(plan, r, e.op, e.at);
  }

  /** The operations after the k-th hold no request to cancel. */
  predicate NoRequestFrom(events: seq<Event>, k: nat) {
    forall i | k <= i < |events| :: !events[i].op.RequestCancel?
  }

  /**
   * An idle run stays exactly as it is until a request to cancel it. Once cancellation is
   * desired it waits for good: no further attempt, and no resume.
   */
  lemma {:induction false} IdleStays(plan: ExecutionPlan, first: ProductRun, events: seq<Event>, k: nat)
    requires ValidPlan(plan) && RequiresSuccess(plan) && JustCreated(first)
    requires FreshTrace(plan, first, events) && k <= |events|
    requires IsIdle(plan, Replay(plan, first, events[..k]))
    ensures NoRequestFrom(events, k) ==> Replay(plan, first, events) == Replay(plan, first, events[..k])
    ensures Replay(plan, first, events[..k]).desired.WantCancelled? ==>
              WaitsOn(plan, Replay(plan, first, events[..k]), Replay(plan, first, events))
  {
    ReachableInv(plan, first, events);
    var r := Replay(plan, first, events[..k]);
    if k == |events| {
      assert events[..k] == events;
      if r.desired.WantCancelled? { IdleWaitsOn(plan, r); }
    } else {
      var before, e := events[..|events| - 1], events[|events| - 1];
      assert before[..k] == events[..k];
      IdleStays(plan, first, before, k);
      ReachableInv(plan, first, before);
      var u := Replay(plan, first, before);
      if NoRequestFrom(events, k) {
        assert NoRequestFrom(before, k);
      }
      if r.desired.WantCancelled? || NoRequestFrom(events, k) {
        IdleStep(plan, u, e);
      }
      if r.desired.WantCancelled? { IdleWaitsOn(plan, Apply(plan, u, e)); }
    }
  }

  // ----- A run that idles -----

  predicate TwoStepRun(r: ProductRun, statuses: seq<AttemptStatus>, steps: map<string, StepStatus>, now: nat) {
    && r.desired.Active? && !r.Terminal() && r.stepStatuses == steps && Fresh(r, now)
    && |r.attempts| == |statuses| <= 2 && (forall i | 0 <= i < |statuses| :: r.attempts[i].status == statuses[i])
    && (statuses != [] ==> r.attempts[0].stepId == "a") && (|statuses| == 2 ==> r.attempts[1].stepId == "b")
  }

  lemma RunnableOfTwo(r: ProductRun)
    ensures NextRunnableStep(TwoSteps, r) ==
            if r.StatusOf("a").StepPending? then Some(StepA)
            else if r.StatusOf("b").StepPending? then Some(StepB) else None
  {
    TwoStepsOrder();
    assert [StepA, StepB][1..] == [StepB] && [StepB][1..] == [];
    assert FirstRunnable([StepB], r) == if r.StatusOf("b").StepPending? then Some(StepB) else None;
  }

  function Begin(now: nat): Event {
    Event(StartNextAttempt, now, now)
  }

  function End(r: ProductRun, status: AttemptStatus, now: nat): Event
    requires r.attempts != []
  {
    Event(ObserveAttempt(r.attempts[|r.attempts| - 1].id, status, NoDetails, None), now, now)
  }

  lemma {:induction false} Begins(r: ProductRun, stepId: string, now: nat)
    requires Numbered(r) && !r.Terminal() && NextAction(TwoSteps, r) == CreateAttempt(stepId)
    ensures Apply(TwoSteps, r, Begin(now)) == Persist(r, Appended(r, r.desired, stepId, now), now)
  {
    AppendShape(r, stepId, now);
  }

  lemma {:induction false} Ends(r: ProductRun, status: AttemptStatus, now: nat)
    requires Numbered(r) && !r.Terminal() && r.attempts != [] && !r.attempts[|r.attempts| - 1].status.Terminal()
    ensures Apply(TwoSteps, r, End(r, status, now)) == Persist(r, ObservedLatest(r, status, NoDetails, now), now)
  {
    ObserveLast(r, status, NoDetails, None, now);
  }

  /** The events so far, none of them a resume or a request to cancel, end at r. */
  ghost predicate Scene(first: ProductRun, events: seq<Event>, r: ProductRun) {
    && FreshTrace(TwoSteps, first, events) && Replay(TwoSteps, first, events) == r
    && NoResume(events) && NoRequestFrom(events, 0) && Inv(TwoSteps, r)
  }

  lemma {:induction false} Continues(first: ProductRun, before: seq<Event>, r: ProductRun, e: Event)
    requires ValidPlan(TwoSteps) && Scene(first, before, r) && Fresh(r, e.at)
    requires e.op.StartNextAttempt? || e.op.ObserveAttempt?
    ensures Scene(first, before + [e], Apply(TwoSteps, r, e))
  {
    ReplaySnoc(TwoSteps, first, before, e);
    ApplyKeeps(TwoSteps, r, e);
  }

  lemma {:induction false} SceneA(first: ProductRun) returns (events: seq<Event>, r: ProductRun)
    requires JustCreated(first) && ValidPlan(TwoSteps)
    ensures Scene(first, events, r) && TwoStepRun(r, [Pending], map["a" := StepRunning], 2)
  {
    RunnableOfTwo(first);
    Begins(first, "a", 1);
    CreatedInv(TwoSteps, first);
    Continues(first, [], first, Begin(1));
    events, r := [] + [Begin(1)], Persist(first, Appended(first, Active, "a", 1), 1);
  }

  lemma {:induction false} SceneB(first: ProductRun, before: seq<Event>, r: ProductRun) returns (events: seq<Event>, u: ProductRun)
    requires ValidPlan(TwoSteps) && Scene(first, before, r)
    requires TwoStepRun(r, [Cancelled], map["a" := StepCancelled], 3)
    ensures Scene(first, events, u)
    ensures TwoStepRun(u, [Cancelled, Pending], map["a" := StepCancelled, "b" := StepRunning], 4)
  {
    RunnableOfTwo(r);
    Begins(r, "b", 3);
    Continues(first, before, r, Begin(3));
    events, u := before + [Begin(3)], Persist(r, Appended(r, Active, "b", 3), 3);
  }

  lemma {:induction false} SceneEnd(first: ProductRun, before: seq<Event>, r: ProductRun, status: AttemptStatus, now: nat)
    returns (events: seq<Event>, u: ProductRun)
    requires ValidPlan(TwoSteps) && Scene(first, before, r) && Fresh(r, now) && !r.Terminal()
    requires r.attempts != [] && !r.attempts[|r.attempts| - 1].status.Terminal()
    ensures Scene(first, events, u) && u == Persist(r, ObservedLatest(r, status, NoDetails, now), now)
  {
    Ends(r, status, now);
    Continues(first, before, r, End(r, status, now));
    events, u := before + [End(r, status, now)], Persist(r, ObservedLatest(r, status, NoDetails, now), now);
  }

  lemma {:induction false} SceneCancelled(first: ProductRun, before: seq<Event>, r: ProductRun) returns (events: seq<Event>, u: ProductRun)
    requires ValidPlan(TwoSteps) && Scene(first, before, r) && TwoStepRun(r, [Pending], map["a" := StepRunning], 2)
    ensures Scene(first, events, u) && TwoStepRun(u, [Cancelled], map["a" := StepCancelled], 3)
  {
    events, u := SceneEnd(first, before, r, Cancelled, 2);
  }

  lemma {:induction false} SceneSucceeded(first: ProductRun, before: seq<Event>, r: ProductRun) returns (events: seq<Event>, u: ProductRun)
    requires ValidPlan(TwoSteps) && Scene(first, before, r)
    requires TwoStepRun(r, [Cancelled, Pending], map["a" := StepCancelled, "b" := StepRunning], 4)
    ensures Scene(first, events, u)
    ensures TwoStepRun(u, [Cancelled, Succeeded], map["a" := StepCancelled, "b" := StepSucceeded], 5)
  {
    events, u := SceneEnd(first, before, r, Succeeded, 4);
  }

  /** Both steps are over and one of them is stuck: the run waits for nothing. */
  lemma SceneIdle(r: ProductRun)
    requires ValidPlan(TwoSteps) && Inv(TwoSteps, r)
    requires TwoStepRun(r, [Cancelled, Succeeded], map["a" := StepCancelled, "b" := StepSucceeded], 5)
    ensures RequiresSuccess(TwoSteps) && NextAction(TwoSteps, r) == Wait(None) && IsIdle(TwoSteps, r)
  {
    RunnableOfTwo(r);
    assert !AllSucceeded(TwoSteps, r) by { assert TwoSteps.steps[0].stepId == "a"; }
    WaitsIff(TwoSteps, r);
  }

  /**
   * Step a is recorded as cancelled while the run is active: the run goes on with step b,
   * and after b's success it waits although nothing is left to wait for.
   */
  lemma {:induction false} CancelledStepIdles(first: ProductRun) returns (events: seq<Event>)
    requires JustCreated(first)
    ensures ValidPlan(TwoSteps) && RequiresSuccess(TwoSteps)
    ensures FreshTrace(TwoSteps, first, events) && NoResume(events) && NoRequestFrom(events, 0)
    ensures var r := Replay(TwoSteps, first, events);
            && r.desired.Active? && |r.attempts| == 2
            && r.attempts[0].status.Cancelled? && r.attempts[1].status.Succeeded?
            && NextAction(TwoSteps, r) == Wait(None) && IsIdle(TwoSteps, r)
  {
    TwoStepsValid();
    var r: ProductRun;
    events, r := SceneA(first);
    events, r := SceneCancelled(first, events, r);
    events, r := SceneB(first, events, r);
    events, r := SceneSucceeded(first, events, r);
    SceneIdle(r);
  }

  // ----- Progress as a corollary -----

  predicate NoCancellation(events: seq<Event>) {
    forall i | 0 <= i < |events| ::
      !events[i].op.RequestCancel? && !(events[i].op.ObserveAttempt? && events[i].op.status.Cancelled?)
  }

  predicate Uncancelled(r: ProductRun) {
    r.desired.Active? && forall i | 0 <= i < |r.attempts| :: !r.attempts[i].status.Cancelled?
  }

  lemma ApplyUncancelled(plan: ExecutionPlan, r: ProductRun, e: Event)
    requires ValidPlan(plan) && Inv(plan, r) && Fresh(r, e.at) && Uncancelled(r)
    requires !e.op.RequestCancel? && !(e.op.ObserveAttempt? && e.op.status.Cancelled?)
    ensures Uncancelled(Apply(plan, r, e))
  {
    if Decide(plan, r, e.op, e.at).Write? {
      match e.op {
        case StartNextAttempt => var s := StartShape(plan, r, e.at);
        case ResumeAttempt(s) => ResumeShape(plan, r, s, e.at);
        case ObserveAttempt(id, status, d, expected) => ObserveWritesIff(r, id, status, d, expected, e.at);
        case ApplyTerminalAction => TerminalKeeps(plan, r);
      }
    }
  }

  lemma {:induction false} ReplayUncancelled(plan: ExecutionPlan, first: ProductRun, events: seq<Event>)
    requires ValidPlan(plan) && JustCreated(first) && FreshTrace(plan, first, events) && NoCancellation(events)
    ensures Uncancelled(Replay(plan, first, events))
  {
    if events != [] {
      var before := events[..|events| - 1];
      ReplayUncancelled(plan, first, before);
      ReachableInv(plan, first, before);
      ApplyUncancelled(plan, Replay(plan, first, before), events[|events| - 1]);
    }
  }

  /** A step that was left behind without a cancellation had succeeded. */
  lemma OrderlyIsNotStuck(plan: ExecutionPlan, r: ProductRun)
    requires Inv(plan, r) && Orderly(r) && Uncancelled(r)
    requires NoActiveAttempt(r) && !LatestFailed(r) && !SomeStepBlocked(r)
    ensures !SomeStepStuck(plan, r)
  {
    forall i | 0 <= i < |plan.steps| ensures !Stuck(r, plan.steps[i].stepId) {
      var s := plan.steps[i].stepId;
      assert LeftBehind(r, s) && !BlockedStep(r, s);
      if LastOf(r.attempts, s).Some? {
        var j := LastOfIndex(r.attempts, s);
        assert NumberedAt(r, j);
      }
    }
  }

  /**
   * Progress: without resume and cancellation, a nonterminal run with no active attempt
   * always creates, retries or finalises; it never waits idly.
   */
  lemma Progress(plan: ExecutionPlan, first: ProductRun, events: seq<Event>)
    requires ValidPlan(plan) && RequiresSuccess(plan) && JustCreated(first)
    requires FreshTrace(plan, first, events) && NoResume(events) && NoCancellation(events)
    requires !Replay(plan, first, events).Terminal() && NoActiveAttempt(Replay(plan, first, events))
    ensures MakesProgress(NextAction(plan, Replay(plan, first, events)))
  {
    var r := Replay(plan, first, events);
    ReachableInv(plan, first, events);
    DependencyOrder(plan, first, events);
    ReplayUncancelled(plan, first, events);
    WaitsIff(plan, r);
    if Idles(plan, r) { OrderlyIsNotStuck(plan, r); }
  }
}
