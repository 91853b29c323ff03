/**
 * What each lifecycle operation writes or raises, status by status, on every record the
 * invariant allows.
 */
module LifecycleTransitions {
  import opened Prelude
  import opened Plans
  import opened Lifecycle
  import opened LifecycleInvariant
  import opened LifecycleProgress

  // ----- Finalising -----

  /**
   * Finalisation writes exactly one of the four terminal statuses, and which one is read off
   * the attempts: CANCELLED once nothing is active and no cancellation is unconfirmed,
   * BLOCKED over any blocked step, FAILED when the latest attempt failed and may not be
   * tried again, SUCCEEDED when every step did; in all other cases nothing is written.
   */
  lemma {:induction false} FinalisesIff(plan: ExecutionPlan, r: ProductRun)
    requires ValidPlan(plan) && Inv(plan, r) && !r.Terminal()
    ensures DecideTerminal(plan, r) ==
            if r.desired.WantCancelled? then
              if NoActiveAttempt(r) && !CancelledUnconfirmed(r) then Write(r.(observed := PlanCancelled)) else Keep
            else if SomeStepBlocked(r) then Write(r.(observed := PlanBlocked))
            else if LatestFailed(r) then
              if MayRetry(plan, r, r.Latest().value) then Keep else Write(r.(observed := PlanFailed))
            else if NoActiveAttempt(r) && EveryStepSucceeded(plan, r) then Write(r.(observed := PlanSucceeded))
            else Keep
    ensures DecideTerminal(plan, r).Write? ==> DecideTerminal(plan, r).updated.Terminal()
  {
    ActionsReadHistory(plan, r);
  }

  // ----- Starting and resuming -----

  /**
   * A start writes exactly for a step to create or to retry: a PENDING attempt without
   * references under the next number, its step RUNNING, the run RUNNING. Anything else
   * cannot create an attempt.
   */
  lemma {:induction false} StartsIff(plan: ExecutionPlan, r: ProductRun, now: nat)
    requires ValidPlan(plan) && Inv(plan, r)
    ensures var action, n := NextAction(plan, r), |r.attempts| + 1;
            DecideStart(plan, r, now) ==
            if action.CreateAttempt? || action.RetryAttempt? then
              Write(r.(observed := PlanRunning,
                       attempts := r.attempts + [Attempt(AttemptId(r.runId, n), r.runId, n, action.stepId,
                                                         Pending, [], false, None, now, now)],
                       stepStatuses := r.stepStatuses[action.stepId := StepRunning]))
            else Raise(CannotCreate)
  {
    NewIdUnused(r);
    if r.Latest().Some? {
      assert FindStep(plan.steps, r.attempts[|r.attempts| - 1].stepId).Some?;
    }
  }

  /** Which attempt an action names, and which step a creation begins. */
  lemma {:induction false} ActionsNameLatest(plan: ExecutionPlan, r: ProductRun)
    requires ValidPlan(plan) && Inv(plan, r) && !r.Terminal()
    ensures var action, n := NextAction(plan, r), |r.attempts|;
            && (action.RetryAttempt? || action.RequestCancellation? ==>
                  n > 0 && action.stepId == r.attempts[n - 1].stepId && action.attemptId == AttemptId(r.runId, n))
            && (action.Wait? ==>
                  action.waitingOn == if NoActiveAttempt(r) && r.desired.Active? then None else Some(AttemptId(r.runId, n)))
            && (action.CreateAttempt? ==>
                  exists k :: 0 <= k < |Ordered(plan.steps).value| && BeginsWith(plan, r, k) && Ordered(plan.steps).value[k].stepId == action.stepId)
  {
    var action := NextAction(plan, r);
    ActionsReadHistory(plan, r);
    if r.attempts != [] { assert NumberedAt(r, |r.attempts| - 1); }
    if action.CreateAttempt? {
      var k := FirstBegins(Ordered(plan.steps).value, r);
      assert BeginsWith(plan, r, k) by {
        forall j | 0 <= j <= k ensures CanBegin(r, Ordered(plan.steps).value[j]) <==> j == k {
          StatusIsHistory(r, Ordered(plan.steps).value[j].stepId);
          DependenciesAreHistory(r, Ordered(plan.steps).value[j]);
        }
      }
    }
  }

  /** The k-th step of the order is the first that can begin. */
  predicate BeginsWith(plan: ExecutionPlan, r: ProductRun, k: nat) {
    && Ordered(plan.steps).Some? && k < |Ordered(plan.steps).value|
    && forall j | 0 <= j <= k :: CanBegin(r, Ordered(plan.steps).value[j]) <==> j == k
  }

  lemma {:induction false} FirstBegins(ordered: seq<PlanStep>, r: ProductRun) returns (k: nat)
    requires FirstRunnable(ordered, r).Some?
    ensures k < |ordered| && ordered[k] == FirstRunnable(ordered, r).value
    ensures forall j | 0 <= j <= k ::
              (r.StatusOf(ordered[j].stepId).StepPending? && DependenciesHold(ordered[j].dependencies, r)) <==> j == k
  {
    if r.StatusOf(ordered[0].stepId).StepPending? && DependenciesHold(ordered[0].dependencies, r) {
      k := 0;
    } else {
      var i := FirstBegins(ordered[1..], r);
      k := i + 1;
      assert forall j | 0 < j <= k :: ordered[j] == ordered[1..][j - 1];
    }
  }

  /**
   * A resume writes exactly for a FAILED, CANCELLED or AWAITING_RETRY run and a declared
   * step: it asks for the run to be active again and appends one PENDING attempt.
   */
  lemma {:induction false} ResumesIff(plan: ExecutionPlan, r: ProductRun, stepId: string, now: nat)
    requires Numbered(r)
    ensures var n := |r.attempts| + 1;
            DecideResume(plan, r, stepId, now) ==
            if r.observed !in {PlanFailed, PlanCancelled, AwaitingRetry} then Raise(NotResumable)
            else if stepId !in Ids(plan.steps) then Raise(UnknownStep)
            else
              Write(r.(desired := Active, observed := PlanRunning,
                       attempts := r.attempts + [Attempt(AttemptId(r.runId, n), r.runId, n, stepId,
                                                         Pending, [], false, None, now, now)],
                       stepStatuses := r.stepStatuses[stepId := StepRunning]))
  {
    FindStepCorrect(plan.steps, stepId);
    NewIdUnused(r);
  }

  // ----- Observing -----

  /** The status of a step whose last attempt has just been observed. */
  predicate StepShows(status: AttemptStatus, shown: StepStatus) {
    && (status.Pending? <==> shown == StepPending) && (status.Running? <==> shown == StepRunning)
    && (status.Succeeded? <==> shown == StepSucceeded) && (status.Failed? || status.Lost? <==> shown == StepFailed)
    && (status.Blocked? <==> shown == StepBlocked) && (status.Cancelling? <==> shown == StepCancelling)
    && (status.Cancelled? <==> shown == StepCancelled)
  }

  /** A failed or lost attempt makes the run wait for a retry, and a stopping one shows. */
  predicate RunShows(was: PlanStatus, status: AttemptStatus, shown: PlanStatus) {
    && (status.Failed? || status.Lost? ==> shown == AwaitingRetry)
    && (status.Cancelling? ==> shown == PlanCancelling)
    && (status.Cancelled? ==> shown == CancelRequested)
    && (status in {Pending, Running, Succeeded, Blocked} ==> shown == was)
  }

  predicate KnownAttempt(r: ProductRun, id: AttemptId) {
    exists i | 0 <= i < |r.attempts| :: r.attempts[i].id == id
  }

  /** The attempt is the record's last one and not over. */
  predicate LastAndActive(r: ProductRun, id: AttemptId) {
    r.attempts != [] && r.attempts[|r.attempts| - 1].id == id && r.attempts[|r.attempts| - 1].status in {Pending, Running, Cancelling}
  }

  lemma StaleIsRefused(r: ProductRun, id: AttemptId, status: AttemptStatus, d: Details, expected: Option<nat>, now: nat)
    requires expected.Some? && expected.value != r.generation
    ensures DecideObserve(r, id, status, d, expected, now) == Raise(StaleGeneration)
  {
  }

  /** The new instant makes observing an attempt that is over fail, whatever the status. */
  lemma OverIsRefused(r: ProductRun, id: AttemptId, status: AttemptStatus, d: Details, expected: Option<nat>, now: nat)
    requires expected.Some? ==> expected.value == r.generation
    requires var found := FindAttempt(r.attempts, id);
             found.Some? && found.value.status.Terminal() && found.value.observedAt < now && found.value.id == id
    ensures DecideObserve(r, id, status, d, expected, now) == Raise(TerminalAttempt)
  {
    var a := FindAttempt(r.attempts, id).value;
    if WithObservation(a, status, d, now).Ok? {
      assert WithObservation(a, status, d, now).value.observedAt != a.observedAt;
    }
  }

  /**
   * Which observation raises what: a stale expected generation, an attempt the record does
   * not hold, one that is over, and one whose outcome would move a terminal run.
   */
  lemma {:induction false} ObservesIff(r: ProductRun, id: AttemptId, status: AttemptStatus, d: Details, expected: Option<nat>, now: nat)
    requires Numbered(r) && Frozen(r) && Fresh(r, now)
    ensures var decision := DecideObserve(r, id, status, d, expected, now);
            if expected.Some? && expected.value != r.generation then decision == Raise(StaleGeneration)
            else if !KnownAttempt(r, id) then decision == Raise(UnknownAttempt)
            else if !LastAndActive(r, id) then decision == Raise(TerminalAttempt)
            else if r.Terminal() && status in {Failed, Lost, Cancelling, Cancelled} then decision == Raise(TerminalRun)
            else decision.Write?
  {
    if KnownAttempt(r, id) {
      hide DecideObserve;
      var i :| 0 <= i < |r.attempts| && r.attempts[i].id == id;
      assert NumberedAt(r, i);
      FindByNumber(r, i);
      if expected.Some? && expected.value != r.generation {
        StaleIsRefused(r, id, status, d, expected, now);
      } else if LastAndActive(r, id) {
        assert NumberedAt(r, |r.attempts| - 1);
        ObserveLast(r, status, d, expected, now);
      } else {
        OverIsRefused(r, id, status, d, expected, now);
      }
    } else {
      FindNone(r.attempts, id);
    }
  }

  /**
   * What an observation writes: the last attempt takes the status and the instant, and
   * those of the references, the cleanup and the error that the observation brings; its step
   * and the run show it; every other part of the record stays.
   */
  lemma {:induction false} ObservationTells(r: ProductRun, id: AttemptId, status: AttemptStatus, d: Details, expected: Option<nat>, now: nat)
    requires Numbered(r) && Frozen(r) && Fresh(r, now)
    requires DecideObserve(r, id, status, d, expected, now).Write?
    ensures LastAndActive(r, id)
    ensures var u, n := DecideObserve(r, id, status, d, expected, now).updated, |r.attempts| - 1;
            && |u.attempts| == |r.attempts| && u.attempts[..n] == r.attempts[..n]
            && u.attempts[n].status == status && u.attempts[n].observedAt == now
            && u.attempts[n].refs == (if d.refs.Some? then d.refs.value else r.attempts[n].refs)
            && u.attempts[n].cleanupConfirmed == (if d.cleanup.Some? then d.cleanup.value else r.attempts[n].cleanupConfirmed)
            && u.attempts[n].error == (if d.error.Some? then d.error else r.attempts[n].error)
            && u.attempts[n].id == id && u.attempts[n].stepId == r.attempts[n].stepId
            && u.attempts[n].runId == r.attempts[n].runId && u.attempts[n].number == r.attempts[n].number
            && u.attempts[n].createdAt == r.attempts[n].createdAt
    ensures var u, s := DecideObserve(r, id, status, d, expected, now).updated, r.attempts[|r.attempts| - 1].stepId;
            && s in u.stepStatuses && StepShows(status, u.stepStatuses[s])
            && u.stepStatuses == r.stepStatuses[s := u.stepStatuses[s]]
            && RunShows(r.observed, status, u.observed)
            && u == r.(attempts := u.attempts, stepStatuses := u.stepStatuses, observed := u.observed)
  {
    ObserveWritesIff(r, id, status, d, expected, now);
  }

  /** A request to cancel changes a nonterminal run only, and only what it asks for. */
  lemma CancelsIff(r: ProductRun)
    ensures DecideCancel(r) ==
            if r.observed in {PlanSucceeded, PlanFailed, PlanBlocked, PlanCancelled} then Keep
            else Write(r.(desired := WantCancelled, observed := CancelRequested))
  {
  }

  // ----- The lookups behind the record -----

  /** a is the last attempt of the step. */
  ghost predicate IsLastOf(attempts: seq<Attempt>, stepId: string, a: Attempt) {
    exists i :: 0 <= i < |attempts| && attempts[i] == a && a.stepId == stepId && NoneAfter(attempts, stepId, i)
  }

  predicate NoneAfter(attempts: seq<Attempt>, stepId: string, i: int) {
    forall j | 0 <= j < |attempts| && j > i :: attempts[j].stepId != stepId
  }

  lemma {:induction false} LastOfIs(attempts: seq<Attempt>, stepId: string)
    ensures LastOf(attempts, stepId).None? <==> NoneAfter(attempts, stepId, -1)
    ensures LastOf(attempts, stepId).Some? ==> IsLastOf(attempts, stepId, LastOf(attempts, stepId).value)
  {
    if attempts != [] {
      var n := |attempts| - 1;
      LastOfIs(attempts[..n], stepId);
      if attempts[n].stepId == stepId {
        assert NoneAfter(attempts, stepId, n);
      } else if LastOf(attempts[..n], stepId).Some? {
        var i :| 0 <= i < n && attempts[..n][i] == LastOf(attempts[..n], stepId).value && NoneAfter(attempts[..n], stepId, i);
        assert NoneAfter(attempts, stepId, i);
      }
    }
  }

  /** The attempts that count against a step's retry bound. */
  function OfStep(attempts: seq<Attempt>, stepId: string): set<nat> {
    set i: nat | i < |attempts| && attempts[i].stepId == stepId
  }

  lemma {:induction false} AttemptsAreCounted(attempts: seq<Attempt>, stepId: string)
    ensures AttemptsForStep(attempts, stepId) == |OfStep(attempts, stepId)|
  {
    if attempts == [] {
      assert OfStep(attempts, stepId) == {};
    } else {
      var n := |attempts| - 1;
      AttemptsAreCounted(attempts[..n], stepId);
      if attempts[n].stepId == stepId {
        assert OfStep(attempts, stepId) == OfStep(attempts[..n], stepId) + {n};
      } else {
        assert OfStep(attempts, stepId) == OfStep(attempts[..n], stepId);
      }
    }
  }

  /**
   * What a step shows on a reachable record: nothing if it was never attempted, else what
   * its last attempt came to; only a just-started attempt shows as running.
   */
  lemma StepStatusesTell(plan: ExecutionPlan, r: ProductRun, stepId: string)
    requires Inv(plan, r)
    ensures stepId !in r.stepStatuses <==> OfStep(r.attempts, stepId) == {}
    ensures stepId in r.stepStatuses ==>
              && LastOf(r.attempts, stepId).Some?
              && var last := LastOf(r.attempts, stepId).value;
                 IsLastOf(r.attempts, stepId, last)
                 && (StepShows(last.status, r.stepStatuses[stepId]) || (last.status.Pending? && r.stepStatuses[stepId].StepRunning?))
  {
    assert StepMatches(r, stepId);
    LastOfIs(r.attempts, stepId);
    if LastOf(r.attempts, stepId).Some? {
      var i := LastOfIndex(r.attempts, stepId);
      assert i in OfStep(r.attempts, stepId);
    } else {
      assert OfStep(r.attempts, stepId) == {};
    }
  }

  /** A dictionary of the attempts holds, under each identity, the last attempt that has it. */
  lemma {:induction false} LookupIsLast(attempts: seq<Attempt>, id: AttemptId)
    ensures Lookup(attempts, id).None? <==> forall i | 0 <= i < |attempts| :: attempts[i].id != id
    ensures Lookup(attempts, id).Some? ==>
              exists i :: 0 <= i < |attempts| && attempts[i] == Lookup(attempts, id).value && attempts[i].id == id
                          && forall j | i < j < |attempts| :: attempts[j].id != id
  {
    if attempts != [] {
      var n := |attempts| - 1;
      LookupIsLast(attempts[..n], id);
      if attempts[n].id != id {
        assert forall i | 0 <= i < n :: attempts[..n][i] == attempts[i];
        if Lookup(attempts[..n], id).Some? {
          var i :| 0 <= i < n && attempts[..n][i] == Lookup(attempts[..n], id).value && attempts[..n][i].id == id
                   && forall j | i < j < n :: attempts[..n][j].id != id;
          assert attempts[i] == Lookup(attempts, id).value;
          forall j | i < j < |attempts| ensures attempts[j].id != id {
            if j < n { assert attempts[..n][j].id != id; }
          }
        }
      }
    }
  }
}
