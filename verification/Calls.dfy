/**
 * What a control-plane call records, answer by answer: the attempt, its references and its
 * cleanup, the run, and what the call returns or raises.
 */
module ControlPlaneCalls {
  import opened Prelude
  import opened Plans
  import opened Lifecycle
  import opened LifecycleInvariant
  import opened LifecycleProgress
  import opened LifecycleTransitions
  import opened ControlPlane
  import D = Driver
  import R = Runtime

  /** The statuses of a session and of the attempt that records it. */
  predicate ReadsAs(session: R.TrainingStatus, attempt: AttemptStatus) {
    && (attempt.Succeeded? <==> session.SCompleted?) && (attempt.Failed? <==> session.SFailed?)
    && (attempt.Cancelled? <==> session.SCancelled?) && (attempt.Lost? <==> session.SLost? || session.SAwaitingRetry?)
    && (attempt.Running? <==> session.SRunning?) && (attempt.Pending? <==> session.SQueued?)
    && (attempt.Cancelling? <==> session.SCancelling?)
  }

  /** The driver's run goes on with an attempt that is not over. */
  ghost predicate Ongoing(plan: ExecutionPlan, d: D.Driver) {
    D.DriverInv(plan, d) && !d.run.Terminal() && d.run.attempts != [] && !NoActiveAttempt(d.run)
  }

  function Last(r: ProductRun): Attempt
    requires r.attempts != []
  {
    r.attempts[|r.attempts| - 1]
  }

  /** v is r with its last attempt observed and every other one as it was. */
  predicate OnlyLastMoves(r: ProductRun, v: ProductRun) {
    && r.attempts != [] && |v.attempts| == |r.attempts| && v.attempts[..|r.attempts| - 1] == r.attempts[..|r.attempts| - 1]
    && Last(v).id == Last(r).id && Last(v).stepId == Last(r).stepId
  }

  /** Reporting an outcome of the last, active attempt is stored and returned. */
  lemma {:induction false} ReportTells(plan: ExecutionPlan, d: D.Driver, status: AttemptStatus, details: Details)
    requires Inv(plan, d.run) && Fresh(d.run, d.clock) && !d.run.Terminal() && d.run.attempts != [] && !NoActiveAttempt(d.run)
    ensures var o := Reported(plan, d, Last(d.run).id, status, details);
            && o.reply == Ok(o.driver.run) && o.driver.launches == d.launches && o.driver.memory == d.memory
            && OnlyLastMoves(d.run, o.driver.run) && o.driver.run.desired == d.run.desired
            && Last(o.driver.run).status == status
            && Last(o.driver.run).refs == (if details.refs.Some? then details.refs.value else Last(d.run).refs)
            && Last(o.driver.run).cleanupConfirmed == (if details.cleanup.Some? then details.cleanup.value else Last(d.run).cleanupConfirmed)
            && Last(o.driver.run).error == (if details.error.Some? then details.error else Last(d.run).error)
            && RunShows(d.run.observed, status, o.driver.run.observed)
  {
    hide DecideObserve, Inv;
    var id := Last(d.run).id;
    InvNumbers(plan, d.run);
    ObservesIff(d.run, id, status, details, None, d.clock);
    ObservationTells(d.run, id, status, details, None, d.clock);
  }

  lemma InvNumbers(plan: ExecutionPlan, r: ProductRun)
    requires Inv(plan, r)
    ensures Numbered(r) && Frozen(r)
  {
  }

  // ----- Polling -----

  /** The attempt has a session to ask: one remembered, or its first durable reference. */
  predicate HasSession(d: D.Driver, x: Attempt) {
    x.id in d.memory || x.refs != []
  }

  /** The session of an attempt is its own. */
  lemma OwnSession(plan: ExecutionPlan, d: D.Driver)
    requires Ongoing(plan, d)
    ensures var x := Last(d.run);
            && FindAttempt(d.run.attempts, x.id) == Some(x)
            && D.SessionOf(d, x) == if HasSession(d, x) then Some(x.id) else None
  {
    var n := |d.run.attempts| - 1;
    assert NumberedAt(d.run, n);
    FindByNumber(d.run, n);
    assert D.RefsOwn(d.run.attempts[n]);
  }

  lemma PollIsReport(plan: ExecutionPlan, d: D.Driver, a: Answers)
    requires Ongoing(plan, d) && HasSession(d, Last(d.run))
    requires a.polled.EngineReply? && a.polled.session == Last(d.run).id
    ensures var x := Last(d.run);
            Watched(plan, d, x.id, a) ==
            Reported(plan, D.Remember(d, x.id, x.id), x.id, R.AttemptStatusOf(a.polled.status), Details(Some([x.id]), None, a.polled.error))
  {
    OwnSession(plan, d);
    hide Reported, Ongoing;
  }

  /**
   * What a poll records: its own session's status as that session has it, under a reference
   * to that session. An error of the engine records nothing.
   */
  lemma {:induction false} PollRecords(plan: ExecutionPlan, d: D.Driver, a: Answers)
    requires Ongoing(plan, d) && HasSession(d, Last(d.run))
    requires a.polled.EngineReply? && a.polled.session == Last(d.run).id
    ensures var o, x := Watched(plan, d, Last(d.run).id, a), Last(d.run);
            && o.reply == Ok(o.driver.run) && OnlyLastMoves(d.run, o.driver.run)
            && ReadsAs(a.polled.status, Last(o.driver.run).status)
            && Last(o.driver.run).refs == [x.id] && Last(o.driver.run).cleanupConfirmed == x.cleanupConfirmed
            && Last(o.driver.run).error == (if a.polled.error.Some? then a.polled.error else x.error)
            && RunShows(d.run.observed, Last(o.driver.run).status, o.driver.run.observed)
            && o.driver.run.desired == d.run.desired && o.driver.launches == d.launches
            && o.driver.memory == d.memory[x.id := x.id]
  {
    hide Inv, Reported, Watched, D.RunRefs, D.ThreadsOk, D.TokensOk, D.MemoryOk, HasSession, Unobservable, ConfirmsCancel;
    var x := Last(d.run);
    PollIsReport(plan, d, a);
    ReportTells(plan, D.Remember(d, x.id, x.id), R.AttemptStatusOf(a.polled.status), Details(Some([x.id]), None, a.polled.error));
  }

  /** The poll found no session, an unknown one, or another attempt's. */
  predicate Unobservable(d: D.Driver, x: Attempt, answer: EngineAnswer) {
    !HasSession(d, x) || answer.NoSession? || (answer.EngineReply? && answer.session != x.id)
  }

  /** Asking for cancellation leaves the attempts as they are. */
  lemma AskedStays(plan: ExecutionPlan, d: D.Driver)
    requires ValidPlan(plan) && Inv(plan, d.run) && Fresh(d.run, d.clock) && !d.run.Terminal()
    ensures var v := CancelAsked(plan, d);
            && Inv(plan, v.run) && Fresh(v.run, v.clock) && !v.run.Terminal() && v.run.desired == WantCancelled
            && v.run.attempts == d.run.attempts && v.launches == d.launches && v.memory == d.memory
  {
    if !d.run.desired.WantCancelled? {
      CancelsIff(d.run);
      D.CommitGrows(plan, d, RequestCancel);
    }
  }

  /** Why an attempt cannot be observed. */
  function Unseen(d: D.Driver, x: Attempt, answer: EngineAnswer): string {
    if !HasSession(d, x) then D.NoReference else if answer.NoSession? then D.NotObservable else D.Mismatched
  }

  /** The driver once the session of an attempt was looked up. */
  function LookedUp(d: D.Driver, x: Attempt): D.Driver {
    if HasSession(d, x) then D.Remember(d, x.id, x.id) else d
  }

  lemma UnseenIsQuarantined(plan: ExecutionPlan, d: D.Driver, a: Answers)
    requires Ongoing(plan, d) && Unobservable(d, Last(d.run), a.polled)
    ensures var x := Last(d.run);
            Watched(plan, d, x.id, a) == Recorded(plan, LookedUp(d, x), D.Quarantining(x, Unseen(d, x, a.polled)))
  {
    OwnSession(plan, d);
    hide Recorded;
  }

  lemma {:induction false} QuarantineTells(plan: ExecutionPlan, d: D.Driver, detail: string)
    requires ValidPlan(plan) && Inv(plan, d.run) && Fresh(d.run, d.clock)
    requires !d.run.Terminal() && d.run.attempts != [] && !NoActiveAttempt(d.run)
    ensures var o, x := Recorded(plan, d, D.Quarantining(Last(d.run), detail)), Last(d.run);
            && o.reply == Ok(o.driver.run) && OnlyLastMoves(d.run, o.driver.run)
            && Last(o.driver.run).status == Cancelling && !Last(o.driver.run).cleanupConfirmed
            && Last(o.driver.run).refs == x.refs
            && Last(o.driver.run).error == Some("EXECUTION_RECOVERY_UNAVAILABLE: " + (detail + D.QuarantineSuffix))
            && o.driver.run.desired == WantCancelled && o.driver.run.observed == PlanCancelling
            && o.driver.launches == d.launches
  {
    AskedStays(plan, d);
    hide Inv, Reported, CancelAsked;
    ReportTells(plan, CancelAsked(plan, d), Cancelling, D.QuarantineReport(Last(d.run), detail).details);
  }

  /**
   * An attempt that cannot be observed is quarantined: cancellation is asked for, and the
   * attempt is CANCELLING with its references kept and its cleanup unconfirmed.
   */
  lemma {:induction false} PollQuarantines(plan: ExecutionPlan, d: D.Driver, a: Answers)
    requires Ongoing(plan, d) && Unobservable(d, Last(d.run), a.polled)
    ensures var o, x := Watched(plan, d, Last(d.run).id, a), Last(d.run);
            && o.reply == Ok(o.driver.run) && OnlyLastMoves(d.run, o.driver.run)
            && Last(o.driver.run).status == Cancelling && !Last(o.driver.run).cleanupConfirmed
            && Last(o.driver.run).refs == x.refs
            && Last(o.driver.run).error == Some("EXECUTION_RECOVERY_UNAVAILABLE: " + (Unseen(d, x, a.polled) + D.QuarantineSuffix))
            && o.driver.run.desired == WantCancelled && o.driver.run.observed == PlanCancelling
            && o.driver.launches == d.launches
  {
    hide Inv, Recorded, Watched;
    UnseenIsQuarantined(plan, d, a);
    QuarantineTells(plan, LookedUp(d, Last(d.run)), Unseen(d, Last(d.run), a.polled));
  }

  lemma PollRaises(plan: ExecutionPlan, d: D.Driver, a: Answers)
    requires Ongoing(plan, d) && HasSession(d, Last(d.run)) && a.polled.EngineRaises?
    ensures var o := Watched(plan, d, Last(d.run).id, a);
            o.reply == Err(EngineFailed) && o.driver == d.(memory := d.memory[Last(d.run).id := Last(d.run).id])
  {
    OwnSession(plan, d);
  }

  // ----- Cancelling -----

  /** The engine says that the attempt's own session is cancelled. */
  predicate ConfirmsCancel(x: Attempt, answer: EngineAnswer) {
    answer.EngineReply? && answer.session == x.id && answer.status == R.SCancelled
  }

  /** Why a cancellation is not confirmed: the engine's own error, if it gives one. */
  function WhyUnconfirmed(d: D.Driver, x: Attempt, answer: EngineAnswer): string
    requires HasSession(d, x) ==> !answer.EngineRaises?
  {
    if !HasSession(d, x) then NothingToCancel
    else if answer.NoSession? then D.NotCancellable
    else if answer.session != x.id then D.Mismatched
    else if answer.error.Some? then answer.error.value else D.CleanupUnconfirmed
  }

  lemma CancelIsRecord(plan: ExecutionPlan, d: D.Driver, a: Answers)
    requires Ongoing(plan, d) && (HasSession(d, Last(d.run)) ==> !a.cancelled.EngineRaises?)
    ensures var x := Last(d.run);
            Stopped(plan, d, x.id, a) ==
            if HasSession(d, x) && ConfirmsCancel(x, a.cancelled)
            then Reported(plan, LookedUp(d, x), x.id, Cancelled, Details(Some([x.id]), Some(true), a.cancelled.error))
            else Recorded(plan, LookedUp(d, x), D.Unconfirmed(x, WhyUnconfirmed(d, x, a.cancelled)))
  {
    OwnSession(plan, d);
    hide Reported, Ongoing, D.Unconfirmed;
  }

  lemma {:induction false} ConfirmedTells(plan: ExecutionPlan, d: D.Driver, error: Option<string>)
    requires ValidPlan(plan) && Inv(plan, d.run) && Fresh(d.run, d.clock)
    requires !d.run.Terminal() && d.run.attempts != [] && !NoActiveAttempt(d.run)
    ensures var x := Last(d.run);
            var o := Reported(plan, d, x.id, Cancelled, Details(Some([x.id]), Some(true), error));
            && o.reply == Ok(o.driver.run) && OnlyLastMoves(d.run, o.driver.run) && o.driver.launches == d.launches
            && o.driver.run.desired == d.run.desired
            && Last(o.driver.run).status == Cancelled && Last(o.driver.run).cleanupConfirmed
            && Last(o.driver.run).refs == [x.id] && o.driver.run.observed == CancelRequested
  {
    hide Inv, Reported;
    ReportTells(plan, d, Cancelled, Details(Some([Last(d.run).id]), Some(true), error));
  }

  lemma {:induction false} UnconfirmedTells(plan: ExecutionPlan, d: D.Driver, detail: string)
    requires ValidPlan(plan) && Inv(plan, d.run) && Fresh(d.run, d.clock)
    requires !d.run.Terminal() && d.run.attempts != [] && !NoActiveAttempt(d.run)
    ensures var o, x := Recorded(plan, d, D.Unconfirmed(Last(d.run), detail)), Last(d.run);
            && o.reply == Ok(o.driver.run) && OnlyLastMoves(d.run, o.driver.run) && o.driver.launches == d.launches
            && o.driver.run.desired == d.run.desired
            && Last(o.driver.run).status == Cancelling && !Last(o.driver.run).cleanupConfirmed
            && Last(o.driver.run).refs == x.refs
            && Last(o.driver.run).error == Some("EXECUTION_RECOVERY_UNAVAILABLE: " + detail)
            && (o.driver.run != d.run ==> o.driver.run.observed == PlanCancelling)
  {
    hide Inv, Reported;
    ReportTells(plan, d, Cancelling, Details(Some(Last(d.run).refs), Some(false), Some(D.RecoveryError(detail))));
  }

  /**
   * What a cancellation records: CANCELLED with confirmed cleanup exactly when the engine
   * says so of the attempt's own session; in every other answer the attempt is CANCELLING
   * and its cleanup unconfirmed.
   */
  lemma {:induction false} CancelRecords(plan: ExecutionPlan, d: D.Driver, a: Answers)
    requires Ongoing(plan, d) && (HasSession(d, Last(d.run)) ==> !a.cancelled.EngineRaises?)
    ensures var o, x := Stopped(plan, d, Last(d.run).id, a), Last(d.run);
            && o.reply == Ok(o.driver.run) && OnlyLastMoves(d.run, o.driver.run) && o.driver.launches == d.launches
            && o.driver.run.desired == d.run.desired
            && if HasSession(d, x) && ConfirmsCancel(x, a.cancelled) then
                 && Last(o.driver.run).status == Cancelled && Last(o.driver.run).cleanupConfirmed
                 && Last(o.driver.run).refs == [x.id] && o.driver.run.observed == CancelRequested
               else
                 && Last(o.driver.run).status == Cancelling && !Last(o.driver.run).cleanupConfirmed
                 && Last(o.driver.run).refs == x.refs
                 && Last(o.driver.run).error == Some("EXECUTION_RECOVERY_UNAVAILABLE: " + WhyUnconfirmed(d, x, a.cancelled))
                 && (o.driver.run != d.run ==> o.driver.run.observed == PlanCancelling)
  {
    var x := Last(d.run);
    hide Inv, Reported, Stopped, D.RunRefs, D.ThreadsOk, D.TokensOk, D.MemoryOk, HasSession, ConfirmsCancel, RunShows;
    CancelIsRecord(plan, d, a);
    if HasSession(d, x) && ConfirmsCancel(x, a.cancelled) {
      ConfirmedTells(plan, LookedUp(d, x), a.cancelled.error);
    } else {
      UnconfirmedTells(plan, LookedUp(d, x), WhyUnconfirmed(d, x, a.cancelled));
    }
  }

  lemma CancelRaises(plan: ExecutionPlan, d: D.Driver, a: Answers)
    requires Ongoing(plan, d) && HasSession(d, Last(d.run)) && a.cancelled.EngineRaises?
    ensures var o := Stopped(plan, d, Last(d.run).id, a);
            o.reply == Err(EngineFailed) && o.driver == d.(memory := d.memory[Last(d.run).id := Last(d.run).id])
  {
    OwnSession(plan, d);
  }

  // ----- Executing -----

  lemma ExecutionIsReport(plan: ExecutionPlan, d: D.Driver, x: Attempt, a: Answers)
    ensures Executed(plan, d, x, a) ==
            if !a.recovered then Outcome(d, Err(StateUnrecoverable))
            else if x.stepId == "training-preflight" then
              Reported(plan, d, x.id, if a.blocked then Blocked else Succeeded, NoDetails)
            else if x.stepId == "training-tiny-dry-run" || x.stepId == "training-execution" then
              match a.submitted
              case None => Outcome(d.(launches := d.launches + [x.id]), Err(EngineFailed))
              case Some(s) => Reported(plan, Launched(d, x), x.id, R.AttemptStatusOf(s.status), Details(Some([x.id]), None, s.error))
            else Outcome(d, Err(UnknownPlanStep))
  {
    hide Reported;
  }

  /**
   * What executing the last attempt records: preflight's verdict, or the status in which the
   * engine's new session came back. A state that cannot be recovered, another step, and an
   * engine that raises leave the record.
   */
  lemma {:induction false} ExecutionRecords(plan: ExecutionPlan, d: D.Driver, a: Answers)
    requires Ongoing(plan, d)
    ensures var x := Last(d.run);
            var o, v := Executed(plan, d, x, a), Executed(plan, d, x, a).driver;
            if !a.recovered then o == Outcome(d, Err(StateUnrecoverable))
            else if x.stepId == "training-preflight" then
              && o.reply == Ok(v.run) && OnlyLastMoves(d.run, v.run) && v.launches == d.launches
              && Last(v.run).status == (if a.blocked then Blocked else Succeeded) && Last(v.run).refs == x.refs
            else if x.stepId == "training-tiny-dry-run" || x.stepId == "training-execution" then
              && v.launches == d.launches + [x.id]
              && if a.submitted.None? then o.reply == Err(EngineFailed) && v.run == d.run
                 else
                   && o.reply == Ok(v.run) && OnlyLastMoves(d.run, v.run)
                   && ReadsAs(a.submitted.value.status, Last(v.run).status) && Last(v.run).refs == [x.id]
                   && v.memory == d.memory[x.id := x.id]
            else o == Outcome(d, Err(UnknownPlanStep))
  {
    hide Inv, Reported, Executed, D.RunRefs, D.ThreadsOk, D.TokensOk, D.MemoryOk, D.KindOf, RunShows;
    var x := Last(d.run);
    ExecutionIsReport(plan, d, x, a);
    if a.recovered && x.stepId == "training-preflight" {
      ReportTells(plan, d, if a.blocked then Blocked else Succeeded, NoDetails);
    } else if a.recovered && (x.stepId == "training-tiny-dry-run" || x.stepId == "training-execution") && a.submitted.Some? {
      var s := a.submitted.value;
      ReportTells(plan, Launched(d, x), R.AttemptStatusOf(s.status), Details(Some([x.id]), None, s.error));
    }
  }

  // ----- One reconcile -----

  /** The run takes a terminal status, at its next generation, and nothing else happens. */
  predicate Finalised(d: D.Driver, o: Outcome, status: PlanStatus) {
    && o.driver == d.(clock := d.clock + 1,
                      run := d.run.(observed := status, generation := d.run.generation + 1, updatedAt := d.clock))
    && o.reply == Ok(o.driver.run)
  }

  /** The driver after a PENDING attempt of the step was appended. */
  function Appending(d: D.Driver, stepId: string): D.Driver {
    var r, n := d.run, |d.run.attempts| + 1;
    d.(clock := d.clock + 1,
       run := r.(observed := PlanRunning,
                 attempts := r.attempts + [Attempt(AttemptId(r.runId, n), r.runId, n, stepId,
                                                   Pending, [], false, None, d.clock, d.clock)],
                 stepStatuses := r.stepStatuses[stepId := StepRunning],
                 generation := r.generation + 1, updatedAt := d.clock))
  }

  /** An attempt of the step is appended and executed, once the stored state is recovered. */
  predicate Begins(plan: ExecutionPlan, d: D.Driver, a: Answers, o: Outcome, stepId: string) {
    o == if !a.recovered then Outcome(d, Err(StateUnrecoverable))
         else Executed(plan, Appending(d, stepId), Last(Appending(d, stepId).run), a)
  }

  lemma FinalisesNow(plan: ExecutionPlan, d: D.Driver, status: PlanStatus)
    requires DecideTerminal(plan, d.run) == Write(d.run.(observed := status))
    ensures Finalised(d, Operated(plan, d, ApplyTerminalAction), status)
  {
    hide DecideTerminal;
  }

  lemma BeginsNow(plan: ExecutionPlan, d: D.Driver, a: Answers, stepId: string)
    requires DecideStart(plan, d.run, d.clock) == Write(Appending(d, stepId).run.(generation := d.run.generation, updatedAt := d.run.updatedAt))
    requires a.recovered
    ensures Begins(plan, d, a, StartedAndRun(plan, d, StartNextAttempt, a), stepId)
  {
    hide DecideStart, Executed;
    assert Operated(plan, d, StartNextAttempt).driver == Appending(d, stepId);
  }

  lemma ReconcileFinalises(plan: ExecutionPlan, d: D.Driver, a: Answers)
    requires var action := NextAction(plan, d.run);
             action.FinalizeSucceeded? || action.FinalizeFailed? || action.FinalizeBlocked? || action.FinalizeCancelled?
    ensures Reconciled(plan, d, a) == Operated(plan, d, ApplyTerminalAction)
  {
    hide NextAction, Operated;
  }

  lemma ReconcileStarts(plan: ExecutionPlan, d: D.Driver, a: Answers)
    requires NextAction(plan, d.run).CreateAttempt? || NextAction(plan, d.run).RetryAttempt?
    ensures Reconciled(plan, d, a) ==
            if a.recovered then StartedAndRun(plan, d, StartNextAttempt, a) else Outcome(d, Err(StateUnrecoverable))
  {
    hide NextAction, StartedAndRun;
  }

  lemma ReconcileWaits(plan: ExecutionPlan, d: D.Driver, a: Answers)
    requires NextAction(plan, d.run).Wait? || NextAction(plan, d.run).RequestCancellation?
    ensures Reconciled(plan, d, a) ==
            match NextAction(plan, d.run)
            case Wait(None) => Outcome(d, Ok(d.run))
            case Wait(Some(id)) => Watched(plan, d, id, a)
            case RequestCancellation(_, id) => Stopped(plan, d, id, a)
  {
    hide NextAction, Watched, Stopped;
  }

  /** The step that is tried again, or else the first in the order that can begin. */
  predicate StepToBegin(plan: ExecutionPlan, r: ProductRun, stepId: string) {
    if LatestFailed(r) then stepId == Last(r).stepId
    else exists k :: 0 <= k < |Ordered(plan.steps).GetOr([])| && BeginsWith(plan, r, k) && Ordered(plan.steps).value[k].stepId == stepId
  }

  lemma {:induction false} NamesStep(plan: ExecutionPlan, r: ProductRun)
    requires ValidPlan(plan) && Inv(plan, r) && !r.Terminal()
    requires NextAction(plan, r).CreateAttempt? || NextAction(plan, r).RetryAttempt?
    ensures StepToBegin(plan, r, NextAction(plan, r).stepId)
  {
    hide NextAction, BeginsWith;
    ActionsReadHistory(plan, r);
    ActionsNameLatest(plan, r);
  }

  lemma {:induction false} BeginsStep(plan: ExecutionPlan, d: D.Driver, a: Answers) returns (stepId: string)
    requires ValidPlan(plan) && Inv(plan, d.run) && !d.run.Terminal()
    requires NextAction(plan, d.run).CreateAttempt? || NextAction(plan, d.run).RetryAttempt?
    ensures StepToBegin(plan, d.run, stepId) && Begins(plan, d, a, Reconciled(plan, d, a), stepId)
  {
    hide NextAction, DecideStart, Executed, StartedAndRun, StepToBegin, Inv;
    stepId := NextAction(plan, d.run).stepId;
    NamesStep(plan, d.run);
    StartsIff(plan, d.run, d.clock);
    ReconcileStarts(plan, d, a);
    if a.recovered { BeginsNow(plan, d, a, stepId); }
  }

  /**
   * One reconcile, read off the attempts: a run asked to stop has its active attempt
   * cancelled and is then CANCELLED; else a blocked step makes it BLOCKED, an active attempt
   * is polled, a failed one is tried again or makes it FAILED, the first step that can begin
   * is begun, and when every step has succeeded it is SUCCEEDED.
   */
  lemma {:induction false} ReconcileActs(plan: ExecutionPlan, d: D.Driver, a: Answers)
    requires D.DriverInv(plan, d) && !d.run.Terminal()
    ensures var r, o := d.run, Reconciled(plan, d, a);
            if r.desired.WantCancelled? then
              if !NoActiveAttempt(r) then o == Stopped(plan, d, Last(r).id, a)
              else if CancelledUnconfirmed(r) then o == Watched(plan, d, Last(r).id, a)
              else Finalised(d, o, PlanCancelled)
            else if SomeStepBlocked(r) then Finalised(d, o, PlanBlocked)
            else if !NoActiveAttempt(r) then o == Watched(plan, d, Last(r).id, a)
            else if if LatestFailed(r) then MayRetry(plan, r, Last(r)) else SomeStepCanBegin(plan, r) then
              exists stepId :: StepToBegin(plan, r, stepId) && Begins(plan, d, a, o, stepId)
            else if LatestFailed(r) then Finalised(d, o, PlanFailed)
            else if EveryStepSucceeded(plan, r) then Finalised(d, o, PlanSucceeded)
            else o == Outcome(d, Ok(r))
  {
    var r, action := d.run, NextAction(plan, d.run);
    hide NextAction, Reconciled, Watched, Stopped, DecideTerminal, Operated, StepToBegin, Begins, Finalised, Inv,
         SomeStepCanBegin, EveryStepSucceeded, MayRetry, D.RunRefs, D.ThreadsOk, D.TokensOk, D.MemoryOk;
    ActionsReadHistory(plan, r);
    ActionsNameLatest(plan, r);
    if r.attempts != [] { LastIsNumbered(plan, r); }
    if action.CreateAttempt? || action.RetryAttempt? {
      var stepId := BeginsStep(plan, d, a);
    } else if action.Wait? || action.RequestCancellation? {
      ReconcileWaits(plan, d, a);
    } else {
      FinalisesIff(plan, r);
      ReconcileFinalises(plan, d, a);
      FinalisesNow(plan, d, DecideTerminal(plan, r).updated.observed);
    }
  }

  lemma LastIsNumbered(plan: ExecutionPlan, r: ProductRun)
    requires Inv(plan, r) && r.attempts != []
    ensures Last(r).id == AttemptId(r.runId, |r.attempts|)
  {
    assert NumberedAt(r, |r.attempts| - 1);
  }

  // ----- One resume -----

  /**
   * One explicit resume: without its checkpoint staged, for a run that is not FAILED,
   * CANCELLED or waiting for a retry, and for a step of no plan it raises and changes
   * nothing else; otherwise it makes the run active again and executes a new attempt of
   * that step.
   */
  lemma {:induction false} ResumeActs(plan: ExecutionPlan, d: D.Driver, stepId: string, staged: bool, a: Answers)
    requires Inv(plan, d.run)
    ensures var o, v := Resumed(plan, d, stepId, staged, a), Appending(d, stepId);
            if !staged then o == Outcome(d, Err(CheckpointMissing))
            else if d.run.observed !in {PlanFailed, PlanCancelled, AwaitingRetry} then
              o == Outcome(d.(clock := d.clock + 1), Err(Control(NotResumable)))
            else if stepId !in Ids(plan.steps) then o == Outcome(d.(clock := d.clock + 1), Err(Control(UnknownStep)))
            else
              var begun := v.(run := v.run.(desired := Active));
              o == Executed(plan, begun, Last(begun.run), a)
  {
    hide DecideResume, Executed;
    InvNumbers(plan, d.run);
    ResumesIff(plan, d.run, stepId, d.clock);
  }
}
