/**
 * The training control plane as one object over the lifecycle service: what each
 * undisturbed call leaves behind and returns or raises, and that it is a run of driver
 * events on one thread.
 */
module ControlPlane {
  import opened Prelude
  import opened Plans
  import opened Lifecycle
  import opened LifecycleInvariant
  import opened LifecycleTheorems
  import S = Store
  import D = Driver
  import R = Runtime

  /** NoSession is the engine's KeyError; EngineRaises any other error. */
  datatype EngineAnswer =
    | EngineReply(session: AttemptId, status: R.TrainingStatus, error: Option<string>)
    | NoSession
    | EngineRaises

  datatype Submission = Submission(status: R.TrainingStatus, error: Option<string>)

  /**
   * What a call meets: whether the stored spec and environment lock can be recovered, and
   * what preflight and the engine answer; a submission that is None raised.
   */
  datatype Answers = Answers(
    recovered: bool, blocked: bool, submitted: Option<Submission>, polled: EngineAnswer, cancelled: EngineAnswer)

  /** What a call raises. */
  datatype Failure = Control(error: Error) | StateUnrecoverable | UnknownPlanStep | EngineFailed | CheckpointMissing

  /** What a call leaves and what it returns or raises. */
  datatype Outcome = Outcome(driver: D.Driver, reply: Result<ProductRun, Failure>)

  // ----- What a call leaves behind -----

  function Loaded(d: D.Driver): Outcome {
    Outcome(d, Ok(d.run))
  }

  function Failed(d: D.Driver, f: Failure): Outcome {
    Outcome(d, Err(f))
  }

  /** One lifecycle operation on the stored run. */
  function Operated(plan: ExecutionPlan, d: D.Driver, op: Op): Outcome {
    var v := D.Commit(plan, d, op);
    match Decide(plan, d.run, op, d.clock)
    case Raise(e) => Failed(v, Control(e))
    case _ => Loaded(v)
  }

  function Reported(plan: ExecutionPlan, d: D.Driver, target: AttemptId, status: AttemptStatus, details: Details): Outcome {
    Operated(plan, d, ObserveAttempt(target, status, details, None))
  }

  function CancelAsked(plan: ExecutionPlan, d: D.Driver): D.Driver {
    if d.run.desired.WantCancelled? then d else D.Commit(plan, d, RequestCancel)
  }

  /** The outcome a call has found is recorded; a quarantine first asks for cancellation. */
  function Recorded(plan: ExecutionPlan, d: D.Driver, pc: D.Pc): Outcome {
    match pc
    case Reporting(target, status, details, _) => Reported(plan, d, target, status, details)
    case Quarantining(seen, detail) =>
      Reported(plan, CancelAsked(plan, d), seen.id, Cancelling, D.QuarantineReport(seen, detail).details)
    case _ => Loaded(d)
  }

  function PreflightPc(made: Attempt, a: Answers): D.Pc {
    D.Reporting(made.id, if a.blocked then Blocked else Succeeded, NoDetails, false)
  }

  function SubmittedPc(made: Attempt, s: Submission): D.Pc {
    D.Reporting(made.id, R.AttemptStatusOf(s.status), Details(Some([made.id]), None, s.error), false)
  }

  /** The engine was called. */
  function Called(d: D.Driver, made: Attempt): D.Driver {
    d.(launches := d.launches + [made.id])
  }

  /** The engine was called and its session is remembered. */
  function Launched(d: D.Driver, made: Attempt): D.Driver {
    D.Remember(Called(d, made), made.id, made.id)
  }

  /**
   * The spec and the lock come first; then preflight is evaluated here, engine steps are
   * submitted, and any other step raises.
   */
  function Executed(plan: ExecutionPlan, d: D.Driver, made: Attempt, a: Answers): Outcome {
    if !a.recovered then Failed(d, StateUnrecoverable)
    else match D.KindOf(made.stepId)
    case PreflightStep => Recorded(plan, d, PreflightPc(made, a))
    case EngineStep =>
      (match a.submitted
       case None => Failed(Called(d, made), EngineFailed)
       case Some(s) => Recorded(plan, Launched(d, made), SubmittedPc(made, s)))
    case OtherStep => Failed(d, UnknownPlanStep)
  }

  /** What a poll's answer leaves to record. */
  function PolledPc(seen: Attempt, session: AttemptId, answer: EngineAnswer): D.Pc
    requires !answer.EngineRaises?
  {
    match answer
    case NoSession => D.Quarantining(seen, D.NotObservable)
    case EngineReply(s, status, error) =>
      if s != session then D.Quarantining(seen, D.Mismatched)
      else D.Reporting(seen.id, R.AttemptStatusOf(status), Details(Some([s]), None, error), false)
  }

  function Watched(plan: ExecutionPlan, d: D.Driver, target: AttemptId, a: Answers): Outcome {
    match FindAttempt(d.run.attempts, target)
    case None => Failed(d, Control(UnknownAttempt))
    case Some(seen) =>
      match D.SessionOf(d, seen)
      case None => Recorded(plan, d, D.Quarantining(seen, D.NoReference))
      case Some(s) =>
        var v := D.Remember(d, seen.id, s);
        if a.polled.EngineRaises? then Failed(v, EngineFailed) else Recorded(plan, v, PolledPc(seen, s, a.polled))
  }

  /** What a cancellation's answer leaves to record. */
  function CancelledPc(seen: Attempt, session: AttemptId, answer: EngineAnswer): D.Pc
    requires !answer.EngineRaises?
  {
    match answer
    case NoSession => D.Unconfirmed(seen, D.NotCancellable)
    case EngineReply(s, status, error) =>
      if s != session then D.Unconfirmed(seen, D.Mismatched)
      else if status != R.SCancelled then D.Unconfirmed(seen, error.GetOr(D.CleanupUnconfirmed))
      else D.Reporting(seen.id, Cancelled, Details(Some([session]), Some(true), error), false)
  }

  const NothingToCancel := D.NoReference + "; cleanup is unconfirmed"

  function Stopped(plan: ExecutionPlan, d: D.Driver, target: AttemptId, a: Answers): Outcome {
    match FindAttempt(d.run.attempts, target)
    case None => Failed(d, Control(UnknownAttempt))
    case Some(seen) =>
      match D.SessionOf(d, seen)
      case None => Recorded(plan, d, D.Unconfirmed(seen, NothingToCancel))
      case Some(s) =>
        var v := D.Remember(d, seen.id, s);
        if a.cancelled.EngineRaises? then Failed(v, EngineFailed) else Recorded(plan, v, CancelledPc(seen, s, a.cancelled))
  }

  /** An appended attempt is executed; an operation that raises ends the call. */
  function StartedAndRun(plan: ExecutionPlan, d: D.Driver, op: Op, a: Answers): Outcome {
    var o := Operated(plan, d, op);
    if Decide(plan, d.run, op, d.clock).Write? && o.driver.run.attempts != []
    then Executed(plan, o.driver, o.driver.run.attempts[|o.driver.run.attempts| - 1], a) else o
  }

  function Acted(plan: ExecutionPlan, d: D.Driver, pc: D.Pc, a: Answers): Outcome {
    match pc
    case Finalizing => Operated(plan, d, ApplyTerminalAction)
    case Waiting(target) => Watched(plan, d, target, a)
    case CancelDecided(target) => Stopped(plan, d, target, a)
    case Starting =>
      if a.recovered then StartedAndRun(plan, d, StartNextAttempt, a) else Failed(d, StateUnrecoverable)
    case _ => Loaded(d)
  }

  function Reconciled(plan: ExecutionPlan, d: D.Driver, a: Answers): Outcome {
    var action := NextAction(plan, d.run);
    if action.RaisesUnknownStep? then Failed(d, Control(UnknownStep)) else Acted(plan, d, D.DecidedPc(action), a)
  }

  /** A resume needs its checkpoint staged before it appends an attempt. */
  function Resumed(plan: ExecutionPlan, d: D.Driver, stepId: string, staged: bool, a: Answers): Outcome {
    if !staged then Failed(d, CheckpointMissing) else StartedAndRun(plan, d, ResumeAttempt(stepId), a)
  }

  /** v is d after an appending operation, and made what it returned or raised. */
  predicate Made(plan: ExecutionPlan, d: D.Driver, op: Op, v: D.Driver, made: Result<Attempt, Failure>) {
    var o := Operated(plan, d, op);
    && v == o.driver
    && (made.Err? ==> o == Failed(v, made.error))
    && (made.Ok? ==> Decide(plan, d.run, op, d.clock).Write? && v.run.attempts != []
                     && v.run.attempts[|v.run.attempts| - 1] == made.value)
  }

  // ----- The store underneath -----

  /** The store holds this run with its plan, and the run is as its invariant says. */
  ghost predicate Holds(st: S.StoreState, runId: string, clock: nat) {
    && runId in st.runs && st.runs[runId].runId == runId
    && st.runs[runId].planId in st.plans && ValidPlan(st.plans[st.runs[runId].planId])
    && Inv(st.plans[st.runs[runId].planId], st.runs[runId]) && Fresh(st.runs[runId], clock)
  }

  /** What one operation makes of the run, and what the service returns for it. */
  function OperationReply(plan: ExecutionPlan, r: ProductRun, op: Op, now: nat): Result<ProductRun, Error> {
    match Decide(plan, r, op, now)
    case Raise(e) => Err(e)
    case _ => Ok(Apply(plan, r, Event(op, now, now)))
  }

  /** On such a store an atomic operation is the driver's commit; the history check never interferes. */
  lemma AtomicIsCommit(st: S.StoreState, runId: string, op: Op, now: nat)
    requires Holds(st, runId, now)
    ensures var r, plan := st.runs[runId], st.plans[st.runs[runId].planId];
            && S.Atomic(st, runId, op, now, now)
               == (st.(runs := st.runs[runId := Apply(plan, r, Event(op, now, now))]), OperationReply(plan, r, op, now))
            && Apply(plan, r, Event(op, now, now)).planId == r.planId
            && Holds(S.Atomic(st, runId, op, now, now).0, runId, now + 1)
  {
    var r, plan := st.runs[runId], st.plans[st.runs[runId].planId];
    ApplyKeeps(plan, r, Event(op, now, now));
    if Decide(plan, r, op, now).Write? {
      HistoryNeverRejected(plan, r, op, now);
      WriteExtends(plan, r, op, now);
      D.WriteGrows(plan, r, op, now, now + 1);
    } else {
      assert st.runs[runId := r] == st.runs;
    }
  }

  // ----- The object -----

  class TrainingControlPlane {
    const control: S.ProductControlPlane
    const runId: string
    var clock: nat
    var executionSessions: map<AttemptId, AttemptId>
    ghost var launches: seq<AttemptId>

    ghost predicate Valid()
      reads this, control.store
    {
      Holds(control.store.State(), runId, clock)
    }

    function Run(): ProductRun
      requires runId in control.store.runs
      reads this, control.store
    {
      control.store.runs[runId]
    }

    ghost function Plan(): ExecutionPlan
      requires Valid()
      reads this, control.store
    {
      control.store.plans[Run().planId]
    }

    ghost function View(): D.Driver
      requires Valid()
      reads this, control.store
    {
      D.Driver(Run(), clock, map[0 := D.Idle], executionSessions, launches)
    }

    /** Everything the store holds beside this run. */
    ghost function Others(): S.StoreState
      reads this, control.store
    {
      S.StoreState(control.store.plans, control.store.runs - {runId}, control.store.idempotency)
    }

    constructor (control: S.ProductControlPlane, runId: string, clock: nat)
      requires Holds(control.store.State(), runId, clock)
      ensures this.control == control && this.runId == runId && Valid()
      ensures View() == D.Driver(control.store.runs[runId], clock, map[0 := D.Idle], map[], [])
    {
      this.control, this.runId, this.clock, executionSessions, launches := control, runId, clock, map[], [];
    }

    method Observe(target: AttemptId, status: AttemptStatus, details: Details) returns (r: Result<ProductRun, Failure>)
      requires Valid()
      modifies this`clock, control.store
      ensures Valid() && Plan() == old(Plan()) && Others() == old(Others())
      ensures Outcome(View(), r) == Reported(Plan(), old(View()), target, status, details)
    {
      hide Decide, Inv, S.Atomic;
      AtomicIsCommit(control.store.State(), runId, ObserveAttempt(target, status, details, None), clock);
      var o := control.ObserveAttempt(runId, target, status, details, None, clock, clock);
      clock := clock + 1;
      return if o.Ok? then Ok(o.value) else Err(Control(o.error));
    }

    method AskForCancellation()
      requires Valid()
      modifies this`clock, control.store
      ensures Valid() && Plan() == old(Plan()) && Others() == old(Others())
      ensures View() == CancelAsked(Plan(), old(View()))
    {
      if !Run().desired.WantCancelled? {
        AtomicIsCommit(control.store.State(), runId, RequestCancel, clock);
        var _ := control.RequestCancel(runId, clock);
        clock := clock + 1;
      }
    }

    method Finalize() returns (r: Result<ProductRun, Failure>)
      requires Valid()
      modifies this`clock, control.store
      ensures Valid() && Plan() == old(Plan()) && Others() == old(Others())
      ensures Outcome(View(), r) == Operated(Plan(), old(View()), ApplyTerminalAction)
    {
      AtomicIsCommit(control.store.State(), runId, ApplyTerminalAction, clock);
      var o := control.ApplyTerminalAction(runId, clock);
      clock := clock + 1;
      return if o.Ok? then Ok(o.value) else Err(Control(o.error));
    }

    /** Mark an execution that cannot be observed, after asking for cancellation. */
    method Quarantine(seen: Attempt, detail: string) returns (r: Result<ProductRun, Failure>)
      requires Valid()
      modifies this`clock, control.store
      ensures Valid() && Plan() == old(Plan()) && Others() == old(Others())
      ensures Outcome(View(), r) == Recorded(Plan(), old(View()), D.Quarantining(seen, detail))
    {
      AskForCancellation();
      r := Observe(seen.id, Cancelling,
                   Details(Some(seen.refs), Some(false), Some(D.RecoveryError(detail + D.QuarantineSuffix))));
    }

    /** An unconfirmed cancellation is recorded once per cause. */
    method RecordUnconfirmed(seen: Attempt, detail: string) returns (r: Result<ProductRun, Failure>)
      requires Valid()
      modifies this`clock, control.store
      ensures Valid() && Plan() == old(Plan()) && Others() == old(Others())
      ensures Outcome(View(), r) == Recorded(Plan(), old(View()), D.Unconfirmed(seen, detail))
    {
      if seen.status.Cancelling? && !seen.cleanupConfirmed && seen.error == Some(D.RecoveryError(detail)) {
        return Ok(Run());
      }
      r := Observe(seen.id, Cancelling, Details(Some(seen.refs), Some(false), Some(D.RecoveryError(detail))));
    }

    method ExecuteStep(made: Attempt, a: Answers) returns (r: Result<ProductRun, Failure>)
      requires Valid()
      modifies this, control.store
      ensures Valid() && Plan() == old(Plan()) && Others() == old(Others())
      ensures Outcome(View(), r) == Executed(Plan(), old(View()), made, a)
    {
      if !a.recovered {
        return Err(StateUnrecoverable);
      }
      var kind := D.KindOf(made.stepId);
      if kind.PreflightStep? {
        r := Observe(made.id, if a.blocked then Blocked else Succeeded, NoDetails);
      } else if kind.EngineStep? {
        launches := launches + [made.id];
        if a.submitted.None? {
          return Err(EngineFailed);
        }
        executionSessions := executionSessions[made.id := made.id];
        r := Observe(made.id, R.AttemptStatusOf(a.submitted.value.status),
                     Details(Some([made.id]), None, a.submitted.value.error));
      } else {
        return Err(UnknownPlanStep);
      }
    }

    /** The remembered session of an attempt, else its first durable reference, which is then remembered. */
    method SessionOf(seen: Attempt) returns (session: Option<AttemptId>)
      requires Valid()
      modifies this`executionSessions
      ensures Valid() && Plan() == old(Plan()) && Others() == old(Others())
      ensures session == D.SessionOf(old(View()), seen)
      ensures session == if seen.id in old(executionSessions) then Some(old(executionSessions)[seen.id])
                         else if seen.refs == [] then None else Some(seen.refs[0])
      ensures View() == if session.Some? then D.Remember(old(View()), seen.id, session.value) else old(View())
    {
      if seen.id in executionSessions {
        assert executionSessions[seen.id := executionSessions[seen.id]] == executionSessions;
        return Some(executionSessions[seen.id]);
      }
      if seen.refs == [] {
        return None;
      }
      executionSessions := executionSessions[seen.id := seen.refs[0]];
      return Some(seen.refs[0]);
    }

    method RecordPoll(seen: Attempt, session: AttemptId, answer: EngineAnswer) returns (r: Result<ProductRun, Failure>)
      requires Valid() && !answer.EngineRaises?
      modifies this`clock, control.store
      ensures Valid() && Plan() == old(Plan()) && Others() == old(Others())
      ensures Outcome(View(), r) == Recorded(Plan(), old(View()), PolledPc(seen, session, answer))
    {
      if answer.NoSession? {
        r := Quarantine(seen, D.NotObservable);
      } else if answer.session != session {
        r := Quarantine(seen, D.Mismatched);
      } else {
        r := Observe(seen.id, R.AttemptStatusOf(answer.status), Details(Some([answer.session]), None, answer.error));
      }
    }

    /** Poll the attempt's session, or quarantine an attempt that has none. */
    method ObserveExecution(target: AttemptId, a: Answers) returns (r: Result<ProductRun, Failure>)
      requires Valid()
      modifies this, control.store
      ensures Valid() && Plan() == old(Plan()) && Others() == old(Others())
      ensures Outcome(View(), r) == Watched(Plan(), old(View()), target, a)
    {
      var found := FindAttempt(Run().attempts, target);
      if found.None? {
        return Err(Control(UnknownAttempt));
      }
      var session := SessionOf(found.value);
      if session.None? {
        r := Quarantine(found.value, D.NoReference);
      } else if a.polled.EngineRaises? {
        return Err(EngineFailed);
      } else {
        r := RecordPoll(found.value, session.value, a.polled);
      }
    }

    method RecordCancellation(seen: Attempt, session: AttemptId, answer: EngineAnswer) returns (r: Result<ProductRun, Failure>)
      requires Valid() && !answer.EngineRaises?
      modifies this`clock, control.store
      ensures Valid() && Plan() == old(Plan()) && Others() == old(Others())
      ensures Outcome(View(), r) == Recorded(Plan(), old(View()), CancelledPc(seen, session, answer))
    {
      if answer.NoSession? {
        r := RecordUnconfirmed(seen, D.NotCancellable);
      } else if answer.session != session {
        r := RecordUnconfirmed(seen, D.Mismatched);
      } else if answer.status != R.SCancelled {
        r := RecordUnconfirmed(seen, answer.error.GetOr(D.CleanupUnconfirmed));
      } else {
        r := Observe(seen.id, Cancelled, Details(Some([session]), Some(true), answer.error));
      }
    }

    /** Cancel the attempt's session and record whether its cleanup is confirmed. */
    method CancelExecution(target: AttemptId, a: Answers) returns (r: Result<ProductRun, Failure>)
      requires Valid()
      modifies this, control.store
      ensures Valid() && Plan() == old(Plan()) && Others() == old(Others())
      ensures Outcome(View(), r) == Stopped(Plan(), old(View()), target, a)
    {
      var found := FindAttempt(Run().attempts, target);
      if found.None? {
        return Err(Control(UnknownAttempt));
      }
      var session := SessionOf(found.value);
      if session.None? {
        r := RecordUnconfirmed(found.value, NothingToCancel);
      } else if a.cancelled.EngineRaises? {
        return Err(EngineFailed);
      } else {
        r := RecordCancellation(found.value, session.value, a.cancelled);
      }
    }

    /** The next attempt, appended to the stored run. */
    method StartNext() returns (made: Result<Attempt, Failure>)
      requires Valid()
      modifies this`clock, control.store
      ensures Valid() && Plan() == old(Plan()) && Others() == old(Others())
      ensures Made(Plan(), old(View()), StartNextAttempt, View(), made)
    {
      hide NextAction, Inv, S.Atomic, Apply;
      AtomicIsCommit(control.store.State(), runId, StartNextAttempt, clock);
      var started := control.StartNextAttempt(runId, clock, clock);
      clock := clock + 1;
      return if started.Ok? then Ok(started.value) else Err(Control(started.error));
    }

    /** A further attempt of a step of a stopped run. */
    method ResumeNext(stepId: string) returns (made: Result<Attempt, Failure>)
      requires Valid()
      modifies this`clock, control.store
      ensures Valid() && Plan() == old(Plan()) && Others() == old(Others())
      ensures Made(Plan(), old(View()), ResumeAttempt(stepId), View(), made)
    {
      hide NextAction, Inv, S.Atomic, Apply;
      AtomicIsCommit(control.store.State(), runId, ResumeAttempt(stepId), clock);
      var resumed := control.ResumeAttempt(runId, stepId, clock, clock);
      clock := clock + 1;
      return if resumed.Ok? then Ok(resumed.value) else Err(Control(resumed.error));
    }

    /** Append the next attempt and execute it. */
    method StartAndExecute(a: Answers) returns (r: Result<ProductRun, Failure>)
      requires Valid()
      modifies this, control.store
      ensures Valid() && Plan() == old(Plan()) && Others() == old(Others())
      ensures Outcome(View(), r) == StartedAndRun(Plan(), old(View()), StartNextAttempt, a)
    {
      var made := StartNext();
      if made.Err? {
        return Err(made.error);
      }
      r := ExecuteStep(made.value, a);
    }

    /** Resume a stopped run at a step, as a new attempt from a staged checkpoint. */
    method Resume(stepId: string, staged: bool, a: Answers) returns (r: Result<ProductRun, Failure>)
      requires Valid()
      modifies this, control.store
      ensures Valid() && Plan() == old(Plan()) && Others() == old(Others())
      ensures Outcome(View(), r) == Resumed(Plan(), old(View()), stepId, staged, a)
      ensures !staged ==> r == Err(CheckpointMissing) && View() == old(View())
    {
      if !staged {
        return Err(CheckpointMissing);
      }
      var made := ResumeNext(stepId);
      if made.Err? {
        return Err(made.error);
      }
      r := ExecuteStep(made.value, a);
    }

    method Act(action: Action, a: Answers) returns (r: Result<ProductRun, Failure>)
      requires Valid()
      modifies this, control.store
      ensures Valid() && Plan() == old(Plan()) && Others() == old(Others())
      ensures Outcome(View(), r) == Acted(Plan(), old(View()), D.DecidedPc(action), a)
    {
      hide Operated, Watched, Stopped, StartedAndRun;
      var current := Run();
      if action.FinalizeSucceeded? || action.FinalizeFailed? || action.FinalizeBlocked? || action.FinalizeCancelled? {
        r := Finalize();
      } else if action.Wait? && action.waitingOn.Some? {
        r := ObserveExecution(action.waitingOn.value, a);
      } else if action.RequestCancellation? {
        r := CancelExecution(action.attemptId, a);
      } else if action.CreateAttempt? || action.RetryAttempt? {
        if !a.recovered {
          return Err(StateUnrecoverable);
        }
        r := StartAndExecute(a);
      } else {
        r := Ok(current);
      }
    }

    /** One product action; callers decide the cadence. */
    method ReconcileOnce(a: Answers) returns (r: Result<ProductRun, Failure>)
      requires Valid()
      modifies this, control.store
      ensures Valid() && Plan() == old(Plan()) && Others() == old(Others())
      ensures Outcome(View(), r) == Reconciled(Plan(), old(View()), a)
    {
      var action := control.NextActionOf(runId);
      if action.Err? {
        return Err(Control(action.error));
      }
      r := Act(action.value, a);
    }
  }

  // ----- A call is a run of driver events -----

  predicate Quiet(d: D.Driver) {
    d.threads == map[0 := D.Idle]
  }

  /** u is d after the events, standing at pc with nothing else changed since base. */
  predicate Stands(plan: ExecutionPlan, d: D.Driver, events: seq<D.DriverEvent>, base: D.Driver, pc: D.Pc) {
    Quiet(base) && D.Exec(plan, d, events) == D.Goto(base, 0, pc)
  }

  lemma Then(plan: ExecutionPlan, d: D.Driver, events: seq<D.DriverEvent>, base: D.Driver, pc: D.Pc, e: D.DriverEvent,
             next: D.Driver, npc: D.Pc) returns (more: seq<D.DriverEvent>)
    requires Stands(plan, d, events, base, pc) && Quiet(next)
    requires D.Next(plan, D.Goto(base, 0, pc), e) == D.Goto(next, 0, npc)
    ensures Stands(plan, d, more, next, npc)
  {
    more := events + [e];
    assert more[..|more| - 1] == events;
  }

  lemma Again(base: D.Driver, pc: D.Pc, next: D.Pc)
    ensures D.Goto(D.Goto(base, 0, pc), 0, next) == D.Goto(base, 0, next)
  {
    assert base.threads[0 := pc][0 := next] == base.threads[0 := next];
  }

  /** A commit leaves the threads alone, so it can be taken from wherever the thread stands. */
  lemma CommitElsewhere(plan: ExecutionPlan, base: D.Driver, pc: D.Pc, op: Op, next: D.Pc)
    ensures D.Goto(D.Commit(plan, D.Goto(base, 0, pc), op), 0, next) == D.Goto(D.Commit(plan, base, op), 0, next)
    ensures D.Commit(plan, base, op).threads == base.threads
  {
    assert base.threads[0 := pc][0 := next] == base.threads[0 := next];
  }

  lemma ReportRun(plan: ExecutionPlan, d: D.Driver, events: seq<D.DriverEvent>, base: D.Driver, pc: D.Pc)
    returns (more: seq<D.DriverEvent>)
    requires Stands(plan, d, events, base, pc) && pc.Reporting?
    ensures Stands(plan, d, more, Reported(plan, base, pc.target, pc.status, pc.details).driver, D.Idle)
  {
    hide Apply;
    CommitElsewhere(plan, base, pc, ObserveAttempt(pc.target, pc.status, pc.details, None), D.Idle);
    more := Then(plan, d, events, base, pc, D.Report(0), Reported(plan, base, pc.target, pc.status, pc.details).driver, D.Idle);
  }

  lemma CheckRun(plan: ExecutionPlan, d: D.Driver, events: seq<D.DriverEvent>, base: D.Driver, seen: Attempt, detail: string)
    returns (more: seq<D.DriverEvent>)
    requires Stands(plan, d, events, base, D.Quarantining(seen, detail))
    ensures Stands(plan, d, more, base, if base.run.desired.WantCancelled? then D.QuarantineReport(seen, detail)
                                        else D.QuarantineCancelling(seen, detail))
  {
    hide D.Next;
    var next := if base.run.desired.WantCancelled? then D.QuarantineReport(seen, detail) else D.QuarantineCancelling(seen, detail);
    D.NextMoves(plan, D.Goto(base, 0, D.Quarantining(seen, detail)), D.QuarantineCheck(0));
    Again(base, D.Quarantining(seen, detail), next);
    more := Then(plan, d, events, base, D.Quarantining(seen, detail), D.QuarantineCheck(0), base, next);
  }

  lemma AskRun(plan: ExecutionPlan, d: D.Driver, events: seq<D.DriverEvent>, base: D.Driver, seen: Attempt, detail: string)
    returns (more: seq<D.DriverEvent>)
    requires Stands(plan, d, events, base, D.QuarantineCancelling(seen, detail))
    ensures Stands(plan, d, more, D.Commit(plan, base, RequestCancel), D.QuarantineReport(seen, detail))
  {
    hide Apply;
    CommitElsewhere(plan, base, D.QuarantineCancelling(seen, detail), RequestCancel, D.QuarantineReport(seen, detail));
    more := Then(plan, d, events, base, D.QuarantineCancelling(seen, detail), D.QuarantineCancel(0),
                 D.Commit(plan, base, RequestCancel), D.QuarantineReport(seen, detail));
  }

  /** Wherever a call has found an outcome, driver events record it. */
  lemma RecordRun(plan: ExecutionPlan, d: D.Driver, events: seq<D.DriverEvent>, base: D.Driver, pc: D.Pc)
    returns (more: seq<D.DriverEvent>)
    requires Stands(plan, d, events, base, pc) && (pc.Reporting? || pc.Quarantining? || pc.Idle?)
    ensures Stands(plan, d, more, Recorded(plan, base, pc).driver, D.Idle)
  {
    hide Apply;
    if pc.Reporting? {
      more := ReportRun(plan, d, events, base, pc);
    } else if pc.Quarantining? {
      more := CheckRun(plan, d, events, base, pc.seen, pc.detail);
      if !base.run.desired.WantCancelled? {
        more := AskRun(plan, d, more, base, pc.seen, pc.detail);
      }
      more := ReportRun(plan, d, more, CancelAsked(plan, base), D.QuarantineReport(pc.seen, pc.detail));
    } else {
      more := events;
    }
  }

  lemma PreflightRun(plan: ExecutionPlan, d: D.Driver, events: seq<D.DriverEvent>, base: D.Driver, made: Attempt, a: Answers)
    returns (more: seq<D.DriverEvent>)
    requires Stands(plan, d, events, base, D.Executing(made)) && D.KindOf(made.stepId).PreflightStep?
    ensures Stands(plan, d, more, base, PreflightPc(made, a))
  {
    hide D.Next;
    D.NextMoves(plan, D.Goto(base, 0, D.Executing(made)), D.Evaluate(0, a.blocked));
    Again(base, D.Executing(made), PreflightPc(made, a));
    more := Then(plan, d, events, base, D.Executing(made), D.Evaluate(0, a.blocked), base, PreflightPc(made, a));
  }

  lemma SubmitRun(plan: ExecutionPlan, d: D.Driver, events: seq<D.DriverEvent>, base: D.Driver, made: Attempt)
    returns (more: seq<D.DriverEvent>)
    requires Stands(plan, d, events, base, D.Executing(made)) && D.KindOf(made.stepId).EngineStep?
    ensures Stands(plan, d, more, Called(base, made), D.Submitting(made.id))
  {
    assert base.threads[0 := D.Executing(made)][0 := D.Submitting(made.id)] == base.threads[0 := D.Submitting(made.id)];
    more := Then(plan, d, events, base, D.Executing(made), D.Submit(0), Called(base, made), D.Submitting(made.id));
  }

  lemma SubmittedRun(plan: ExecutionPlan, d: D.Driver, events: seq<D.DriverEvent>, base: D.Driver, made: Attempt, s: Submission)
    returns (more: seq<D.DriverEvent>)
    requires Stands(plan, d, events, base, D.Submitting(made.id))
    ensures Stands(plan, d, more, D.Remember(base, made.id, made.id), SubmittedPc(made, s))
  {
    assert base.threads[0 := D.Submitting(made.id)][0 := SubmittedPc(made, s)] == base.threads[0 := SubmittedPc(made, s)];
    more := Then(plan, d, events, base, D.Submitting(made.id), D.SubmitReturned(0, s.status, s.error),
                 D.Remember(base, made.id, made.id), SubmittedPc(made, s));
  }

  /** An error the call does not catch ends it where it stands. */
  lemma RaisedRun(plan: ExecutionPlan, d: D.Driver, events: seq<D.DriverEvent>, base: D.Driver, pc: D.Pc)
    returns (more: seq<D.DriverEvent>)
    requires Stands(plan, d, events, base, pc)
    ensures Stands(plan, d, more, base, D.Idle)
  {
    Again(base, pc, D.Idle);
    more := Then(plan, d, events, base, pc, D.Raised(0), base, D.Idle);
  }

  lemma ExecuteRun(plan: ExecutionPlan, d: D.Driver, events: seq<D.DriverEvent>, base: D.Driver, made: Attempt, a: Answers)
    returns (more: seq<D.DriverEvent>)
    requires Stands(plan, d, events, base, D.Executing(made))
    ensures Stands(plan, d, more, Executed(plan, base, made, a).driver, D.Idle)
  {
    hide Recorded;
    if !a.recovered {
      more := RaisedRun(plan, d, events, base, D.Executing(made));
      return;
    }
    match D.KindOf(made.stepId) {
      case PreflightStep =>
        more := PreflightRun(plan, d, events, base, made, a);
        more := RecordRun(plan, d, more, base, PreflightPc(made, a));
      case EngineStep =>
        more := SubmitRun(plan, d, events, base, made);
        if a.submitted.None? {
          more := RaisedRun(plan, d, more, Called(base, made), D.Submitting(made.id));
        } else {
          more := SubmittedRun(plan, d, more, Called(base, made), made, a.submitted.value);
          more := RecordRun(plan, d, more, Launched(base, made), SubmittedPc(made, a.submitted.value));
        }
      case OtherStep => more := RaisedRun(plan, d, events, base, D.Executing(made));
    }
  }

  /** Where the read of a session takes the thread. */
  function ReadPc(base: D.Driver, seen: Attempt, poll: bool): D.Pc {
    match D.SessionOf(base, seen)
    case Some(s) => if poll then D.Polling(seen, s) else D.CancelCalling(seen, s)
    case None => if poll then D.Quarantining(seen, D.NoReference) else D.Unconfirmed(seen, NothingToCancel)
  }

  function ReadDriver(base: D.Driver, seen: Attempt): D.Driver {
    match D.SessionOf(base, seen)
    case Some(s) => D.Remember(base, seen.id, s)
    case None => base
  }

  lemma ReadsSession(base: D.Driver, pc: D.Pc, target: AttemptId, poll: bool)
    requires Quiet(base)
    ensures D.ReadSession(D.Goto(base, 0, pc), 0, target, poll) ==
            match FindAttempt(base.run.attempts, target)
            case None => D.Goto(base, 0, D.Idle)
            case Some(seen) => D.Goto(ReadDriver(base, seen), 0, ReadPc(base, seen, poll))
  {
    Again(base, pc, D.Idle);
    var found := FindAttempt(base.run.attempts, target);
    if found.Some? {
      var next := ReadPc(base, found.value, poll);
      assert base.threads[0 := pc][0 := next] == base.threads[0 := next];
    }
  }

  lemma PollRead(plan: ExecutionPlan, d: D.Driver, events: seq<D.DriverEvent>, base: D.Driver, target: AttemptId, seen: Attempt)
    returns (more: seq<D.DriverEvent>)
    requires Stands(plan, d, events, base, D.Waiting(target)) && FindAttempt(base.run.attempts, target) == Some(seen)
    ensures Stands(plan, d, more, ReadDriver(base, seen), ReadPc(base, seen, true))
  {
    hide Decide;
    ReadsSession(base, D.Waiting(target), target, true);
    more := Then(plan, d, events, base, D.Waiting(target), D.ReadForPoll(0), ReadDriver(base, seen), ReadPc(base, seen, true));
  }

  lemma CancelRead(plan: ExecutionPlan, d: D.Driver, events: seq<D.DriverEvent>, base: D.Driver, target: AttemptId, seen: Attempt)
    returns (more: seq<D.DriverEvent>)
    requires Stands(plan, d, events, base, D.CancelDecided(target)) && FindAttempt(base.run.attempts, target) == Some(seen)
    ensures Stands(plan, d, more, ReadDriver(base, seen), ReadPc(base, seen, false))
  {
    hide Decide;
    ReadsSession(base, D.CancelDecided(target), target, false);
    more := Then(plan, d, events, base, D.CancelDecided(target), D.ReadForCancel(0), ReadDriver(base, seen), ReadPc(base, seen, false));
  }

  lemma PollRun(plan: ExecutionPlan, d: D.Driver, events: seq<D.DriverEvent>, base: D.Driver, seen: Attempt, s: AttemptId, answer: EngineAnswer)
    returns (more: seq<D.DriverEvent>)
    requires Stands(plan, d, events, base, D.Polling(seen, s)) && !answer.EngineRaises?
    ensures Stands(plan, d, more, base, PolledPc(seen, s, answer))
  {
    hide D.Next;
    var e := if answer.NoSession? then D.PollUnknown(0) else D.PollReturned(0, answer.session, answer.status, answer.error);
    D.NextMoves(plan, D.Goto(base, 0, D.Polling(seen, s)), e);
    Again(base, D.Polling(seen, s), PolledPc(seen, s, answer));
    more := Then(plan, d, events, base, D.Polling(seen, s), e, base, PolledPc(seen, s, answer));
  }

  lemma CancelRun(plan: ExecutionPlan, d: D.Driver, events: seq<D.DriverEvent>, base: D.Driver, seen: Attempt, s: AttemptId, answer: EngineAnswer)
    returns (more: seq<D.DriverEvent>)
    requires Stands(plan, d, events, base, D.CancelCalling(seen, s)) && !answer.EngineRaises?
    ensures Stands(plan, d, more, base, CancelledPc(seen, s, answer))
  {
    hide D.Next;
    var e := if answer.NoSession? then D.CancelUnknown(0) else D.CancelReturned(0, answer.session, answer.status, answer.error);
    D.NextMoves(plan, D.Goto(base, 0, D.CancelCalling(seen, s)), e);
    Again(base, D.CancelCalling(seen, s), CancelledPc(seen, s, answer));
    more := Then(plan, d, events, base, D.CancelCalling(seen, s), e, base, CancelledPc(seen, s, answer));
  }

  lemma ObserveRun(plan: ExecutionPlan, d: D.Driver, events: seq<D.DriverEvent>, base: D.Driver, target: AttemptId, a: Answers)
    returns (more: seq<D.DriverEvent>)
    requires Stands(plan, d, events, base, D.Waiting(target))
    ensures Stands(plan, d, more, Watched(plan, base, target, a).driver, D.Idle)
  {
    var found := FindAttempt(base.run.attempts, target);
    if found.None? {
      more := RaisedRun(plan, d, events, base, D.Waiting(target));
    } else {
      more := PollRead(plan, d, events, base, target, found.value);
      var s := D.SessionOf(base, found.value);
      if s.None? {
        more := RecordRun(plan, d, more, base, D.Quarantining(found.value, D.NoReference));
      } else {
        var next := D.Remember(base, found.value.id, s.value);
        if a.polled.EngineRaises? {
          more := RaisedRun(plan, d, more, next, D.Polling(found.value, s.value));
        } else {
          more := PollRun(plan, d, more, next, found.value, s.value, a.polled);
          more := RecordRun(plan, d, more, next, PolledPc(found.value, s.value, a.polled));
        }
      }
    }
  }

  lemma StopRun(plan: ExecutionPlan, d: D.Driver, events: seq<D.DriverEvent>, base: D.Driver, target: AttemptId, a: Answers)
    returns (more: seq<D.DriverEvent>)
    requires Stands(plan, d, events, base, D.CancelDecided(target))
    ensures Stands(plan, d, more, Stopped(plan, base, target, a).driver, D.Idle)
  {
    var found := FindAttempt(base.run.attempts, target);
    if found.None? {
      more := RaisedRun(plan, d, events, base, D.CancelDecided(target));
    } else {
      more := CancelRead(plan, d, events, base, target, found.value);
      var s := D.SessionOf(base, found.value);
      if s.None? {
        more := RecordRun(plan, d, more, base, D.Unconfirmed(found.value, NothingToCancel));
      } else {
        var next := D.Remember(base, found.value.id, s.value);
        if a.cancelled.EngineRaises? {
          more := RaisedRun(plan, d, more, next, D.CancelCalling(found.value, s.value));
        } else {
          more := CancelRun(plan, d, more, next, found.value, s.value, a.cancelled);
          more := RecordRun(plan, d, more, next, CancelledPc(found.value, s.value, a.cancelled));
        }
      }
    }
  }

  /** Where an appending operation takes the thread. */
  function MadePc(plan: ExecutionPlan, base: D.Driver, op: Op): D.Pc {
    var v := D.Commit(plan, base, op);
    if Decide(plan, base.run, op, base.clock).Write? && v.run.attempts != []
    then D.Executing(v.run.attempts[|v.run.attempts| - 1]) else D.Idle
  }

  lemma StartsNew(plan: ExecutionPlan, base: D.Driver, pc: D.Pc, op: Op)
    ensures D.ExecuteNew(plan, D.Goto(base, 0, pc), 0, op) == D.Goto(D.Commit(plan, base, op), 0, MadePc(plan, base, op))
    ensures D.Commit(plan, base, op).threads == base.threads
  {
    CommitElsewhere(plan, base, pc, op, MadePc(plan, base, op));
  }

  lemma MadeRun(plan: ExecutionPlan, d: D.Driver, events: seq<D.DriverEvent>, base: D.Driver, op: Op, a: Answers)
    returns (more: seq<D.DriverEvent>)
    requires Stands(plan, d, events, D.Commit(plan, base, op), MadePc(plan, base, op))
    ensures Stands(plan, d, more, StartedAndRun(plan, base, op, a).driver, D.Idle)
  {
    hide Executed, Apply;
    var pc := MadePc(plan, base, op);
    if pc.Executing? {
      more := ExecuteRun(plan, d, events, D.Commit(plan, base, op), pc.made, a);
    } else {
      more := events;
    }
  }

  lemma StartRun(plan: ExecutionPlan, d: D.Driver, events: seq<D.DriverEvent>, base: D.Driver, a: Answers)
    returns (more: seq<D.DriverEvent>)
    requires Stands(plan, d, events, base, D.Starting)
    ensures Stands(plan, d, more, StartedAndRun(plan, base, StartNextAttempt, a).driver, D.Idle)
  {
    StartsNew(plan, base, D.Starting, StartNextAttempt);
    more := Then(plan, d, events, base, D.Starting, D.Start(0), D.Commit(plan, base, StartNextAttempt), MadePc(plan, base, StartNextAttempt));
    more := MadeRun(plan, d, more, base, StartNextAttempt, a);
  }

  lemma FinalizeRun(plan: ExecutionPlan, d: D.Driver, events: seq<D.DriverEvent>, base: D.Driver)
    returns (more: seq<D.DriverEvent>)
    requires Stands(plan, d, events, base, D.Finalizing)
    ensures Stands(plan, d, more, D.Commit(plan, base, ApplyTerminalAction), D.Idle)
  {
    CommitElsewhere(plan, base, D.Finalizing, ApplyTerminalAction, D.Idle);
    more := Then(plan, d, events, base, D.Finalizing, D.Finalize(0), D.Commit(plan, base, ApplyTerminalAction), D.Idle);
  }

  lemma DecideRun(plan: ExecutionPlan, d: D.Driver) returns (events: seq<D.DriverEvent>)
    requires Quiet(d)
    ensures Stands(plan, d, events, d, D.DecidedPc(NextAction(plan, d.run)))
  {
    Again(d, D.Idle, D.DecidedPc(NextAction(plan, d.run)));
    assert D.Goto(d, 0, D.Idle) == d;
    events := Then(plan, d, [], d, D.Idle, D.NextActionRead(0), d, D.DecidedPc(NextAction(plan, d.run)));
  }

  lemma QuietAgain(base: D.Driver)
    requires Quiet(base)
    ensures D.Goto(base, 0, D.Idle) == base
  {
    assert base.threads[0 := D.Idle] == base.threads;
  }

  /** One product action is a run of driver events, so whatever holds over all runs of
      threads, answers and crashes holds over serial calls. */
  lemma ReconcileIsRun(plan: ExecutionPlan, d: D.Driver, a: Answers) returns (events: seq<D.DriverEvent>)
    requires Quiet(d)
    ensures D.Exec(plan, d, events) == Reconciled(plan, d, a).driver && Quiet(Reconciled(plan, d, a).driver)
  {
    hide Decide, Watched, Stopped, StartedAndRun, NextAction;
    var pc := D.DecidedPc(NextAction(plan, d.run));
    events := DecideRun(plan, d);
    match pc {
      case Finalizing => events := FinalizeRun(plan, d, events, d);
      case Waiting(target) => events := ObserveRun(plan, d, events, d, target, a);
      case CancelDecided(target) => events := StopRun(plan, d, events, d, target, a);
      case Starting =>
        if a.recovered {
          events := StartRun(plan, d, events, d, a);
        } else {
          events := RaisedRun(plan, d, events, d, D.Starting);
        }
      case _ =>
    }
    QuietAgain(Reconciled(plan, d, a).driver);
  }

  /** So is an explicit resume. */
  lemma ResumeIsRun(plan: ExecutionPlan, d: D.Driver, stepId: string, staged: bool, a: Answers) returns (events: seq<D.DriverEvent>)
    requires Quiet(d)
    ensures D.Exec(plan, d, events) == Resumed(plan, d, stepId, staged, a).driver
    ensures Quiet(Resumed(plan, d, stepId, staged, a).driver)
  {
    QuietAgain(d);
    if !staged {
      events := [];
    } else {
      StartsNew(plan, d, D.Idle, ResumeAttempt(stepId));
      events := Then(plan, d, [], d, D.Idle, D.UserResume(0, stepId), D.Commit(plan, d, ResumeAttempt(stepId)), MadePc(plan, d, ResumeAttempt(stepId)));
      events := MadeRun(plan, d, events, d, ResumeAttempt(stepId), a);
      QuietAgain(StartedAndRun(plan, d, ResumeAttempt(stepId), a).driver);
    }
  }
}
