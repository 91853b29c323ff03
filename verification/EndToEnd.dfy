/**
 * The three layers together: the driver's threads call the training runtime, whose
 * sessions call one Kernel worker per attempt. A restart wipes threads, memory and
 * sessions, and restores the sessions that the saved receipts name. One engine call per
 * attempt is in flight at a time, as the service lock grants.
 */
module EndToEnd {
  import opened Prelude
  import opened Plans
  import opened Lifecycle
  import opened LifecycleInvariant
  import D = Driver
  import R = Runtime
  import K = Kernel

  datatype World = World(driver: D.Driver, sessions: map<AttemptId, R.Session>, workers: map<AttemptId, K.Worker>)

  datatype WorldEvent =
    | DriverMoves(e: D.DriverEvent)
    | Rejected(t: nat, error: Option<string>)
    | AdmissionFailed(t: nat, error: Option<string>)
    | StartBegun(t: nat)
    | StartDone(t: nat, error: Option<string>)
    | WorkerMoves(a: AttemptId, w: K.WorkerEvent)
    | PollAnswered(t: nat, error: Option<string>)
    | PollBegun(t: nat, sighting: K.Sighting)
    | PollDone(t: nat, published: bool, error: Option<string>)
    | CancelAnswered(t: nat, error: Option<string>)
    | CancelBegun(t: nat)
    | CancelDone(t: nat, error: Option<string>)
    | Restart

  /** Driver events in which the engine has no say. */
  predicate DriverAlone(e: D.DriverEvent) {
    !(e.SubmitReturned? || e.PollUnknown? || e.PollReturned? || e.CancelUnknown? || e.CancelReturned? || e.Crash?)
  }

  /** Worker events that no engine call begins: replies, saves and the renewal thread. */
  predicate WorkerAlone(e: K.WorkerEvent) {
    || e.AcquireReturned? || e.InstallReturned? || e.StartReturned? || e.Saved?
    || e.ReleaseReturned? || e.BeginRenewal? || e.RenewReturned?
  }

  function Drive(plan: ExecutionPlan, w: World, e: D.DriverEvent): World {
    w.(driver := D.Next(plan, w.driver, e))
  }

  function Put(w: World, a: AttemptId, s: R.Session): World {
    w.(sessions := w.sessions[a := s])
  }

  function Work(w: World, a: AttemptId, e: K.WorkerEvent): World {
    if a in w.workers then w.(workers := w.workers[a := K.Step(w.workers[a], e)]) else w
  }

  /** submit returns: the thread reports the session's status, and the map holds the session. */
  function Submitted(plan: ExecutionPlan, w: World, t: nat, a: AttemptId, s: R.Session, error: Option<string>): World {
    Put(Drive(plan, w, D.SubmitReturned(t, s.status, error)), a, s)
  }

  function StartReported(out: K.Outcome, a: AttemptId): R.StartOutcome {
    if out.StartError? then R.StartFailed(out.lost) else R.Started(a.number)
  }

  function SubmitStep(plan: ExecutionPlan, w: World, e: WorldEvent, a: AttemptId): World {
    match e
    case Rejected(t, error) => if a in w.workers then w else Submitted(plan, w, t, a, R.RejectedSession, error)
    case AdmissionFailed(t, error) =>
      if a in w.workers then w
      else Submitted(plan, w, t, a, R.AttemptStarted(R.NewSession, R.StartFailed(false)), error)
    case StartBegun(t) =>
      if a in w.workers then w else w.(workers := w.workers[a := K.Step(K.NewWorker, K.BeginStart(true))])
    case StartDone(t, error) =>
      if a in w.workers && (w.workers[a].out.HandleReturned? || w.workers[a].out.StartError?)
      then Work(Submitted(plan, w, t, a, R.AttemptStarted(R.NewSession, StartReported(w.workers[a].out, a)), error), a, K.Take)
      else w
    case _ => w
  }

  function PollStep(plan: ExecutionPlan, w: World, e: WorldEvent, a: AttemptId): World {
    match e
    case PollAnswered(t, error) =>
      if a !in w.sessions then Drive(plan, w, D.PollUnknown(t))
      else if R.PollReaches(w.sessions[a]) then w
      else Drive(plan, w, D.PollReturned(t, a, w.sessions[a].status, error))
    case PollBegun(t, sighting) =>
      if a in w.sessions && R.PollReaches(w.sessions[a]) then Work(w, a, K.BeginPoll(sighting)) else w
    case PollDone(t, published, error) =>
      if a in w.sessions && a in w.workers then
        match w.workers[a].out
        case ExitCode(code) =>
          var s := R.AfterPoll(w.sessions[a], R.Exited(code, published));
          Work(Put(Drive(plan, w, D.PollReturned(t, a, s.status, error)), a, s), a, K.Take)
        case StillRunning =>
          Work(Drive(plan, w, D.PollReturned(t, a, w.sessions[a].status, error)), a, K.Take)
        case PollError => Work(Drive(plan, w, D.Raised(t)), a, K.Take)
        case _ => w
      else w
    case _ => w
  }

  function CancelStep(plan: ExecutionPlan, w: World, e: WorldEvent, a: AttemptId): World {
    match e
    case CancelAnswered(t, error) =>
      if a !in w.sessions then Drive(plan, w, D.CancelUnknown(t))
      else if R.CancelReaches(w.sessions[a]) then w
      else
        var s := R.AfterCancel(w.sessions[a], R.CancelRaises);
        Put(Drive(plan, w, D.CancelReturned(t, a, s.status, error)), a, s)
    case CancelBegun(t) =>
      if a in w.sessions && R.CancelReaches(w.sessions[a])
      then Work(Put(w, a, R.AllTo(w.sessions[a], R.SCancelling)), a, K.BeginCancel) else w
    case CancelDone(t, error) =>
      if a in w.sessions && w.sessions[a].handle.Some? && a in w.workers then
        match w.workers[a].out
        case CancelOutcome(ok) =>
          var s := R.CancelSettled(w.sessions[a], R.Outcome(ok, ok, 0));
          Work(Put(Drive(plan, w, D.CancelReturned(t, a, s.status, error)), a, s), a, K.Take)
        case CancelError => Work(Drive(plan, w, D.Raised(t)), a, K.Take)
        case _ => w
      else w
    case _ => w
  }

  predicate Recoverable(w: K.Worker) {
    w.durable.Some? && w.durable.value.operation && w.durable.value.lease
  }

  function Restarted(w: World): World {
    World(w.driver.(threads := map[], memory := map[]),
          map a | a in w.workers && Recoverable(w.workers[a]) :: R.RestoredSession(a.number),
          map a | a in w.workers :: K.Step(K.Step(w.workers[a], K.Crash), K.Recover))
  }

  predicate IsCall(e: WorldEvent) {
    !e.DriverMoves? && !e.WorkerMoves? && !e.Restart?
  }

  /** Part of the engine call the thread is inside. */
  function CallStep(plan: ExecutionPlan, w: World, e: WorldEvent): World
    requires IsCall(e)
  {
    match D.PcOf(w.driver, e.t)
    case Submitting(a) => SubmitStep(plan, w, e, a)
    case Polling(x, _) => PollStep(plan, w, e, x.id)
    case CancelCalling(x, _) => CancelStep(plan, w, e, x.id)
    case _ => w
  }

  function Next(plan: ExecutionPlan, w: World, e: WorldEvent): World {
    match e
    case DriverMoves(de) => if DriverAlone(de) then Drive(plan, w, de) else w
    case WorkerMoves(a, we) => if WorkerAlone(we) then Work(w, a, we) else w
    case Restart => Restarted(w)
    case _ => CallStep(plan, w, e)
  }

  function Exec(plan: ExecutionPlan, w: World, events: seq<WorldEvent>): World {
    if events == [] then w
    else Next(plan, Exec(plan, w, events[..|events| - 1]), events[|events| - 1])
  }

  predicate Booted(w: World) {
    D.Booted(w.driver) && w.sessions == map[] && w.workers == map[]
  }

  // ----- The invariant across the layers -----

  predicate Released(w: World, a: AttemptId) {
    a in w.workers && K.IsReleased(w.workers[a])
  }

  predicate RunsOnEngine(r: ProductRun, a: AttemptId) {
    D.HasAttempt(r, a) && D.KindOf(r.attempts[a.number - 1].stepId).EngineStep?
  }

  /** No thread can begin a worker for this attempt any more. */
  ghost predicate Closed(d: D.Driver, a: AttemptId) {
    && D.HasAttempt(d.run, a)
    && (forall t: nat :: D.PcOf(d, t) != D.Submitting(a))
    && (a in d.launches || !RunsOnEngine(d.run, a))
  }

  /** The attempt holds no lease: its release is saved, or it never began and never will. */
  ghost predicate Clean(w: World, a: AttemptId) {
    Released(w, a) || (a !in w.workers && Closed(w.driver, a))
  }

  predicate WorkerFits(w: World, a: AttemptId)
    requires a in w.workers
  {
    K.WorkerInv(w.workers[a]) && w.workers[a].durable.Some? && a in w.driver.launches
  }

  ghost predicate SessionFits(w: World, a: AttemptId)
    requires a in w.sessions
  {
    var s := w.sessions[a];
    && R.SessionInv(s)
    && a in w.driver.launches
    && (forall t: nat :: D.PcOf(w.driver, t) != D.Submitting(a))
    && (s.handle.Some? ==> a in w.workers && s.attempts != [])
    && (s.status.SCompleted? || s.status.SCancelled? ==> Released(w, a))
    && (s.status.SFailed? ==> Clean(w, a))
  }

  /** A status that claims the execution is over. */
  predicate Ends(s: AttemptStatus) {
    s.Terminal() && !s.Lost?
  }

  ghost predicate PcFits(w: World, pc: D.Pc) {
    pc.Reporting? ==>
      && (Ends(pc.status) ==> Clean(w, pc.target))
      && (pc.details.cleanup == Some(true) ==> Released(w, pc.target))
      && (pc.status.Succeeded? && RunsOnEngine(w.driver.run, pc.target) ==> Released(w, pc.target))
  }

  ghost predicate AttemptFits(w: World, i: nat)
    requires i < |w.driver.run.attempts|
  {
    var x := w.driver.run.attempts[i];
    && (Ends(x.status) ==> Clean(w, x.id))
    && (x.cleanupConfirmed ==> Released(w, x.id))
    && (x.status.Succeeded? && D.KindOf(x.stepId).EngineStep? ==> Released(w, x.id))
  }

  ghost predicate WorkersFit(w: World) {
    forall a {:trigger WorkerFits(w, a)} | a in w.workers :: WorkerFits(w, a)
  }

  ghost predicate SessionsFit(w: World) {
    forall a {:trigger SessionFits(w, a)} | a in w.sessions :: SessionFits(w, a)
  }

  ghost predicate ThreadsFit(w: World) {
    forall t: nat {:trigger D.PcOf(w.driver, t)} :: PcFits(w, D.PcOf(w.driver, t))
  }

  ghost predicate AttemptsFit(w: World) {
    forall i: nat {:trigger AttemptFits(w, i)} | i < |w.driver.run.attempts| :: AttemptFits(w, i)
  }

  ghost predicate OneSubmitter(d: D.Driver) {
    forall t: nat, u: nat {:trigger D.PcOf(d, t), D.PcOf(d, u)} |
      t != u && D.PcOf(d, t).Submitting? && D.PcOf(d, u).Submitting? :: D.PcOf(d, t) != D.PcOf(d, u)
  }

  ghost predicate WorldInv(plan: ExecutionPlan, w: World) {
    && D.DriverInv(plan, w.driver)
    && OneSubmitter(w.driver)
    && WorkersFit(w) && SessionsFit(w) && ThreadsFit(w) && AttemptsFit(w)
  }

  // ----- Worker steps -----

  ghost predicate ReleasesKept(w: World, v: World) {
    forall a {:trigger Released(v, a)} | Released(w, a) :: Released(v, a)
  }

  ghost predicate CleanKept(w: World, v: World) {
    forall a {:trigger Clean(v, a)} | Clean(w, a) :: Clean(v, a)
  }

  /** The driver stands still while workers move. */
  lemma WorkersFrame(plan: ExecutionPlan, w: World, v: World)
    requires WorldInv(plan, w) && v.driver == w.driver && v.sessions == w.sessions
    requires w.workers.Keys <= v.workers.Keys && WorkersFit(v) && ReleasesKept(w, v) && CleanKept(w, v)
    ensures WorldInv(plan, v)
  {
    forall a | a in v.sessions ensures SessionFits(v, a) {
      assert SessionFits(w, a);
    }
    forall t: nat {:trigger D.PcOf(v.driver, t)} ensures PcFits(v, D.PcOf(v.driver, t)) {
      assert PcFits(w, D.PcOf(w.driver, t));
    }
    forall i: nat | i < |v.driver.run.attempts| ensures AttemptFits(v, i) {
      assert AttemptFits(w, i);
    }
  }

  lemma DurableStays(x: K.Worker, e: K.WorkerEvent)
    requires x.durable.Some?
    ensures K.Step(x, e).durable.Some?
  {
  }

  lemma WorkKeeps(plan: ExecutionPlan, w: World, a: AttemptId, e: K.WorkerEvent)
    requires WorldInv(plan, w)
    ensures WorldInv(plan, Work(w, a, e))
  {
    hide K.Step, D.DriverInv;
    if a in w.workers {
      var v := Work(w, a, e);
      assert WorkerFits(w, a);
      K.StepKeeps(w.workers[a], e);
      K.ReleasedStays(w.workers[a], e);
      DurableStays(w.workers[a], e);
      forall b | b in v.workers ensures WorkerFits(v, b) {
        assert WorkerFits(w, b);
      }
      assert ReleasesKept(w, v);
      assert CleanKept(w, v);
      WorkersFrame(plan, w, v);
    }
  }

  lemma BeginKeeps(plan: ExecutionPlan, w: World, t: nat, a: AttemptId)
    requires WorldInv(plan, w) && D.PcOf(w.driver, t) == D.Submitting(a) && a !in w.workers
    ensures WorldInv(plan, w.(workers := w.workers[a := K.Step(K.NewWorker, K.BeginStart(true))]))
  {
    hide Inv;
    var v := w.(workers := w.workers[a := K.Step(K.NewWorker, K.BeginStart(true))]);
    K.StepKeeps(K.NewWorker, K.BeginStart(true));
    assert D.PcOk(w.driver, D.PcOf(w.driver, t));
    forall b | b in v.workers ensures WorkerFits(v, b) {
      if b != a { assert WorkerFits(w, b); }
    }
    assert ReleasesKept(w, v);
    assert CleanKept(w, v);
    WorkersFrame(plan, w, v);
  }

  // ----- Session steps -----

  /** Driver and workers stand still while the session map changes. */
  lemma SessionsFrame(plan: ExecutionPlan, w: World, v: World)
    requires WorldInv(plan, w) && v.driver == w.driver && v.workers == w.workers && SessionsFit(v)
    ensures WorldInv(plan, v)
  {
    assert ReleasesKept(w, v) && CleanKept(w, v);
    forall b | b in v.workers ensures WorkerFits(v, b) {
      assert WorkerFits(w, b);
    }
    forall t: nat {:trigger D.PcOf(v.driver, t)} ensures PcFits(v, D.PcOf(v.driver, t)) {
      assert PcFits(w, D.PcOf(w.driver, t));
    }
    forall i: nat | i < |v.driver.run.attempts| ensures AttemptFits(v, i) {
      assert AttemptFits(w, i);
    }
  }

  lemma PutKeeps(plan: ExecutionPlan, w: World, a: AttemptId, s: R.Session)
    requires WorldInv(plan, w) && SessionFits(Put(w, a, s), a)
    ensures WorldInv(plan, Put(w, a, s))
  {
    var v := Put(w, a, s);
    assert CleanKept(w, v);
    forall b | b in v.sessions ensures SessionFits(v, b) {
      if b != a { assert SessionFits(w, b); }
    }
    SessionsFrame(plan, w, v);
  }

  // ----- Driver steps -----

  /** Driver events that read the record, and those that commit to it. */
  predicate ReadsRecord(e: D.DriverEvent) {
    e.NextActionRead? || e.ReadForPoll? || e.ReadForCancel?
  }

  predicate CommitsRecord(e: D.DriverEvent) {
    e.Finalize? || e.Start? || e.Report? || e.QuarantineCancel? || e.UserCancel? || e.UserResume?
  }

  predicate KeepsSubmitting(plan: ExecutionPlan, d: D.Driver, e: D.DriverEvent, t: nat) {
    D.PcOf(D.Next(plan, d, e), t).Submitting? ==> D.PcOf(D.Next(plan, d, e), t) == D.PcOf(d, t)
  }

  lemma ReadsKeepSubmitting(plan: ExecutionPlan, d: D.Driver, e: D.DriverEvent, t: nat)
    requires ReadsRecord(e)
    ensures KeepsSubmitting(plan, d, e, t)
  {
    hide Decide, NextAction;
  }

  lemma CommitsKeepSubmitting(plan: ExecutionPlan, d: D.Driver, e: D.DriverEvent, t: nat)
    requires CommitsRecord(e)
    ensures KeepsSubmitting(plan, d, e, t)
  {
    hide Apply, NextAction, D.MovedPc;
  }

  /** A thread that submits was submitting, or has just used its right to execute. */
  lemma SubmittingFrom(plan: ExecutionPlan, d: D.Driver, e: D.DriverEvent, t: nat, a: AttemptId)
    requires D.PcOf(D.Next(plan, d, e), t) == D.Submitting(a)
    ensures || D.PcOf(d, t) == D.Submitting(a)
            || (e == D.Submit(t) && D.PcOf(d, t).Executing? && D.PcOf(d, t).made.id == a
                && D.KindOf(D.PcOf(d, t).made.stepId).EngineStep?)
  {
    if D.MovesThread(e) {
      hide D.Next;
      D.NextMoves(plan, d, e);
    } else if ReadsRecord(e) {
      hide D.Next;
      ReadsKeepSubmitting(plan, d, e, t);
    } else if CommitsRecord(e) {
      hide D.Next;
      CommitsKeepSubmitting(plan, d, e, t);
    } else {
      hide Decide, NextAction, D.MovedPc, D.ReadSession;
    }
  }

  lemma LaunchesStay(plan: ExecutionPlan, d: D.Driver, e: D.DriverEvent)
    ensures d.launches <= D.Next(plan, d, e).launches
  {
  }

  /** Old attempts keep their step. */
  lemma StepsStay(plan: ExecutionPlan, d: D.Driver, e: D.DriverEvent)
    requires D.DriverInv(plan, d)
    ensures D.RunGrows(d.run, D.Next(plan, d, e).run)
  {
    D.NextCommits(plan, d, e);
    if D.CommitOf(d, e).Some? { D.CommitGrows(plan, d, D.CommitOf(d, e).value); }
  }

  lemma ClosedStays(plan: ExecutionPlan, d: D.Driver, e: D.DriverEvent, a: AttemptId)
    requires D.DriverInv(plan, d) && Closed(d, a)
    ensures Closed(D.Next(plan, d, e), a)
  {
    hide D.Next, Inv;
    var v := D.Next(plan, d, e);
    StepsStay(plan, d, e);
    LaunchesStay(plan, d, e);
    forall t: nat ensures D.PcOf(v, t) != D.Submitting(a) {
      assert D.PcOf(d, t) != D.Submitting(a);
      assert D.PcOk(d, D.PcOf(d, t));
      if D.PcOf(v, t) == D.Submitting(a) { SubmittingFrom(plan, d, e, t, a); }
    }
  }

  lemma SubmittersStay(plan: ExecutionPlan, d: D.Driver, e: D.DriverEvent)
    requires D.DriverInv(plan, d) && OneSubmitter(d)
    ensures OneSubmitter(D.Next(plan, d, e))
  {
    hide D.Next, Inv;
    var v := D.Next(plan, d, e);
    forall t: nat, u: nat {:trigger D.PcOf(v, t), D.PcOf(v, u)} |
      t != u && D.PcOf(v, t).Submitting? && D.PcOf(v, u).Submitting?
      ensures D.PcOf(v, t) != D.PcOf(v, u)
    {
      SubmittingFrom(plan, d, e, t, D.PcOf(v, t).target);
      SubmittingFrom(plan, d, e, u, D.PcOf(v, u).target);
      assert D.PcOk(d, D.PcOf(d, t)) && D.PcOk(d, D.PcOf(d, u));
    }
  }

  /** Where the attempt at an index comes from. */
  predicate ComesFrom(d: D.Driver, v: D.Driver, e: D.DriverEvent, i: nat)
    requires i < |v.run.attempts|
  {
    var x := v.run.attempts[i];
    || (i < |d.run.attempts| && x == d.run.attempts[i])
    || (x.status.Pending? && !x.cleanupConfirmed)
    || (e.Report? && D.PcOf(d, e.t).Reporting? && i < |d.run.attempts| && D.PcOf(d, e.t).target == d.run.attempts[i].id
        && x == Observed(d.run.attempts[i], D.PcOf(d, e.t).status, D.PcOf(d, e.t).details, d.clock))
  }

  lemma CommitComesFrom(plan: ExecutionPlan, d: D.Driver, op: Op, i: nat)
    requires D.DriverInv(plan, d) && i < |D.Commit(plan, d, op).run.attempts|
    ensures var x := D.Commit(plan, d, op).run.attempts[i];
            || (i < |d.run.attempts| && x == d.run.attempts[i])
            || (x.status.Pending? && !x.cleanupConfirmed && i == |d.run.attempts|)
            || (op.ObserveAttempt? && i < |d.run.attempts| && op.attemptId == d.run.attempts[i].id
                && x == Observed(d.run.attempts[i], op.status, op.details, d.clock))
  {
    if Decide(plan, d.run, op, d.clock).Write? {
      match op {
        case StartNextAttempt => var s := StartShape(plan, d.run, d.clock);
        case ResumeAttempt(s) => ResumeShape(plan, d.run, s, d.clock);
        case ObserveAttempt(id, status, det, expected) => ObserveWritesIff(d.run, id, status, det, expected, d.clock);
        case RequestCancel =>
        case ApplyTerminalAction => TerminalKeeps(plan, d.run);
      }
    }
  }

  lemma AttemptsComeFrom(plan: ExecutionPlan, d: D.Driver, e: D.DriverEvent, i: nat)
    requires D.DriverInv(plan, d) && i < |D.Next(plan, d, e).run.attempts|
    ensures ComesFrom(d, D.Next(plan, d, e), e, i)
  {
    D.NextCommits(plan, d, e);
    if D.CommitOf(d, e).Some? { CommitComesFrom(plan, d, D.CommitOf(d, e).value, i); }
  }

  lemma DriverAttempts(plan: ExecutionPlan, w: World, e: D.DriverEvent)
    requires WorldInv(plan, w) && CleanKept(w, Drive(plan, w, e))
    ensures AttemptsFit(Drive(plan, w, e))
  {
    hide D.Next, Decide, D.RunRefs;
    var v := Drive(plan, w, e);
    D.NextKeeps(plan, w.driver, e);
    forall i: nat | i < |v.driver.run.attempts| ensures AttemptFits(v, i) {
      AttemptsComeFrom(plan, w.driver, e, i);
      if i < |w.driver.run.attempts| {
        assert AttemptFits(w, i);
        assert NumberedAt(w.driver.run, i);
        if e.Report? { assert PcFits(w, D.PcOf(w.driver, e.t)); }
      }
    }
  }

  lemma DriverSessions(plan: ExecutionPlan, w: World, e: D.DriverEvent)
    requires WorldInv(plan, w) && CleanKept(w, Drive(plan, w, e))
    ensures SessionsFit(Drive(plan, w, e))
  {
    hide D.Next, Inv;
    var v := Drive(plan, w, e);
    LaunchesStay(plan, w.driver, e);
    forall a | a in v.sessions ensures SessionFits(v, a) {
      assert SessionFits(w, a);
      forall t: nat ensures D.PcOf(v.driver, t) != D.Submitting(a) {
        assert D.PcOf(w.driver, t) != D.Submitting(a);
        assert D.PcOk(w.driver, D.PcOf(w.driver, t));
        if D.PcOf(v.driver, t) == D.Submitting(a) { SubmittingFrom(plan, w.driver, e, t, a); }
      }
    }
  }

  ghost predicate NewPcsFit(w: World, v: World) {
    forall t: nat {:trigger D.PcOf(v.driver, t)} | D.PcOf(v.driver, t) != D.PcOf(w.driver, t) :: PcFits(v, D.PcOf(v.driver, t))
  }

  lemma DriverThreads(plan: ExecutionPlan, w: World, e: D.DriverEvent)
    requires WorldInv(plan, w) && CleanKept(w, Drive(plan, w, e)) && NewPcsFit(w, Drive(plan, w, e))
    ensures ThreadsFit(Drive(plan, w, e))
  {
    hide D.Next;
    var v := Drive(plan, w, e);
    StepsStay(plan, w.driver, e);
    forall t: nat {:trigger D.PcOf(v.driver, t)} ensures PcFits(v, D.PcOf(v.driver, t)) {
      if D.PcOf(v.driver, t) == D.PcOf(w.driver, t) {
        assert PcFits(w, D.PcOf(w.driver, t));
        assert D.PcOk(w.driver, D.PcOf(w.driver, t));
      }
    }
  }

  lemma DriverFrame(plan: ExecutionPlan, w: World, e: D.DriverEvent)
    requires WorldInv(plan, w)
    ensures CleanKept(w, Drive(plan, w, e))
  {
    var v := Drive(plan, w, e);
    forall a {:trigger Clean(v, a)} | Clean(w, a) ensures Clean(v, a) {
      if !Released(w, a) { ClosedStays(plan, w.driver, e, a); }
    }
  }

  /** A driver event keeps the world when the reports it starts are true. */
  lemma DriveKeeps(plan: ExecutionPlan, w: World, e: D.DriverEvent)
    requires WorldInv(plan, w) && NewPcsFit(w, Drive(plan, w, e))
    ensures WorldInv(plan, Drive(plan, w, e))
  {
    hide D.Next, D.DriverInv;
    var v := Drive(plan, w, e);
    DriverFrame(plan, w, e);
    D.NextKeeps(plan, w.driver, e);
    SubmittersStay(plan, w.driver, e);
    LaunchesStay(plan, w.driver, e);
    forall a | a in v.workers ensures WorkerFits(v, a) {
      assert WorkerFits(w, a);
    }
    DriverSessions(plan, w, e);
    DriverThreads(plan, w, e);
    DriverAttempts(plan, w, e);
  }

  /** An event that only moves its thread keeps the world when that thread's report is true. */
  lemma ThreadKeeps(plan: ExecutionPlan, w: World, e: D.DriverEvent)
    requires WorldInv(plan, w) && D.MovesThread(e)
    requires PcFits(Drive(plan, w, e), D.MovedPc(w.driver.run.desired.WantCancelled?, D.PcOf(w.driver, e.t), e))
    ensures WorldInv(plan, Drive(plan, w, e))
  {
    hide D.Next, D.DriverInv;
    var v := Drive(plan, w, e);
    var pc := D.MovedPc(w.driver.run.desired.WantCancelled?, D.PcOf(w.driver, e.t), e);
    D.NextMoves(plan, w.driver, e);
    DriveKeeps(plan, w, e);
  }

  /** A preflight verdict concerns an attempt that no engine call can begin. */
  lemma EvaluateKeeps(plan: ExecutionPlan, w: World, e: D.DriverEvent)
    requires WorldInv(plan, w) && e.Evaluate?
    ensures WorldInv(plan, Drive(plan, w, e))
  {
    hide D.Next, Inv, Decide;
    D.NextMoves(plan, w.driver, e);
    var pc := D.PcOf(w.driver, e.t);
    if pc.Executing? && D.KindOf(pc.made.stepId).PreflightStep? {
      assert D.PcOk(w.driver, pc);
      forall u: nat ensures D.PcOf(w.driver, u) != D.Submitting(pc.made.id) {
        assert D.PcOk(w.driver, D.PcOf(w.driver, u));
      }
      forall a | a in w.workers ensures a != pc.made.id { assert WorkerFits(w, a); }
      assert Clean(w, pc.made.id);
      DriverFrame(plan, w, e);
      assert Clean(Drive(plan, w, e), pc.made.id);
    }
    ThreadKeeps(plan, w, e);
  }

  predicate NewPcFits(plan: ExecutionPlan, w: World, e: D.DriverEvent, t: nat) {
    var v := Drive(plan, w, e);
    D.PcOf(v.driver, t) != D.PcOf(w.driver, t) ==>
      D.PcOf(v.driver, t).Reporting? ==>
        !Ends(D.PcOf(v.driver, t).status) && D.PcOf(v.driver, t).details.cleanup != Some(true)
  }

  lemma ReadsReport(plan: ExecutionPlan, w: World, e: D.DriverEvent, t: nat)
    requires ReadsRecord(e)
    ensures NewPcFits(plan, w, e, t)
  {
    hide Decide, NextAction;
  }

  lemma CommitsReport(plan: ExecutionPlan, w: World, e: D.DriverEvent, t: nat)
    requires CommitsRecord(e)
    ensures NewPcFits(plan, w, e, t)
  {
    hide Apply, NextAction, D.MovedPc;
  }

  /** The other events of the driver alone report at most an unconfirmed stop. */
  lemma AloneReports(plan: ExecutionPlan, w: World, e: D.DriverEvent, t: nat)
    requires DriverAlone(e) && !D.MovesThread(e)
    ensures var v := Drive(plan, w, e);
            D.PcOf(v.driver, t) != D.PcOf(w.driver, t) ==> PcFits(v, D.PcOf(v.driver, t))
  {
    if ReadsRecord(e) {
      hide D.Next;
      ReadsReport(plan, w, e, t);
    } else if CommitsRecord(e) {
      hide D.Next;
      CommitsReport(plan, w, e, t);
    } else {
      hide Decide, NextAction, D.MovedPc, D.ReadSession;
    }
  }

  lemma AloneKeeps(plan: ExecutionPlan, w: World, e: D.DriverEvent)
    requires WorldInv(plan, w) && DriverAlone(e)
    ensures WorldInv(plan, Drive(plan, w, e))
  {
    hide D.Next, D.DriverInv;
    if e.Evaluate? {
      EvaluateKeeps(plan, w, e);
    } else if D.MovesThread(e) {
      D.NextMoves(plan, w.driver, e);
      ThreadKeeps(plan, w, e);
    } else {
      forall t: nat {:trigger D.PcOf(Drive(plan, w, e).driver, t)}
        | D.PcOf(Drive(plan, w, e).driver, t) != D.PcOf(w.driver, t)
        ensures PcFits(Drive(plan, w, e), D.PcOf(Drive(plan, w, e).driver, t))
      {
        AloneReports(plan, w, e, t);
      }
      DriveKeeps(plan, w, e);
    }
  }

  // ----- Engine calls -----

  /** What a session just submitted must satisfy. */
  ghost predicate Submittable(w: World, a: AttemptId, s: R.Session) {
    && R.SessionInv(s)
    && (s.status.SFailed? || s.status.SRunning? || s.status.SAwaitingRetry?)
    && (s.status.SFailed? ==> Released(w, a) || a !in w.workers)
    && (s.handle.Some? ==> a in w.workers && s.attempts != [])
  }

  lemma SubmittedCloses(plan: ExecutionPlan, w: World, t: nat, a: AttemptId, status: R.TrainingStatus, error: Option<string>)
    requires WorldInv(plan, w) && D.PcOf(w.driver, t) == D.Submitting(a)
    ensures Closed(Drive(plan, w, D.SubmitReturned(t, status, error)).driver, a)
    ensures a in w.driver.launches
  {
    hide D.Commit, Inv;
    var v := Drive(plan, w, D.SubmitReturned(t, status, error));
    assert D.PcOk(w.driver, D.PcOf(w.driver, t));
    forall u: nat ensures D.PcOf(v.driver, u) != D.Submitting(a) {
      if u != t {
        assert D.PcOf(v.driver, u) == D.PcOf(w.driver, u);
        assert D.PcOf(w.driver, t).Submitting?;
      }
    }
  }

  lemma SubmittedKeeps(plan: ExecutionPlan, w: World, t: nat, a: AttemptId, s: R.Session, error: Option<string>)
    requires WorldInv(plan, w) && D.PcOf(w.driver, t) == D.Submitting(a) && Submittable(w, a, s)
    ensures WorldInv(plan, Submitted(plan, w, t, a, s, error))
  {
    hide D.Next, D.DriverInv;
    var e := D.SubmitReturned(t, s.status, error);
    var v := Drive(plan, w, e);
    SubmittedCloses(plan, w, t, a, s.status, error);
    D.SubmitReturns(plan, w.driver, t, s.status, error);
    assert NewPcsFit(w, v);
    DriveKeeps(plan, w, e);
    assert SessionFits(Put(v, a, s), a) by {
      assert Closed(Put(v, a, s).driver, a);
    }
    PutKeeps(plan, v, a, s);
  }

  lemma StartDoneFits(w: World, a: AttemptId)
    requires a in w.workers && K.WorkerInv(w.workers[a])
    requires w.workers[a].out.HandleReturned? || w.workers[a].out.StartError?
    ensures Submittable(w, a, R.AttemptStarted(R.NewSession, StartReported(w.workers[a].out, a)))
  {
  }

  lemma SubmitKeeps(plan: ExecutionPlan, w: World, e: WorldEvent, a: AttemptId)
    requires WorldInv(plan, w) && IsCall(e)
    requires D.PcOf(w.driver, e.t) == D.Submitting(a)
    ensures WorldInv(plan, SubmitStep(plan, w, e, a))
  {
    hide D.Next, K.Step, D.DriverInv;
    match e {
      case Rejected(t, error) =>
        if a !in w.workers { SubmittedKeeps(plan, w, t, a, R.RejectedSession, error); }
      case AdmissionFailed(t, error) =>
        if a !in w.workers {
          SubmittedKeeps(plan, w, t, a, R.AttemptStarted(R.NewSession, R.StartFailed(false)), error);
        }
      case StartBegun(t) => if a !in w.workers { BeginKeeps(plan, w, t, a); }
      case StartDone(t, error) =>
        if a in w.workers && (w.workers[a].out.HandleReturned? || w.workers[a].out.StartError?) {
          assert WorkerFits(w, a);
          StartDoneFits(w, a);
          var s := R.AttemptStarted(R.NewSession, StartReported(w.workers[a].out, a));
          SubmittedKeeps(plan, w, t, a, s, error);
          WorkKeeps(plan, Submitted(plan, w, t, a, s, error), a, K.Take);
        }
      case _ =>
    }
  }

  lemma PollReturnKeeps(plan: ExecutionPlan, w: World, t: nat, a: AttemptId, status: R.TrainingStatus, error: Option<string>)
    requires WorldInv(plan, w) && D.PcOf(w.driver, t).Polling? && D.PcOf(w.driver, t).seen.id == a
    requires status.SCompleted? || status.SCancelled? ==> Released(w, a)
    requires status.SFailed? ==> Clean(w, a)
    ensures WorldInv(plan, Drive(plan, w, D.PollReturned(t, a, status, error)))
  {
    hide D.Next, Inv;
    var e := D.PollReturned(t, a, status, error);
    var v := Drive(plan, w, e);
    assert D.PcOk(w.driver, D.PcOf(w.driver, t));
    DriverFrame(plan, w, e);
    assert Clean(w, a) ==> Clean(v, a);
    ThreadKeeps(plan, w, e);
  }

  lemma CancelReturnKeeps(plan: ExecutionPlan, w: World, t: nat, a: AttemptId, status: R.TrainingStatus, error: Option<string>)
    requires WorldInv(plan, w) && D.PcOf(w.driver, t).CancelCalling? && D.PcOf(w.driver, t).seen.id == a
    requires status.SCancelled? ==> Released(w, a)
    ensures WorldInv(plan, Drive(plan, w, D.CancelReturned(t, a, status, error)))
  {
    hide D.Next, Inv;
    var e := D.CancelReturned(t, a, status, error);
    assert D.PcOk(w.driver, D.PcOf(w.driver, t));
    DriverFrame(plan, w, e);
    assert Released(w, a) ==> Clean(Drive(plan, w, e), a);
    ThreadKeeps(plan, w, e);
  }

  lemma UnknownKeeps(plan: ExecutionPlan, w: World, e: D.DriverEvent)
    requires WorldInv(plan, w) && (e.PollUnknown? || e.CancelUnknown? || e.Raised?)
    ensures WorldInv(plan, Drive(plan, w, e))
  {
    hide D.Next, D.DriverInv;
    if e.Raised? {
      AloneKeeps(plan, w, e);
    } else {
      D.NextMoves(plan, w.driver, e);
      ThreadKeeps(plan, w, e);
    }
  }

  /** A session can move to any status its worker and its own rules allow. */
  lemma SessionMoves(plan: ExecutionPlan, w: World, a: AttemptId, s: R.Session)
    requires WorldInv(plan, w) && a in w.sessions && R.SessionInv(s)
    requires s.handle == w.sessions[a].handle && (s.handle.Some? ==> s.attempts != [])
    requires s.status != w.sessions[a].status ==>
               Released(w, a) || s.status.SCancelling? || s.status.SAwaitingRetry?
    ensures WorldInv(plan, Put(w, a, s))
  {
    assert SessionFits(w, a);
    assert CleanKept(w, Put(w, a, s));
    PutKeeps(plan, w, a, s);
  }

  lemma PollKeeps(plan: ExecutionPlan, w: World, e: WorldEvent, a: AttemptId)
    requires WorldInv(plan, w) && IsCall(e)
    requires D.PcOf(w.driver, e.t).Polling? && D.PcOf(w.driver, e.t).seen.id == a
    ensures WorldInv(plan, PollStep(plan, w, e, a))
  {
    hide D.Next, K.Step, D.DriverInv;
    match e {
      case PollAnswered(t, error) =>
        if a !in w.sessions {
          UnknownKeeps(plan, w, D.PollUnknown(t));
        } else if !R.PollReaches(w.sessions[a]) {
          assert SessionFits(w, a);
          PollReturnKeeps(plan, w, t, a, w.sessions[a].status, error);
        }
      case PollBegun(t, sighting) => WorkKeeps(plan, w, a, K.BeginPoll(sighting));
      case PollDone(t, published, error) => PollDoneKeeps(plan, w, t, published, error, a);
      case _ =>
    }
  }

  lemma PollDoneKeeps(plan: ExecutionPlan, w: World, t: nat, published: bool, error: Option<string>, a: AttemptId)
    requires WorldInv(plan, w) && D.PcOf(w.driver, t).Polling? && D.PcOf(w.driver, t).seen.id == a
    ensures WorldInv(plan, PollStep(plan, w, PollDone(t, published, error), a))
  {
    hide D.Next, D.DriverInv, K.Step;
    if a in w.sessions && a in w.workers {
      assert SessionFits(w, a) && WorkerFits(w, a);
      match w.workers[a].out {
        case ExitCode(code) =>
          var s := R.AfterPoll(w.sessions[a], R.Exited(code, published));
          assert Clean(w, a);
          PollReturnKeeps(plan, w, t, a, s.status, error);
          var v := Drive(plan, w, D.PollReturned(t, a, s.status, error));
          SessionMoves(plan, v, a, s);
          WorkKeeps(plan, Put(v, a, s), a, K.Take);
        case StillRunning =>
          PollReturnKeeps(plan, w, t, a, w.sessions[a].status, error);
          WorkKeeps(plan, Drive(plan, w, D.PollReturned(t, a, w.sessions[a].status, error)), a, K.Take);
        case PollError =>
          UnknownKeeps(plan, w, D.Raised(t));
          WorkKeeps(plan, Drive(plan, w, D.Raised(t)), a, K.Take);
        case _ =>
      }
    }
  }

  lemma CancelKeeps(plan: ExecutionPlan, w: World, e: WorldEvent, a: AttemptId)
    requires WorldInv(plan, w) && IsCall(e)
    requires D.PcOf(w.driver, e.t).CancelCalling? && D.PcOf(w.driver, e.t).seen.id == a
    ensures WorldInv(plan, CancelStep(plan, w, e, a))
  {
    hide D.Next, K.Step, D.DriverInv;
    match e {
      case CancelAnswered(t, error) =>
        if a !in w.sessions {
          UnknownKeeps(plan, w, D.CancelUnknown(t));
        } else if !R.CancelReaches(w.sessions[a]) {
          assert SessionFits(w, a);
          var s := R.AfterCancel(w.sessions[a], R.CancelRaises);
          assert s == w.sessions[a];
          CancelReturnKeeps(plan, w, t, a, s.status, error);
          SessionMoves(plan, Drive(plan, w, D.CancelReturned(t, a, s.status, error)), a, s);
        }
      case CancelBegun(t) =>
        if a in w.sessions && R.CancelReaches(w.sessions[a]) {
          assert SessionFits(w, a);
          SessionMoves(plan, w, a, R.AllTo(w.sessions[a], R.SCancelling));
          WorkKeeps(plan, Put(w, a, R.AllTo(w.sessions[a], R.SCancelling)), a, K.BeginCancel);
        }
      case CancelDone(t, error) => CancelDoneKeeps(plan, w, t, error, a);
      case _ =>
    }
  }

  lemma CancelDoneKeeps(plan: ExecutionPlan, w: World, t: nat, error: Option<string>, a: AttemptId)
    requires WorldInv(plan, w) && D.PcOf(w.driver, t).CancelCalling? && D.PcOf(w.driver, t).seen.id == a
    ensures WorldInv(plan, CancelStep(plan, w, CancelDone(t, error), a))
  {
    hide D.Next, D.DriverInv, K.Step;
    if a in w.sessions && w.sessions[a].handle.Some? && a in w.workers {
      assert SessionFits(w, a) && WorkerFits(w, a);
      match w.workers[a].out {
        case CancelOutcome(ok) =>
          var s := R.CancelSettled(w.sessions[a], R.Outcome(ok, ok, 0));
          CancelReturnKeeps(plan, w, t, a, s.status, error);
          var v := Drive(plan, w, D.CancelReturned(t, a, s.status, error));
          SessionMoves(plan, v, a, s);
          WorkKeeps(plan, Put(v, a, s), a, K.Take);
        case CancelError =>
          UnknownKeeps(plan, w, D.Raised(t));
          WorkKeeps(plan, Drive(plan, w, D.Raised(t)), a, K.Take);
        case _ =>
      }
    }
  }

  // ----- Restart -----

  /** A crash and the recovery behind it leave the receipt. */
  lemma CrashKeepsReceipt(x: K.Worker)
    requires K.WorkerInv(x)
    ensures var v := K.Step(K.Step(x, K.Crash), K.Recover); K.WorkerInv(v) && v.durable == x.durable
  {
  }

  lemma WorkersRestart(plan: ExecutionPlan, w: World)
    requires WorldInv(plan, w)
    ensures WorldInv(plan, w.(workers := Restarted(w).workers))
  {
    hide K.Step, D.DriverInv;
    var v := w.(workers := Restarted(w).workers);
    forall a | a in v.workers
      ensures WorkerFits(v, a) && (Released(w, a) ==> Released(v, a))
    {
      assert WorkerFits(w, a);
      var x := w.workers[a];
      CrashKeepsReceipt(x);
    }
    assert ReleasesKept(w, v);
    forall a {:trigger Clean(v, a)} | Clean(w, a) ensures Clean(v, a) {
      if Released(w, a) { assert Released(v, a); }
    }
    WorkersFrame(plan, w, v);
  }

  lemma RestartKeeps(plan: ExecutionPlan, w: World)
    requires WorldInv(plan, w)
    ensures WorldInv(plan, Restarted(w))
  {
    hide Decide, K.Step, D.DriverInv, D.MovedPc;
    WorkersRestart(plan, w);
    var u := w.(workers := Restarted(w).workers);
    var v := Drive(plan, u, D.Crash);
    assert forall t: nat {:trigger D.PcOf(v.driver, t)} :: D.PcOf(v.driver, t) == D.Idle;
    assert NewPcsFit(u, v);
    DriveKeeps(plan, u, D.Crash);
    var last := Restarted(w);
    forall a | a in last.sessions ensures SessionFits(last, a) {
      assert WorkerFits(v, a);
    }
    SessionsFrame(plan, v, last);
  }

  lemma CallKeeps(plan: ExecutionPlan, w: World, e: WorldEvent)
    requires WorldInv(plan, w) && IsCall(e)
    ensures WorldInv(plan, CallStep(plan, w, e))
  {
    hide WorldInv, SubmitStep, PollStep, CancelStep;
    var pc := D.PcOf(w.driver, e.t);
    if pc.Submitting? {
      SubmitKeeps(plan, w, e, pc.target);
    } else if pc.Polling? {
      PollKeeps(plan, w, e, pc.seen.id);
    } else if pc.CancelCalling? {
      CancelKeeps(plan, w, e, pc.seen.id);
    }
  }

  /** Every event of the three layers keeps the invariant. */
  lemma NextKeeps(plan: ExecutionPlan, w: World, e: WorldEvent)
    requires WorldInv(plan, w)
    ensures WorldInv(plan, Next(plan, w, e))
  {
    hide WorldInv, D.Next, K.Step, Restarted, CallStep;
    match e {
      case DriverMoves(de) => if DriverAlone(de) { AloneKeeps(plan, w, de); }
      case WorkerMoves(a, we) => if WorkerAlone(we) { WorkKeeps(plan, w, a, we); }
      case Restart => RestartKeeps(plan, w);
      case _ => CallKeeps(plan, w, e);
    }
  }

  lemma {:induction false} ReachableWorld(plan: ExecutionPlan, w: World, events: seq<WorldEvent>)
    requires ValidPlan(plan) && Booted(w)
    ensures WorldInv(plan, Exec(plan, w, events))
  {
    hide Next, D.Next;
    if events == [] {
      D.ReachableDriver(plan, w.driver, []);
    } else {
      ReachableWorld(plan, w, events[..|events| - 1]);
      NextKeeps(plan, Exec(plan, w, events[..|events| - 1]), events[|events| - 1]);
    }
  }

  // ----- What a recorded end means -----

  predicate ReleasedAfterTerminal(w: World, a: AttemptId) {
    Released(w, a) && w.workers[a].terminal
  }

  /**
   * Whatever crashed and restarted before: an attempt recorded as over, and not lost,
   * holds no lease (its worker, if one was ever begun, has a saved release that follows
   * a terminal lease state), and cleanup is recorded as confirmed only with that release.
   */
  lemma EndsHoldNoLease(plan: ExecutionPlan, w: World, events: seq<WorldEvent>, i: nat)
    requires ValidPlan(plan) && Booted(w) && i < |Exec(plan, w, events).driver.run.attempts|
    ensures var v := Exec(plan, w, events);
            var x := v.driver.run.attempts[i];
            && (Ends(x.status) && x.id in v.workers ==> ReleasedAfterTerminal(v, x.id))
            && (x.cleanupConfirmed ==> ReleasedAfterTerminal(v, x.id))
            && (x.status.Succeeded? && D.KindOf(x.stepId).EngineStep? ==> ReleasedAfterTerminal(v, x.id))
  {
    hide Next;
    ReachableWorld(plan, w, events);
    var v := Exec(plan, w, events);
    assert AttemptFits(v, i);
    var x := v.driver.run.attempts[i];
    if x.id in v.workers { assert WorkerFits(v, x.id); }
  }

  /**
   * Cancellation is end-to-end safe: a cancelled run has no active attempt, and its last
   * attempt, if cancelled, has its lease released after a terminal lease state; ended in
   * any other way short of LOST, its worker, if it was begun, is released as well.
   */
  lemma CancelledRunIsCleanedUp(plan: ExecutionPlan, w: World, events: seq<WorldEvent>)
    requires ValidPlan(plan) && Booted(w)
    ensures var v := Exec(plan, w, events);
            var r := v.driver.run;
            r.observed.PlanCancelled? && r.Latest().Some? ==>
              && r.Latest().value.status.Terminal()
              && (r.Latest().value.status.Cancelled? ==> ReleasedAfterTerminal(v, r.Latest().value.id))
              && (!r.Latest().value.status.Lost? && r.Latest().value.id in v.workers ==>
                    ReleasedAfterTerminal(v, r.Latest().value.id))
  {
    hide Next;
    ReachableWorld(plan, w, events);
    var r := Exec(plan, w, events).driver.run;
    if r.Latest().Some? {
      EndsHoldNoLease(plan, w, events, |r.attempts| - 1);
    }
  }

  /** A succeeded run has, for every engine step, a succeeded last attempt whose lease was
      released after a terminal lease state. */
  lemma SucceededRunIsCleanedUp(plan: ExecutionPlan, w: World, events: seq<WorldEvent>, k: nat)
    requires ValidPlan(plan) && Booted(w) && k < |plan.steps|
    requires Exec(plan, w, events).driver.run.observed.PlanSucceeded?
    requires D.KindOf(plan.steps[k].stepId).EngineStep?
    ensures var v := Exec(plan, w, events);
            var last := LastOf(v.driver.run.attempts, plan.steps[k].stepId);
            last.Some? && last.value.status.Succeeded? && ReleasedAfterTerminal(v, last.value.id)
  {
    hide Next;
    ReachableWorld(plan, w, events);
    var r := Exec(plan, w, events).driver.run;
    assert StepSucceededLast(r, plan.steps[k].stepId);
    var i := LastOfIndex(r.attempts, plan.steps[k].stepId);
    EndsHoldNoLease(plan, w, events, i);
  }

  /** Every worker belongs to one launched attempt and speaks the lease protocol. */
  lemma EveryWorkerFollowsProtocol(plan: ExecutionPlan, w: World, events: seq<WorldEvent>, a: AttemptId)
    requires ValidPlan(plan) && Booted(w) && a in Exec(plan, w, events).workers
    ensures var v := Exec(plan, w, events);
            && a in v.driver.launches && D.HasAttempt(v.driver.run, a) && K.Language(v.workers[a].trace)
  {
    hide Next;
    ReachableWorld(plan, w, events);
    assert WorkerFits(Exec(plan, w, events), a);
    var i :| 0 <= i < |Exec(plan, w, events).driver.launches| && Exec(plan, w, events).driver.launches[i] == a;
    assert D.HasAttempt(Exec(plan, w, events).driver.run, Exec(plan, w, events).driver.launches[i]);
  }
}
