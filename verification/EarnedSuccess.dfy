/**
 * A success is earned across the three layers: an engine attempt is recorded as SUCCEEDED
 * only after a poll of its worker that sighted exit code zero, and one that handed this code
 * to its session with the outputs published.
 */
module EarnedSuccess {
  import opened Prelude
  import opened Plans
  import opened Lifecycle
  import opened LifecycleInvariant
  import opened EndToEnd
  import D = Driver
  import R = Runtime
  import K = Kernel

  // ----- The polls of a run -----

  predicate PollsFor(w: World, e: WorldEvent, a: AttemptId) {
    IsCall(e) && D.PcOf(w.driver, e.t).Polling? && D.PcOf(w.driver, e.t).seen.id == a
  }

  /** A poll of the attempt's worker begins, and sights a completion with exit code zero. */
  predicate SightsZero(w: World, e: WorldEvent, a: AttemptId) {
    e.PollBegun? && e.sighting == K.Completed(0) && PollsFor(w, e, a)
  }

  /** A poll of the attempt ends with exit code zero, and its outputs are published. */
  predicate PublishesZero(w: World, e: WorldEvent, a: AttemptId) {
    e.PollDone? && e.published && PollsFor(w, e, a) && a in w.workers && w.workers[a].out == K.ExitCode(0)
  }

  /** The attempts sighted with exit code zero, and those published with it, so far. */
  datatype Polls = Polls(sighted: set<AttemptId>, published: set<AttemptId>)

  function Polled(p: Polls, w: World, e: WorldEvent): Polls {
    if !IsCall(e) || !D.PcOf(w.driver, e.t).Polling? then p
    else
      var a := D.PcOf(w.driver, e.t).seen.id;
      Polls(p.sighted + (if SightsZero(w, e, a) then {a} else {}), p.published + if PublishesZero(w, e, a) then {a} else {})
  }

  function PollsOf(plan: ExecutionPlan, w: World, events: seq<WorldEvent>): Polls {
    if events == [] then Polls({}, {})
    else
      var before := events[..|events| - 1];
      Polled(PollsOf(plan, w, before), Exec(plan, w, before), events[|events| - 1])
  }

  // ----- What every success has behind it -----

  /** The worker's poll, under way or over, came to exit code zero. */
  predicate EndsInZero(x: K.Worker) {
    x.out == K.ExitCode(0) || (x.call.InCall? && x.call.purpose == K.ForPoll(0))
  }

  ghost predicate WorkersEarned(w: World, p: Polls) {
    forall a | a in w.workers && EndsInZero(w.workers[a]) :: a in p.sighted
  }

  ghost predicate SessionsEarned(w: World, p: Polls) {
    forall a | a in w.sessions && w.sessions[a].status.SCompleted? :: a in p.published
  }

  predicate PcEarned(r: ProductRun, pc: D.Pc, p: Polls) {
    pc.Reporting? && pc.status.Succeeded? && RunsOnEngine(r, pc.target) ==> pc.target in p.published
  }

  ghost predicate ThreadsEarned(w: World, p: Polls) {
    forall t: nat {:trigger D.PcOf(w.driver, t)} :: PcEarned(w.driver.run, D.PcOf(w.driver, t), p)
  }

  predicate AttemptEarned(r: ProductRun, i: nat, p: Polls)
    requires i < |r.attempts|
  {
    r.attempts[i].status.Succeeded? && D.KindOf(r.attempts[i].stepId).EngineStep? ==> r.attempts[i].id in p.published
  }

  ghost predicate AttemptsEarned(w: World, p: Polls) {
    forall i: nat {:trigger AttemptEarned(w.driver.run, i, p)} | i < |w.driver.run.attempts| :: AttemptEarned(w.driver.run, i, p)
  }

  ghost predicate Earned(w: World, p: Polls) {
    && WorkersEarned(w, p) && SessionsEarned(w, p) && ThreadsEarned(w, p) && AttemptsEarned(w, p)
    && p.published <= p.sighted
  }

  // ----- Worker and session steps -----

  /** Only a poll that sights exit code zero brings a worker to it. */
  lemma ZeroIsSighted(x: K.Worker, e: K.WorkerEvent)
    requires EndsInZero(K.Step(x, e))
    ensures EndsInZero(x) || e == K.BeginPoll(K.Completed(0))
  {
    if e.Saved? {
      if x.call.InCall? { SavedInZero(x, e.ok); }
    } else {
      hide K.SaveReturned;
    }
  }

  lemma SavedInZero(x: K.Worker, ok: bool)
    requires x.call.InCall? && EndsInZero(K.SaveReturned(x, ok))
    ensures EndsInZero(x)
  {
  }

  lemma WorkEarns(w: World, a: AttemptId, e: K.WorkerEvent, p: Polls)
    requires Earned(w, p) && (e == K.BeginPoll(K.Completed(0)) ==> a in p.sighted)
    ensures Earned(Work(w, a, e), p)
  {
    hide K.Step;
    if a in w.workers && EndsInZero(K.Step(w.workers[a], e)) { ZeroIsSighted(w.workers[a], e); }
    StandsEarned(w, Work(w, a, e), p);
  }

  /** Threads and attempts of a driver that stands still. */
  lemma StandsEarned(w: World, v: World, p: Polls)
    requires Earned(w, p) && v.driver == w.driver
    ensures ThreadsEarned(v, p) && AttemptsEarned(v, p)
  {
    forall t: nat {:trigger D.PcOf(v.driver, t)} ensures PcEarned(v.driver.run, D.PcOf(v.driver, t), p) {
      assert PcEarned(w.driver.run, D.PcOf(w.driver, t), p);
    }
    forall i: nat | i < |v.driver.run.attempts| ensures AttemptEarned(v.driver.run, i, p) {
      assert AttemptEarned(w.driver.run, i, p);
    }
  }

  lemma PutEarns(w: World, a: AttemptId, s: R.Session, p: Polls)
    requires Earned(w, p) && (s.status.SCompleted? ==> a in p.published)
    ensures Earned(Put(w, a, s), p)
  {
    StandsEarned(w, Put(w, a, s), p);
  }

  // ----- Driver steps -----

  /** How a thread comes to report a success: a verdict of preflight, or a completed session. */
  predicate Succeeds(d: D.Driver, e: D.DriverEvent, t: nat, target: AttemptId) {
    var pc := D.PcOf(d, t);
    || (e.Evaluate? && e.t == t && pc.Executing? && D.KindOf(pc.made.stepId).PreflightStep? && target == pc.made.id)
    || (e.SubmitReturned? && e.t == t && e.status.SCompleted? && pc == D.Submitting(target))
    || (e.PollReturned? && e.t == t && e.status.SCompleted? && pc.Polling? && target == pc.seen.id)
  }

  predicate ReportsSuccess(pc: D.Pc) {
    pc.Reporting? && pc.status.Succeeded?
  }

  lemma ReadsReportNoSuccess(plan: ExecutionPlan, d: D.Driver, e: D.DriverEvent, t: nat)
    requires ReadsRecord(e)
    ensures ReportsSuccess(D.PcOf(D.Next(plan, d, e), t)) ==> D.PcOf(D.Next(plan, d, e), t) == D.PcOf(d, t)
  {
    hide Decide, NextAction;
  }

  lemma CommitsReportNoSuccess(plan: ExecutionPlan, d: D.Driver, e: D.DriverEvent, t: nat)
    requires CommitsRecord(e)
    ensures ReportsSuccess(D.PcOf(D.Next(plan, d, e), t)) ==> D.PcOf(D.Next(plan, d, e), t) == D.PcOf(d, t)
  {
    hide Apply, NextAction, D.MovedPc;
  }

  lemma SuccessReports(plan: ExecutionPlan, d: D.Driver, e: D.DriverEvent, t: nat)
    requires ReportsSuccess(D.PcOf(D.Next(plan, d, e), t)) && D.PcOf(D.Next(plan, d, e), t) != D.PcOf(d, t)
    ensures Succeeds(d, e, t, D.PcOf(D.Next(plan, d, e), t).target)
  {
    if D.MovesThread(e) {
      hide D.Next;
      D.NextMoves(plan, d, e);
    } else if ReadsRecord(e) {
      hide D.Next;
      ReadsReportNoSuccess(plan, d, e, t);
    } else if CommitsRecord(e) {
      hide D.Next;
      CommitsReportNoSuccess(plan, d, e, t);
    } else {
      hide Decide, NextAction, D.MovedPc, D.ReadSession;
    }
  }

  /** The completed session behind a report is one that was published. */
  predicate TruthfulReturn(d: D.Driver, e: D.DriverEvent, p: Polls) {
    && (e.SubmitReturned? ==> !e.status.SCompleted?)
    && (e.PollReturned? && e.status.SCompleted? && D.PcOf(d, e.t).Polling? ==> D.PcOf(d, e.t).seen.id in p.published)
  }

  lemma DriveThreads(plan: ExecutionPlan, w: World, e: D.DriverEvent, p: Polls)
    requires WorldInv(plan, w) && Earned(w, p) && TruthfulReturn(w.driver, e, p)
    ensures ThreadsEarned(Drive(plan, w, e), p)
  {
    hide D.Next, Inv;
    var d, v := w.driver, Drive(plan, w, e).driver;
    StepsStay(plan, d, e);
    forall t: nat {:trigger D.PcOf(v, t)} ensures PcEarned(v.run, D.PcOf(v, t), p) {
      assert D.PcOk(d, D.PcOf(d, t)) && PcEarned(d.run, D.PcOf(d, t), p);
      if ReportsSuccess(D.PcOf(v, t)) && D.PcOf(v, t) != D.PcOf(d, t) { SuccessReports(plan, d, e, t); }
    }
  }

  lemma DriveAttempts(plan: ExecutionPlan, w: World, e: D.DriverEvent, p: Polls)
    requires WorldInv(plan, w) && Earned(w, p)
    ensures AttemptsEarned(Drive(plan, w, e), p)
  {
    hide D.Next, Decide, D.RunRefs;
    var d, v := w.driver, Drive(plan, w, e).driver;
    forall i: nat | i < |v.run.attempts| ensures AttemptEarned(v.run, i, p) {
      AttemptsComeFrom(plan, d, e, i);
      if i < |d.run.attempts| {
        assert AttemptEarned(d.run, i, p) && NumberedAt(d.run, i);
        if e.Report? { assert PcEarned(d.run, D.PcOf(d, e.t), p); }
      }
    }
  }

  lemma DriveEarns(plan: ExecutionPlan, w: World, e: D.DriverEvent, p: Polls)
    requires WorldInv(plan, w) && Earned(w, p) && TruthfulReturn(w.driver, e, p)
    ensures Earned(Drive(plan, w, e), p)
  {
    hide D.Next, WorldInv;
    DriveThreads(plan, w, e, p);
    DriveAttempts(plan, w, e, p);
  }

  // ----- Engine calls -----

  lemma SubmitEarns(plan: ExecutionPlan, w: World, e: WorldEvent, a: AttemptId, p: Polls)
    requires WorldInv(plan, w) && Earned(w, p) && IsCall(e) && D.PcOf(w.driver, e.t) == D.Submitting(a)
    ensures Earned(SubmitStep(plan, w, e, a), p)
  {
    hide WorldInv, D.Next, Earned;
    match e {
      case Rejected(t, error) => if a !in w.workers { SubmittedEarns(plan, w, t, a, R.RejectedSession, error, p); }
      case AdmissionFailed(t, error) =>
        if a !in w.workers { SubmittedEarns(plan, w, t, a, R.AttemptStarted(R.NewSession, R.StartFailed(false)), error, p); }
      case StartBegun(t) => if a !in w.workers { BeginEarns(w, a, p); }
      case StartDone(t, error) =>
        if a in w.workers && (w.workers[a].out.HandleReturned? || w.workers[a].out.StartError?) {
          hide K.Step;
          var s := R.AttemptStarted(R.NewSession, StartReported(w.workers[a].out, a));
          SubmittedEarns(plan, w, t, a, s, error, p);
          WorkEarns(Submitted(plan, w, t, a, s, error), a, K.Take, p);
        }
      case _ =>
    }
  }

  lemma BeginEarns(w: World, a: AttemptId, p: Polls)
    requires Earned(w, p)
    ensures Earned(w.(workers := w.workers[a := K.Step(K.NewWorker, K.BeginStart(true))]), p)
  {
    StandsEarned(w, w.(workers := w.workers[a := K.Step(K.NewWorker, K.BeginStart(true))]), p);
  }

  lemma SubmittedEarns(plan: ExecutionPlan, w: World, t: nat, a: AttemptId, s: R.Session, error: Option<string>, p: Polls)
    requires WorldInv(plan, w) && Earned(w, p) && !s.status.SCompleted?
    ensures Earned(Submitted(plan, w, t, a, s, error), p)
  {
    hide WorldInv, D.Next, Earned;
    DriveEarns(plan, w, D.SubmitReturned(t, s.status, error), p);
    PutEarns(Drive(plan, w, D.SubmitReturned(t, s.status, error)), a, s, p);
  }

  /** More polls earn no less. */
  lemma MorePolls(w: World, p: Polls, q: Polls)
    requires Earned(w, p) && p.sighted <= q.sighted && p.published <= q.published <= q.sighted
    ensures Earned(w, q)
  {
    forall t: nat {:trigger D.PcOf(w.driver, t)} ensures PcEarned(w.driver.run, D.PcOf(w.driver, t), q) {
      assert PcEarned(w.driver.run, D.PcOf(w.driver, t), p);
    }
    forall i: nat | i < |w.driver.run.attempts| ensures AttemptEarned(w.driver.run, i, q) {
      assert AttemptEarned(w.driver.run, i, p);
    }
  }

  lemma PolledEarns(w: World, e: WorldEvent, p: Polls)
    requires Earned(w, p)
    ensures Earned(w, Polled(p, w, e))
  {
    MorePolls(w, p, Polled(p, w, e));
  }

  lemma PollEarns(plan: ExecutionPlan, w: World, e: WorldEvent, a: AttemptId, p: Polls)
    requires WorldInv(plan, w) && Earned(w, p) && PollsFor(w, e, a)
    requires SightsZero(w, e, a) ==> a in p.sighted
    requires PublishesZero(w, e, a) ==> a in p.published
    ensures Earned(PollStep(plan, w, e, a), p)
  {
    hide WorldInv, D.Next, K.Step;
    match e {
      case PollAnswered(t, error) =>
        if a !in w.sessions {
          DriveEarns(plan, w, D.PollUnknown(t), p);
        } else if !R.PollReaches(w.sessions[a]) {
          DriveEarns(plan, w, D.PollReturned(t, a, w.sessions[a].status, error), p);
        }
      case PollBegun(t, sighting) => WorkEarns(w, a, K.BeginPoll(sighting), p);
      case PollDone(t, published, error) => PollDoneEarns(plan, w, t, published, error, a, p);
      case _ =>
    }
  }

  lemma PollDoneEarns(plan: ExecutionPlan, w: World, t: nat, published: bool, error: Option<string>, a: AttemptId, p: Polls)
    requires WorldInv(plan, w) && Earned(w, p) && PollsFor(w, PollDone(t, published, error), a)
    requires PublishesZero(w, PollDone(t, published, error), a) ==> a in p.published
    ensures Earned(PollStep(plan, w, PollDone(t, published, error), a), p)
  {
    hide WorldInv, D.Next, K.Step, WorkersEarned, ThreadsEarned, AttemptsEarned;
    if a in w.sessions && a in w.workers {
      match w.workers[a].out {
        case ExitCode(code) =>
          var s := R.AfterPoll(w.sessions[a], R.Exited(code, published));
          var v := Drive(plan, w, D.PollReturned(t, a, s.status, error));
          DriveEarns(plan, w, D.PollReturned(t, a, s.status, error), p);
          PutEarns(v, a, s, p);
          WorkEarns(Put(v, a, s), a, K.Take, p);
        case StillRunning =>
          DriveEarns(plan, w, D.PollReturned(t, a, w.sessions[a].status, error), p);
          WorkEarns(Drive(plan, w, D.PollReturned(t, a, w.sessions[a].status, error)), a, K.Take, p);
        case PollError =>
          DriveEarns(plan, w, D.Raised(t), p);
          WorkEarns(Drive(plan, w, D.Raised(t)), a, K.Take, p);
        case _ =>
      }
    }
  }

  lemma CancelEarns(plan: ExecutionPlan, w: World, e: WorldEvent, a: AttemptId, p: Polls)
    requires WorldInv(plan, w) && Earned(w, p) && IsCall(e)
    ensures Earned(CancelStep(plan, w, e, a), p)
  {
    hide WorldInv, D.Next, K.Step, WorkersEarned, ThreadsEarned, AttemptsEarned;
    match e {
      case CancelAnswered(t, error) =>
        if a !in w.sessions {
          DriveEarns(plan, w, D.CancelUnknown(t), p);
        } else if !R.CancelReaches(w.sessions[a]) {
          var s := R.AfterCancel(w.sessions[a], R.CancelRaises);
          DriveEarns(plan, w, D.CancelReturned(t, a, s.status, error), p);
          PutEarns(Drive(plan, w, D.CancelReturned(t, a, s.status, error)), a, s, p);
        }
      case CancelBegun(t) =>
        if a in w.sessions && R.CancelReaches(w.sessions[a]) {
          PutEarns(w, a, R.AllTo(w.sessions[a], R.SCancelling), p);
          WorkEarns(Put(w, a, R.AllTo(w.sessions[a], R.SCancelling)), a, K.BeginCancel, p);
        }
      case CancelDone(t, error) => CancelDoneEarns(plan, w, t, error, a, p);
      case _ =>
    }
  }

  lemma CancelDoneEarns(plan: ExecutionPlan, w: World, t: nat, error: Option<string>, a: AttemptId, p: Polls)
    requires WorldInv(plan, w) && Earned(w, p)
    ensures Earned(CancelStep(plan, w, CancelDone(t, error), a), p)
  {
    hide WorldInv, D.Next, K.Step, WorkersEarned, ThreadsEarned, AttemptsEarned;
    if a in w.sessions && w.sessions[a].handle.Some? && a in w.workers {
      match w.workers[a].out {
        case CancelOutcome(ok) =>
          var s := R.CancelSettled(w.sessions[a], R.Outcome(ok, ok, 0));
          DriveEarns(plan, w, D.CancelReturned(t, a, s.status, error), p);
          PutEarns(Drive(plan, w, D.CancelReturned(t, a, s.status, error)), a, s, p);
          WorkEarns(Put(Drive(plan, w, D.CancelReturned(t, a, s.status, error)), a, s), a, K.Take, p);
        case CancelError =>
          DriveEarns(plan, w, D.Raised(t), p);
          WorkEarns(Drive(plan, w, D.Raised(t)), a, K.Take, p);
        case _ =>
      }
    }
  }

  lemma CallEarns(plan: ExecutionPlan, w: World, e: WorldEvent, p: Polls)
    requires WorldInv(plan, w) && Earned(w, p) && IsCall(e)
    ensures Earned(CallStep(plan, w, e), Polled(p, w, e))
  {
    hide WorldInv, Earned, SubmitStep, PollStep, CancelStep;
    PolledEarns(w, e, p);
    var pc := D.PcOf(w.driver, e.t);
    if pc.Submitting? {
      SubmitEarns(plan, w, e, pc.target, Polled(p, w, e));
    } else if pc.Polling? {
      PollEarns(plan, w, e, pc.seen.id, Polled(p, w, e));
    } else if pc.CancelCalling? {
      CancelEarns(plan, w, e, pc.seen.id, Polled(p, w, e));
    }
  }

  /** A restart forgets every poll under way and every session that is over. */
  lemma RestartEarns(plan: ExecutionPlan, w: World, p: Polls)
    requires WorldInv(plan, w) && Earned(w, p)
    ensures Earned(Restarted(w), p)
  {
    hide WorldInv, D.Next, K.WorkerInv, K.SaveReturned;
    var v := Restarted(w);
    forall t: nat {:trigger D.PcOf(v.driver, t)} ensures PcEarned(v.driver.run, D.PcOf(v.driver, t), p) {}
    forall i: nat | i < |v.driver.run.attempts| ensures AttemptEarned(v.driver.run, i, p) {
      assert AttemptEarned(w.driver.run, i, p);
    }
  }

  lemma NextEarns(plan: ExecutionPlan, w: World, e: WorldEvent, p: Polls)
    requires WorldInv(plan, w) && Earned(w, p)
    ensures Earned(Next(plan, w, e), Polled(p, w, e))
  {
    hide WorldInv, Earned, D.Next, K.Step, Restarted, CallStep, SightsZero, PublishesZero;
    match e {
      case DriverMoves(de) => if DriverAlone(de) { DriveEarns(plan, w, de, p); }
      case WorkerMoves(a, we) => if WorkerAlone(we) { WorkEarns(w, a, we, p); }
      case Restart => RestartEarns(plan, w, p);
      case _ => CallEarns(plan, w, e, p);
    }
  }

  lemma {:induction false} ReachableEarned(plan: ExecutionPlan, w: World, events: seq<WorldEvent>)
    requires ValidPlan(plan) && Booted(w)
    ensures Earned(Exec(plan, w, events), PollsOf(plan, w, events))
  {
    hide Next, Polled;
    if events != [] {
      var before := events[..|events| - 1];
      ReachableEarned(plan, w, before);
      ReachableWorld(plan, w, before);
      NextEarns(plan, Exec(plan, w, before), events[|events| - 1], PollsOf(plan, w, before));
    }
  }

  // ----- The polls in the run -----

  /** The k-th event of the run sights the attempt's exit code zero, or publishes it. */
  predicate SightedAt(plan: ExecutionPlan, w: World, events: seq<WorldEvent>, a: AttemptId, k: nat) {
    k < |events| && SightsZero(Exec(plan, w, events[..k]), events[k], a)
  }

  predicate PublishedAt(plan: ExecutionPlan, w: World, events: seq<WorldEvent>, a: AttemptId, k: nat) {
    k < |events| && PublishesZero(Exec(plan, w, events[..k]), events[k], a)
  }

  lemma {:induction false} SightedSometime(plan: ExecutionPlan, w: World, events: seq<WorldEvent>, a: AttemptId) returns (k: nat)
    requires a in PollsOf(plan, w, events).sighted
    ensures SightedAt(plan, w, events, a, k)
  {
    hide Exec, Next;
    var n := |events| - 1;
    if a in PollsOf(plan, w, events[..n]).sighted {
      k := SightedSometime(plan, w, events[..n], a);
      assert events[..n][..k] == events[..k];
    } else {
      k := n;
    }
  }

  /** What was published had been sighted in an earlier poll event. */
  lemma {:induction false} PublishedSometime(plan: ExecutionPlan, w: World, events: seq<WorldEvent>, a: AttemptId) returns (j: nat, k: nat)
    requires ValidPlan(plan) && Booted(w) && a in PollsOf(plan, w, events).published
    ensures j < k && SightedAt(plan, w, events, a, j) && PublishedAt(plan, w, events, a, k)
  {
    hide Next;
    var n := |events| - 1;
    var before := events[..n];
    if a in PollsOf(plan, w, before).published {
      j, k := PublishedSometime(plan, w, before, a);
      assert before[..k] == events[..k] && before[..j] == events[..j];
    } else {
      k := n;
      ReachableEarned(plan, w, before);
      j := SightedSometime(plan, w, before, a);
      assert before[..j] == events[..j];
    }
  }

  /**
   * Whatever threads race, workers answer and restarts interrupt: an engine attempt is
   * recorded as SUCCEEDED only after a poll of its own worker sighted exit code zero, and a
   * later poll event handed that code to the session with the outputs published.
   */
  lemma {:induction false} SuccessIsPolled(plan: ExecutionPlan, w: World, events: seq<WorldEvent>, i: nat)
    returns (j: nat, k: nat)
    requires ValidPlan(plan) && Booted(w) && i < |Exec(plan, w, events).driver.run.attempts|
    requires Exec(plan, w, events).driver.run.attempts[i].status.Succeeded?
    requires D.KindOf(Exec(plan, w, events).driver.run.attempts[i].stepId).EngineStep?
    ensures var a := Exec(plan, w, events).driver.run.attempts[i].id;
            j < k && SightedAt(plan, w, events, a, j) && PublishedAt(plan, w, events, a, k)
  {
    hide Exec, Next;
    ReachableEarned(plan, w, events);
    assert AttemptEarned(Exec(plan, w, events).driver.run, i, PollsOf(plan, w, events));
    j, k := PublishedSometime(plan, w, events, Exec(plan, w, events).driver.run.attempts[i].id);
  }

  /** So has a succeeded run, for every engine step of its plan. */
  lemma {:induction false} SucceededRunIsPolled(plan: ExecutionPlan, w: World, events: seq<WorldEvent>, n: nat)
    returns (a: AttemptId, j: nat, k: nat)
    requires ValidPlan(plan) && Booted(w) && n < |plan.steps| && D.KindOf(plan.steps[n].stepId).EngineStep?
    requires Exec(plan, w, events).driver.run.observed.PlanSucceeded?
    ensures LastOf(Exec(plan, w, events).driver.run.attempts, plan.steps[n].stepId).Some?
    ensures a == LastOf(Exec(plan, w, events).driver.run.attempts, plan.steps[n].stepId).value.id
    ensures j < k && SightedAt(plan, w, events, a, j) && PublishedAt(plan, w, events, a, k)
  {
    hide Exec, Next;
    SucceededRunIsCleanedUp(plan, w, events, n);
    var i := LastOfIndex(Exec(plan, w, events).driver.run.attempts, plan.steps[n].stepId);
    a := Exec(plan, w, events).driver.run.attempts[i].id;
    j, k := SuccessIsPolled(plan, w, events, i);
  }

  // ----- And what a poll that ends reports -----

  lemma PollDoneMoves(plan: ExecutionPlan, w: World, t: nat, published: bool, error: Option<string>, a: AttemptId)
    requires PollsFor(w, PollDone(t, published, error), a) && D.PcOf(w.driver, t).session == a
    requires a in w.sessions && R.PollReaches(w.sessions[a]) && a in w.workers && w.workers[a].out.ExitCode?
    ensures var v, good := Next(plan, w, PollDone(t, published, error)), w.workers[a].out.code == 0 && published;
            && a in v.sessions && v.sessions[a].status == (if good then R.SCompleted else R.SFailed)
            && D.PcOf(v.driver, t) ==
               D.Reporting(a, if good then Succeeded else Failed, Details(Some([a]), None, error), false)
  {
    hide D.Next, K.Step;
    var s := R.AfterPoll(w.sessions[a], R.Exited(w.workers[a].out.code, published));
    D.NextMoves(plan, w.driver, D.PollReturned(t, a, s.status, error));
  }

  /**
   * The other direction, call by call: a poll of a running session that ends with an exit
   * code makes its thread report SUCCEEDED for code zero with published outputs and FAILED
   * otherwise, and the session shows COMPLETED or FAILED in the same cases.
   */
  lemma PollDoneReports(plan: ExecutionPlan, w: World, t: nat, published: bool, error: Option<string>, a: AttemptId)
    requires WorldInv(plan, w) && PollsFor(w, PollDone(t, published, error), a)
    requires a in w.sessions && R.PollReaches(w.sessions[a]) && a in w.workers && w.workers[a].out.ExitCode?
    ensures var v, good := Next(plan, w, PollDone(t, published, error)), w.workers[a].out.code == 0 && published;
            && a in v.sessions && v.sessions[a].status == (if good then R.SCompleted else R.SFailed)
            && D.PcOf(v.driver, t) ==
               D.Reporting(a, if good then Succeeded else Failed, Details(Some([a]), None, error), false)
  {
    hide D.Next, Inv, K.Step, Next, R.PollReaches;
    assert D.PcOk(w.driver, D.PcOf(w.driver, t));
    hide WorldInv, D.PcOk;
    PollDoneMoves(plan, w, t, published, error, a);
  }

  /** The status in which a submission that has its answer comes back, if it has one. */
  function StartStatus(w: World, e: WorldEvent, a: AttemptId): Option<AttemptStatus> {
    if (e.Rejected? || e.AdmissionFailed?) && a !in w.workers then Some(Failed)
    else if e.StartDone? && a in w.workers && w.workers[a].out.HandleReturned? then Some(Running)
    else if e.StartDone? && a in w.workers && w.workers[a].out.StartError? then Some(if w.workers[a].out.lost then Lost else Failed)
    else None
  }

  /**
   * So for submissions: a refused one and one whose lease was given back make the thread
   * report FAILED, one whose lease may still be held LOST, and one with a handle RUNNING,
   * each under a reference to the new session; only with a handle does the session run.
   */
  lemma SubmissionReports(plan: ExecutionPlan, w: World, e: WorldEvent, a: AttemptId)
    requires IsCall(e) && D.PcOf(w.driver, e.t) == D.Submitting(a) && StartStatus(w, e, a).Some?
    requires e.Rejected? || e.AdmissionFailed? || e.StartDone?
    ensures var v, status := Next(plan, w, e), StartStatus(w, e, a).value;
            && D.PcOf(v.driver, e.t) == D.Reporting(a, status, Details(Some([a]), None, e.error), false)
            && a in v.sessions && (v.sessions[a].handle.Some? <==> status == Running)
            && v.sessions[a].status == match status
                                       case Running => R.SRunning
                                       case Lost => R.SAwaitingRetry
                                       case _ => R.SFailed
  {
    hide D.Next, K.Step;
    var s := if e.Rejected? then R.RejectedSession
             else R.AttemptStarted(R.NewSession, if e.StartDone? then StartReported(w.workers[a].out, a) else R.StartFailed(false));
    D.SubmitReturns(plan, w.driver, e.t, s.status, e.error);
  }

  /** How a thread goes on from the answer to a cancellation of its own session. */
  lemma CancelReturnIs(plan: ExecutionPlan, d: D.Driver, t: nat, a: AttemptId, status: R.TrainingStatus, error: Option<string>)
    requires D.PcOf(d, t).CancelCalling? && D.PcOf(d, t).seen.id == D.PcOf(d, t).session == a
    ensures var pc := D.PcOf(D.Next(plan, d, D.CancelReturned(t, a, status, error)), t);
            if status == R.SCancelled then pc == D.Reporting(a, Cancelled, Details(Some([a]), Some(true), error), false)
            else pc.Idle? || (pc.Reporting? && pc.target == a && pc.status == Cancelling && pc.details.cleanup == Some(false))
  {
    hide D.Next;
    D.NextMoves(plan, d, D.CancelReturned(t, a, status, error));
  }

  /**
   * And for cancellations: the thread reports CANCELLED with confirmed cleanup exactly when
   * the worker's release is confirmed; otherwise it reports that the cancellation is
   * unconfirmed, unless the attempt says so already, and the session waits for a retry.
   */
  lemma CancellationReports(plan: ExecutionPlan, w: World, t: nat, error: Option<string>, a: AttemptId)
    requires D.PcOf(w.driver, t).CancelCalling? && D.PcOf(w.driver, t).seen.id == D.PcOf(w.driver, t).session == a
    requires a in w.sessions && w.sessions[a].handle.Some? && a in w.workers && w.workers[a].out.CancelOutcome?
    ensures var v, pc := Next(plan, w, CancelDone(t, error)), D.PcOf(Next(plan, w, CancelDone(t, error)).driver, t);
            && a in v.sessions
            && if w.workers[a].out.confirmed
               then v.sessions[a].status == R.SCancelled && pc == D.Reporting(a, Cancelled, Details(Some([a]), Some(true), error), false)
               else
                 && v.sessions[a].status == R.SAwaitingRetry
                 && (pc.Idle? || (pc.Reporting? && pc.target == a && pc.status == Cancelling && pc.details.cleanup == Some(false)))
  {
    hide D.Next, K.Step, D.MovedPc;
    var ok := w.workers[a].out.confirmed;
    var s := R.CancelSettled(w.sessions[a], R.Outcome(ok, ok, 0));
    CancelReturnIs(plan, w.driver, t, a, s.status, error);
  }

  // ----- What a restart brings back -----

  /**
   * A restart keeps the record and every receipt, and forgets threads, memory, calls and
   * outcomes. Exactly the workers whose receipt records an operation under a lease get a
   * handle again, and exactly they have a session, which is running.
   */
  lemma RestartRestores(w: World)
    ensures var v := Restarted(w);
            && v.driver == w.driver.(threads := map[], memory := map[]) && v.workers.Keys == w.workers.Keys
            && (forall a | a in v.workers ::
                  && v.workers[a].durable == w.workers[a].durable && v.workers[a].trace == w.workers[a].trace
                  && v.workers[a].call == K.NoCall && v.workers[a].out == K.Nothing
                  && (v.workers[a].handle <==> a in v.sessions))
            && (forall a :: a in v.sessions <==>
                  && a in w.workers && w.workers[a].durable.Some?
                  && w.workers[a].durable.value.operation && w.workers[a].durable.value.lease)
            && (forall a | a in v.sessions :: v.sessions[a] == R.Session(R.SRunning, R.SRunning, [R.SRunning], Some(a.number)))
  {
    hide K.Step;
    forall a | a in w.workers
      ensures var x, y := w.workers[a], K.Step(K.Step(w.workers[a], K.Crash), K.Recover);
              && y.durable == x.durable && y.trace == x.trace && y.call == K.NoCall && y.out == K.Nothing
              && (y.handle <==> Recoverable(x))
    {
      RecoversOnce(w.workers[a]);
    }
  }

  lemma RecoversOnce(x: K.Worker)
    ensures var y := K.Step(K.Step(x, K.Crash), K.Recover);
            && y.durable == x.durable && y.trace == x.trace && y.call == K.NoCall && y.out == K.Nothing
            && (y.handle <==> Recoverable(x))
  {
    hide K.SaveReturned;
  }
}
